/** The JavaScript string operations the core relies on: `split` and `join`
    on a one-character separator, ASCII `toUpperCase`/`toLowerCase`, and the
    decimal rendering of a natural number. */
module Strings {

  /** Number of occurrences of `c` in `s`. */
  function Occurrences(s: string, c: char): nat
  {
    if |s| == 0 then 0 else (if s[0] == c then 1 else 0) + Occurrences(s[1..], c)
  }

  /** `s.split(sep)` for a one-character separator: the pieces between the
      separators, an empty piece where two separators meet or at either end,
      and `[""]` for the empty string. */
  function Split(s: string, sep: char): (ws: seq<string>)
    ensures |ws| == Occurrences(s, sep) + 1
    ensures forall k :: 0 <= k < |ws| ==> sep !in ws[k]
    decreases |s|
  {
    if |s| == 0 then [""]
    else if s[0] == sep then [""] + Split(s[1..], sep)
    else
      var rest := Split(s[1..], sep);
      [[s[0]] + rest[0]] + rest[1..]
  }

  /** `ws.join(sep)`, with `[].join(sep) == ""`: the pieces in order with
      the separator between them, so the result starts with the first piece. */
  function Join(ws: seq<string>, sep: char): (r: string)
    ensures |ws| == 0 ==> r == ""
    ensures |ws| >= 1 ==> ws[0] <= r
  {
    if |ws| == 0 then ""
    else if |ws| == 1 then ws[0]
    else ws[0] + [sep] + Join(ws[1..], sep)
  }

  /** `Array.prototype.pop` on a non-empty array: its last element. */
  function Last<T>(ws: seq<T>): T
    requires |ws| > 0
  {
    ws[|ws| - 1]
  }

  /** Joining the pieces of a split gives back the string. */
  lemma {:induction false} JoinSplit(s: string, sep: char)
    ensures Join(Split(s, sep), sep) == s
    decreases |s|
  {
    if |s| > 0 {
      JoinSplit(s[1..], sep);
      if s[0] != sep {
        var rest := Split(s[1..], sep);
        if |rest| > 1 {
          assert Join(rest, sep) == rest[0] + [sep] + Join(rest[1..], sep);
        }
      }
    }
  }

  /** A string without the separator splits into itself. */
  lemma {:induction false} SplitNoSep(w: string, sep: char)
    requires sep !in w
    ensures Split(w, sep) == [w]
    decreases |w|
  {
    if |w| > 0 {
      assert w[0] != sep;
      SplitNoSep(w[1..], sep);
      assert [w[0]] + w[1..] == w;
    }
  }

  /** Splitting `w + sep + t`, where `w` has no separator, peels `w` off. */
  lemma {:induction false} SplitAfterWord(w: string, t: string, sep: char)
    requires sep !in w
    ensures Split(w + [sep] + t, sep) == [w] + Split(t, sep)
    decreases |w|
  {
    var s := w + [sep] + t;
    if |w| == 0 {
      assert s[1..] == t;
    } else {
      assert s[0] == w[0];
      assert s[1..] == w[1..] + [sep] + t;
      SplitAfterWord(w[1..], t, sep);
      assert [w[0]] + w[1..] == w;
    }
  }

  /** Split inverts Join on pieces that contain no separator. */
  lemma {:induction false} SplitJoin(ws: seq<string>, sep: char)
    requires |ws| >= 1
    requires forall k :: 0 <= k < |ws| ==> sep !in ws[k]
    ensures Split(Join(ws, sep), sep) == ws
    decreases |ws|
  {
    if |ws| == 1 {
      SplitNoSep(ws[0], sep);
    } else {
      SplitJoin(ws[1..], sep);
      SplitAfterWord(ws[0], Join(ws[1..], sep), sep);
      assert [ws[0]] + ws[1..] == ws;
    }
  }

  /** Joining with at least two pieces ends with the separator and the last piece. */
  lemma {:induction false} JoinLast(ws: seq<string>, sep: char)
    requires |ws| >= 2
    ensures Join(ws, sep) == Join(ws[..|ws| - 1], sep) + [sep] + Last(ws)
    decreases |ws|
  {
    if |ws| > 2 {
      JoinLast(ws[1..], sep);
      assert ws[1..][..|ws| - 2] == ws[..|ws| - 1][1..];
    }
  }

  /** The last piece of `p + sep + w`, where `w` has no separator, is `w`. */
  lemma {:induction false} SplitLastSegment(p: string, w: string, sep: char)
    requires sep !in w
    ensures Last(Split(p + [sep] + w, sep)) == w
    decreases |p|
  {
    var s := p + [sep] + w;
    if |p| == 0 {
      assert s[1..] == w;
      SplitNoSep(w, sep);
    } else {
      assert s[1..] == p[1..] + [sep] + w;
      SplitLastSegment(p[1..], w, sep);
      OccurrencesOfSep(p[1..], w, sep);
    }
  }

  lemma {:induction false} OccurrencesOfSep(p: string, w: string, sep: char)
    ensures Occurrences(p + [sep] + w, sep) >= 1
    decreases |p|
  {
    var s := p + [sep] + w;
    if |p| > 0 {
      assert s[1..] == p[1..] + [sep] + w;
      OccurrencesOfSep(p[1..], w, sep);
    }
  }

  /** Two joins whose pieces have pairwise equal lengths and no separator have
      the same length and the separator at the same positions. */
  lemma {:induction false} JoinSameShape(ws: seq<string>, vs: seq<string>, sep: char)
    requires |ws| == |vs|
    requires forall k :: 0 <= k < |ws| ==> |ws[k]| == |vs[k]|
    requires forall k :: 0 <= k < |ws| ==> sep !in ws[k] && sep !in vs[k]
    ensures |Join(ws, sep)| == |Join(vs, sep)|
    ensures forall i :: 0 <= i < |Join(ws, sep)| ==> (Join(ws, sep)[i] == sep <==> Join(vs, sep)[i] == sep)
    decreases |ws|
  {
    if |ws| >= 2 {
      JoinSameShape(ws[1..], vs[1..], sep);
      var a, b := Join(ws, sep), Join(vs, sep);
      var n := |ws[0]|;
      forall i | 0 <= i < |a|
        ensures a[i] == sep <==> b[i] == sep
      {
        if i < n {
          assert a[i] == ws[0][i] && b[i] == vs[0][i];
        } else if i > n {
          assert a[i] == Join(ws[1..], sep)[i - n - 1];
          assert b[i] == Join(vs[1..], sep)[i - n - 1];
        }
      }
    }
  }

  // ASCII case mapping, the part of `toUpperCase`/`toLowerCase` this model covers.

  predicate IsLowerLetter(c: char) { 'a' <= c <= 'z' }

  predicate IsUpperLetter(c: char) { 'A' <= c <= 'Z' }

  /** ASCII `toUpperCase` of one character. */
  function Upper(c: char): (u: char)
    ensures !IsLowerLetter(u)
    ensures IsLowerLetter(c) ==> IsUpperLetter(u) && Lower(u) == c
    ensures !IsLowerLetter(c) ==> u == c
  {
    if IsLowerLetter(c) then (c as int - 32) as char else c
  }

  /** ASCII `toLowerCase` of one character. */
  function Lower(c: char): (l: char)
    ensures !IsUpperLetter(l)
    ensures IsUpperLetter(c) ==> IsLowerLetter(l)
    ensures !IsUpperLetter(c) ==> l == c
  {
    if IsUpperLetter(c) then (c as int + 32) as char else c
  }

  /** ASCII `s.toLowerCase()`. */
  function LowerString(s: string): (r: string)
    ensures |r| == |s|
    ensures forall j :: 0 <= j < |s| ==> r[j] == Lower(s[j])
  {
    seq(|s|, j requires 0 <= j < |s| => Lower(s[j]))
  }

  // Decimal digits.

  predicate IsDigit(c: char) { '0' <= c <= '9' }

  /** The character of a digit value. */
  function DigitChar(d: nat): (c: char)
    requires d < 10
    ensures IsDigit(c) && c as int - '0' as int == d
  {
    ('0' as int + d) as char
  }

  /** `String(n)` for a natural number: its decimal digits, without leading zeros. */
  function NatToString(n: nat): (s: string)
    ensures |s| >= 1
    ensures forall i :: 0 <= i < |s| ==> IsDigit(s[i])
    ensures s[0] == '0' ==> n == 0
    decreases n
  {
    if n < 10 then [DigitChar(n)] else NatToString(n / 10) + [DigitChar(n % 10)]
  }
}
