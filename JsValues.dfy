/** The slice of JavaScript semantics the request handlers depend on: the
    primitive values a JSON body or a form field can carry, truthiness and
    `||`, `parseFloat`, and `Math.round`/`Math.ceil` over exact reals. */
module JsValues {
  import opened Wrappers
  import opened Strings

  /** A primitive value read out of a request body. JSON numbers are finite,
      so `Num` holds a real. */
  datatype JsValue = Undefined | Null | Bool(b: bool) | Num(n: real) | Str(s: string)

  /** The five falsy primitives of ECMAScript's ToBoolean. */
  const Falsy: set<JsValue> := {Undefined, Null, Bool(false), Num(0.0), Str("")}

  /** JavaScript truthiness: `undefined`, `null`, `false`, `0` and `""` are
      falsy; every other primitive is truthy (so the string `"0"` is truthy). */
  function Truthy(v: JsValue): (b: bool)
    ensures !b <==> v in Falsy
  {
    match v
    case Undefined => false
    case Null => false
    case Bool(b) => b
    case Num(n) => n != 0.0
    case Str(s) => s != ""
  }

  /** `v || fallback`: `v` itself when it is truthy, otherwise the fallback. */
  function OrElse(v: JsValue, fallback: JsValue): (r: JsValue)
    ensures Truthy(v) ==> r == v
    ensures !Truthy(v) ==> r == fallback
  {
    if Truthy(v) then v else fallback
  }

  /** `String(v)` for the non-numeric primitives. */
  function NonNumberToString(v: JsValue): string
    requires !v.Num?
  {
    match v
    case Undefined => "undefined"
    case Null => "null"
    case Bool(b) => if b then "true" else "false"
    case Str(s) => s
  }

  // parseFloat

  /** The characters `parseFloat` skips before the number (StrWhiteSpaceChar
      of ECMAScript: tab, vertical tab, form feed, the byte order mark, every
      space separator of category Zs, and the four line terminators). */
  predicate IsWhite(c: char)
  {
    || c == '\t' || c == '\U{000B}' || c == '\U{000C}' || c == '\U{FEFF}'
    || c == ' ' || c == '\U{00A0}' || c == '\U{1680}' || '\U{2000}' <= c <= '\U{200A}'
    || c == '\U{202F}' || c == '\U{205F}' || c == '\U{3000}'
    || c == '\n' || c == '\r' || c == '\U{2028}' || c == '\U{2029}'
  }

  /** The first index at or after `i` that is not white space. */
  function SkipWhite(s: string, i: nat): (j: nat)
    requires i <= |s|
    ensures i <= j <= |s|
    ensures forall k :: i <= k < j ==> IsWhite(s[k])
    ensures j == |s| || !IsWhite(s[j])
    decreases |s| - i
  {
    if i < |s| && IsWhite(s[i]) then SkipWhite(s, i + 1) else i
  }

  /** The end of the longest run of decimal digits that starts at `i`. */
  function DigitRun(s: string, i: nat): (j: nat)
    requires i <= |s|
    ensures i <= j <= |s|
    ensures forall k :: i <= k < j ==> IsDigit(s[k])
    ensures j == |s| || !IsDigit(s[j])
    decreases |s| - i
  {
    if i < |s| && IsDigit(s[i]) then DigitRun(s, i + 1) else i
  }

  /** The value of the digits `s[i..j]`. */
  function DigitsValue(s: string, i: nat, j: nat): nat
    requires i <= j <= |s|
    requires forall k :: i <= k < j ==> IsDigit(s[k])
    decreases j - i
  {
    if i == j then 0
    else
      assert IsDigit(s[j - 1]);
      DigitsValue(s, i, j - 1) * 10 + (s[j - 1] as int - '0' as int)
  }

  function Pow10(n: nat): (p: nat)
    ensures p >= 1
  {
    if n == 0 then 1 else 10 * Pow10(n - 1)
  }

  /** `m · 10^e`. */
  function Scale(m: real, e: int): real
  {
    if e >= 0 then m * Pow10(e) as real else m / Pow10(-e) as real
  }

  /** The exponent part `e[+-]digits` starting at `i`, or 0 when there is none
      (a bare `e` is not part of the number). */
  function ExponentAt(s: string, i: nat): int
    requires i <= |s|
  {
    if i < |s| && (s[i] == 'e' || s[i] == 'E') then
      var p := i + 1;
      var q := if p < |s| && (s[p] == '+' || s[p] == '-') then p + 1 else p;
      var r := DigitRun(s, q);
      if r == q then 0
      else if p < |s| && s[p] == '-' then -(DigitsValue(s, q, r) as int)
      else DigitsValue(s, q, r) as int
    else 0
  }

  /** `parseFloat(s)`: skip leading white space, then read the longest prefix
      of the form `[+-] digits [. digits] [e [+-] digits]` with at least one
      digit in the mantissa; `None` (NaN) when there is no such prefix.
      Whatever follows the prefix is ignored. */
  function ParseFloat(s: string): (r: Option<real>)
    ensures r.Some? <==> StartsNumber(s, SignEnd(s, SkipWhite(s, 0)))
    ensures r.Some? ==> exists k :: 0 <= k < |s| && IsDigit(s[k])
  {
    NumberAtSome(s, SkipWhite(s, 0));
    NumberAt(s, SkipWhite(s, 0))
  }

  /** The number whose text starts at `a`, or `None`. */
  function NumberAt(s: string, a: nat): (r: Option<real>)
    requires a <= |s|
    ensures r.Some? ==> exists k :: a <= k < |s| && IsDigit(s[k])
  {
    MantissaAt(s, SignEnd(s, a), IsMinusAt(s, a))
  }

  /** The number whose mantissa starts at `b`, negated when `negative`. */
  function MantissaAt(s: string, b: nat, negative: bool): (r: Option<real>)
    requires b <= |s|
    ensures r.Some? ==> exists k :: b <= k < |s| && IsDigit(s[k])
  {
    var c := DigitRun(s, b);
    var f := FractionStart(s, c);
    var d := DigitRun(s, f);
    if c == b && d == f then None
    else
      assert if c > b then IsDigit(s[b]) else IsDigit(s[f]);
      Some(Assemble(negative, DigitsValue(s, b, c), DigitsValue(s, f, d), d - f, ExponentAt(s, d)))
  }

  /** A number is read exactly when a mantissa starts after the sign. */
  lemma NumberAtSome(s: string, a: nat)
    requires a <= |s|
    ensures NumberAt(s, a).Some? <==> StartsNumber(s, SignEnd(s, a))
  {
  }

  /** A mantissa starts at `b`: a digit, or a point followed by a digit. */
  predicate StartsNumber(s: string, b: nat)
  {
    (b < |s| && IsDigit(s[b])) || (b + 1 < |s| && s[b] == '.' && IsDigit(s[b + 1]))
  }

  /** The value of a number text with the given sign, digits before the
      point, `fracDigits` digits after it (of value `frac`) and exponent. */
  function Assemble(negative: bool, whole: nat, frac: nat, fracDigits: nat, exponent: int): real
  {
    var magnitude := Scale(whole as real + frac as real / Pow10(fracDigits) as real, exponent);
    if negative then -magnitude else magnitude
  }

  /** Whether the character at `i` is a minus sign. */
  predicate IsMinusAt(s: string, i: nat)
  {
    i < |s| && s[i] == '-'
  }

  /** The index after an optional sign at `a`. */
  function SignEnd(s: string, a: nat): (b: nat)
    requires a <= |s|
    ensures a <= b <= |s|
  {
    if a < |s| && (s[a] == '+' || s[a] == '-') then a + 1 else a
  }

  /** The index after an optional decimal point at `c`. */
  function FractionStart(s: string, c: nat): (f: nat)
    requires c <= |s|
    ensures c <= f <= |s|
  {
    if c < |s| && s[c] == '.' then c + 1 else c
  }

  /** `parseFloat(v)` on a request value: a number parses to itself, any other
      primitive is converted to its string first. */
  function ParseValue(v: JsValue): (r: Option<real>)
    ensures v.Num? ==> r == Some(v.n)
    ensures v.Str? ==> r == ParseFloat(v.s)
    ensures v.Undefined? || v.Null? || v.Bool? ==> r.None?
  {
    if v.Num? then Some(v.n)
    else if v.Str? then ParseFloat(v.s)
    else
      NonNumberHasNoDigits(v);
      ParseFloat(NonNumberToString(v))
  }

  /** `"undefined"`, `"null"`, `"true"` and `"false"` hold no digit. */
  lemma NonNumberHasNoDigits(v: JsValue)
    requires v.Undefined? || v.Null? || v.Bool?
    ensures forall k :: 0 <= k < |NonNumberToString(v)| ==> !IsDigit(NonNumberToString(v)[k])
  {
  }

  /** The digits of a string depend only on the characters they cover. */
  lemma {:induction false} DigitsValuePrefix(s: string, t: string, i: nat, j: nat)
    requires i <= j <= |s|
    requires forall k :: i <= k < j ==> IsDigit(s[k])
    ensures forall k :: i <= k < j ==> IsDigit((s + t)[k])
    ensures DigitsValue(s + t, i, j) == DigitsValue(s, i, j)
    decreases j - i
  {
    if i < j {
      DigitsValuePrefix(s, t, i, j - 1);
    }
  }

  /** Reading back the digits of `String(n)` gives `n`. */
  lemma {:induction false} DigitsOfNatToString(n: nat)
    ensures DigitRun(NatToString(n), 0) == |NatToString(n)|
    ensures DigitsValue(NatToString(n), 0, |NatToString(n)|) == n
    decreases n
  {
    var s := NatToString(n);
    if n >= 10 {
      var p := NatToString(n / 10);
      DigitsOfNatToString(n / 10);
      DigitsValuePrefix(p, [DigitChar(n % 10)], 0, |p|);
      assert s == p + [DigitChar(n % 10)];
      assert DigitsValue(s, 0, |s|) == DigitsValue(s, 0, |p|) * 10 + n % 10;
    }
    DigitRunToEnd(s, 0);
  }

  /** On a string of digits the digit run reaches the end. */
  lemma {:induction false} DigitRunToEnd(s: string, i: nat)
    requires i <= |s|
    requires forall k :: i <= k < |s| ==> IsDigit(s[k])
    ensures DigitRun(s, i) == |s|
    decreases |s| - i
  {
    if i < |s| {
      DigitRunToEnd(s, i + 1);
    }
  }

  /** `parseFloat(String(n)) == n` for every natural number. */
  lemma ParseFloatNatToString(n: nat)
    ensures ParseFloat(NatToString(n)) == Some(n as real)
  {
    var s := NatToString(n);
    DigitsOfNatToString(n);
    assert SkipWhite(s, 0) == 0;
    assert s[0] != '+' && s[0] != '-';
  }

  /** Leading white space does not change what `parseFloat` reads. */
  lemma {:induction false} ParseFloatSkipsWhite(w: string, s: string)
    requires forall k :: 0 <= k < |w| ==> IsWhite(w[k])
    ensures ParseFloat(w + s) == ParseFloat(s)
    decreases |w|
  {
    if |w| > 0 {
      assert w + s == [w[0]] + (w[1..] + s);
      ParseFloatSkipsWhite(w[1..], s);
      ParseFloatSkipsOneWhite(w[0], w[1..] + s);
    } else {
      assert w + s == s;
    }
  }

  lemma ParseFloatSkipsOneWhite(c: char, s: string)
    requires IsWhite(c)
    ensures ParseFloat([c] + s) == ParseFloat(s)
  {
    SkipWhiteShift(c, s, 0);
    NumberAtShift(c, s, SkipWhite(s, 0));
  }

  /** A number's text read one character further on reads the same. */
  lemma NumberAtShift(c: char, s: string, a: nat)
    requires a <= |s|
    ensures NumberAt([c] + s, a + 1) == NumberAt(s, a)
  {
    SignShift(c, s, a);
    MantissaShift(c, s, SignEnd(s, a), IsMinusAt(s, a));
  }

  /** A mantissa read one character further on reads the same. */
  lemma MantissaShift(c: char, s: string, b: nat, negative: bool)
    requires b <= |s|
    ensures MantissaAt([c] + s, b + 1, negative) == MantissaAt(s, b, negative)
  {
    BodyShift(c, s, b);
    var cc := DigitRun(s, b);
    var f := FractionStart(s, cc);
    var d := DigitRun(s, f);
    var m := Assemble(negative, DigitsValue(s, b, cc), DigitsValue(s, f, d), d - f, ExponentAt(s, d));
    assert MantissaAt(s, b, negative) == if cc == b && d == f then None else Some(m);
    assert MantissaAt([c] + s, b + 1, negative) == if cc + 1 == b + 1 && d + 1 == f + 1 then None else Some(m);
  }

  /** The sign only negates the mantissa's value. */
  lemma MantissaSign(s: string, b: nat)
    requires b <= |s|
    ensures MantissaAt(s, b, true) == Negated(MantissaAt(s, b, false))
  {
  }

  lemma SignShift(c: char, s: string, a: nat)
    requires a <= |s|
    ensures SignEnd([c] + s, a + 1) == SignEnd(s, a) + 1
    ensures IsMinusAt([c] + s, a + 1) == IsMinusAt(s, a)
  {
    CharShift(c, s, a);
  }

  /** The digit runs and their values after the sign, shifted by one. */
  lemma BodyShift(c: char, s: string, b: nat)
    requires b <= |s|
    ensures var t, cc := [c] + s, DigitRun(s, b);
      var f := FractionStart(s, cc);
      var d := DigitRun(s, f);
      && DigitRun(t, b + 1) == cc + 1
      && FractionStart(t, cc + 1) == f + 1
      && DigitRun(t, f + 1) == d + 1
      && DigitsValue(t, b + 1, cc + 1) == DigitsValue(s, b, cc)
      && DigitsValue(t, f + 1, d + 1) == DigitsValue(s, f, d)
      && ExponentAt(t, d + 1) == ExponentAt(s, d)
  {
    DigitRunShift(c, s, b);
    var cc := DigitRun(s, b);
    CharShift(c, s, cc);
    var f := FractionStart(s, cc);
    DigitRunShift(c, s, f);
    var d := DigitRun(s, f);
    DigitsValueShift(c, s, b, cc);
    DigitsValueShift(c, s, f, d);
    ExponentAtShift(c, s, d);
  }

  /** The character at `i` of `s` is the one at `i + 1` of `[c] + s`. */
  lemma CharShift(c: char, s: string, i: nat)
    ensures |[c] + s| == |s| + 1
    ensures i < |s| ==> ([c] + s)[i + 1] == s[i]
  {
  }

  lemma {:induction false} SkipWhiteShift(c: char, s: string, i: nat)
    requires i <= |s|
    ensures SkipWhite([c] + s, i + 1) == SkipWhite(s, i) + 1
    decreases |s| - i
  {
    if i < |s| {
      assert ([c] + s)[i + 1] == s[i];
      if IsWhite(s[i]) {
        SkipWhiteShift(c, s, i + 1);
      }
    }
  }

  lemma {:induction false} DigitRunShift(c: char, s: string, i: nat)
    requires i <= |s|
    ensures DigitRun([c] + s, i + 1) == DigitRun(s, i) + 1
    decreases |s| - i
  {
    if i < |s| {
      assert ([c] + s)[i + 1] == s[i];
      if IsDigit(s[i]) {
        DigitRunShift(c, s, i + 1);
      }
    }
  }

  lemma {:induction false} DigitsValueShift(c: char, s: string, i: nat, j: nat)
    requires i <= j <= |s|
    requires forall k :: i <= k < j ==> IsDigit(s[k])
    ensures forall k :: i + 1 <= k < j + 1 ==> IsDigit(([c] + s)[k])
    ensures DigitsValue([c] + s, i + 1, j + 1) == DigitsValue(s, i, j)
    decreases j - i
  {
    assert forall k :: i + 1 <= k < j + 1 ==> ([c] + s)[k] == s[k - 1];
    if i < j {
      DigitsValueShift(c, s, i, j - 1);
    }
  }

  lemma ExponentAtShift(c: char, s: string, i: nat)
    requires i <= |s|
    ensures ExponentAt([c] + s, i + 1) == ExponentAt(s, i)
  {
    var t := [c] + s;
    if i < |s| && (s[i] == 'e' || s[i] == 'E') {
      assert t[i + 1] == s[i];
      var p := i + 1;
      var q := if p < |s| && (s[p] == '+' || s[p] == '-') then p + 1 else p;
      DigitRunShift(c, s, q);
      DigitsValueShift(c, s, q, DigitRun(s, q));
    }
  }

  /** The value of a decimal text `w.ds`: the whole part plus the digits
      after the point as a fraction. */
  function DecimalValue(w: nat, ds: string): real
    requires forall k :: 0 <= k < |ds| ==> IsDigit(ds[k])
  {
    w as real + DigitsValue(ds, 0, |ds|) as real / Pow10(|ds|) as real
  }

  /** `parseFloat` of a decimal text `String(w) + "." + ds` is its value. */
  lemma ParseFloatDecimal(w: nat, ds: string)
    requires forall k :: 0 <= k < |ds| ==> IsDigit(ds[k])
    ensures ParseFloat(NatToString(w) + ['.'] + ds) == Some(DecimalValue(w, ds))
  {
    var p := NatToString(w);
    var s := p + ['.'] + ds;
    DecimalParts(w, ds);
    assert ParseFloat(s) == NumberAt(s, 0);
    assert NumberAt(s, 0) == Some(Assemble(false, w, DigitsValue(ds, 0, |ds|), |ds|, 0));
  }

  /** The scan of a decimal text, stage by stage. */
  lemma DecimalParts(w: nat, ds: string)
    requires forall k :: 0 <= k < |ds| ==> IsDigit(ds[k])
    ensures var p := NatToString(w);
      var s := p + ['.'] + ds;
      && SkipWhite(s, 0) == 0 && SignEnd(s, 0) == 0 && !IsMinusAt(s, 0)
      && DigitRun(s, 0) == |p| && DigitsValue(s, 0, |p|) == w
      && FractionStart(s, |p|) == |p| + 1
      && DigitRun(s, |p| + 1) == |s| && DigitsValue(s, |p| + 1, |s|) == DigitsValue(ds, 0, |ds|)
      && ExponentAt(s, |s|) == 0
  {
    var p := NatToString(w);
    var s := p + ['.'] + ds;
    DigitsOfNatToString(w);
    assert s == p + (['.'] + ds);
    assert s[0] == p[0];
    DigitRunStops(p, ['.'] + ds, 0);
    DigitsValuePrefix(p, ['.'] + ds, 0, |p|);
    assert s[|p|] == '.';
    DigitsValueSuffix(p + ['.'], ds, 0, |ds|);
    DigitRunToEnd(s, |p| + 1);
  }

  /** A digit run that meets a non-digit ends there. */
  lemma {:induction false} DigitRunStops(p: string, r: string, i: nat)
    requires i <= |p|
    requires forall k :: i <= k < |p| ==> IsDigit(p[k])
    requires |r| > 0 && !IsDigit(r[0])
    ensures DigitRun(p + r, i) == |p|
    decreases |p| - i
  {
    assert (p + r)[|p|] == r[0];
    if i < |p| {
      assert (p + r)[i] == p[i];
      DigitRunStops(p, r, i + 1);
    }
  }

  /** The digits of `ds` keep their value behind any prefix `q`. */
  lemma {:induction false} DigitsValueSuffix(q: string, ds: string, i: nat, j: nat)
    requires i <= j <= |ds|
    requires forall k :: i <= k < j ==> IsDigit(ds[k])
    ensures forall k :: |q| + i <= k < |q| + j ==> IsDigit((q + ds)[k])
    ensures DigitsValue(q + ds, |q| + i, |q| + j) == DigitsValue(ds, i, j)
    decreases j - i
  {
    assert forall k :: |q| + i <= k < |q| + j ==> (q + ds)[k] == ds[k - |q|];
    if i < j {
      DigitsValueSuffix(q, ds, i, j - 1);
    }
  }

  /** The negation of a parse result. */
  function Negated(r: Option<real>): Option<real>
  {
    if r.Some? then Some(-r.value) else None
  }

  /** A leading `-` negates the number that follows it, and a leading `+`
      leaves it as it is. */
  lemma ParseFloatSigned(t: string)
    requires |t| == 0 || (!IsWhite(t[0]) && t[0] != '+' && t[0] != '-')
    ensures ParseFloat(['-'] + t) == Negated(ParseFloat(t))
    ensures ParseFloat(['+'] + t) == ParseFloat(t)
  {
    SignedShift('-', t);
    SignedShift('+', t);
  }

  lemma SignedShift(c: char, t: string)
    requires c == '-' || c == '+'
    requires |t| == 0 || (!IsWhite(t[0]) && t[0] != '+' && t[0] != '-')
    ensures ParseFloat([c] + t) == (if c == '-' then Negated(ParseFloat(t)) else ParseFloat(t))
  {
    SignStart(c, t);
    MantissaShift(c, t, 0, c == '-');
    MantissaSign(t, 0);
  }

  /** Where the scans of `[c] + t` and of `t` begin. */
  lemma SignStart(c: char, t: string)
    requires c == '-' || c == '+'
    requires |t| == 0 || (!IsWhite(t[0]) && t[0] != '+' && t[0] != '-')
    ensures ParseFloat([c] + t) == NumberAt([c] + t, 0)
    ensures SignEnd([c] + t, 0) == 1 && (IsMinusAt([c] + t, 0) <==> c == '-')
    ensures ParseFloat(t) == NumberAt(t, 0)
    ensures SignEnd(t, 0) == 0 && !IsMinusAt(t, 0)
  {
    assert ([c] + t)[0] == c;
  }

  /** A string with no decimal digit in it parses to NaN. */
  lemma ParseFloatNoDigits(s: string)
    requires forall k :: 0 <= k < |s| ==> !IsDigit(s[k])
    ensures ParseFloat(s) == None
  {
  }

  /** `Math.round(y)`: the nearest integer, halves rounded up (towards +∞). */
  function MathRound(y: real): (r: int)
    ensures y - 0.5 < r as real <= y + 0.5
  {
    (y + 0.5).Floor
  }

  /** `Math.ceil(y)`: the least integer not below `y`. */
  function MathCeil(y: real): (r: int)
    ensures y <= r as real < y + 1.0
  {
    -((-y).Floor)
  }

  /** A whole number of cents. */
  predicate IsWholeCents(r: real)
  {
    (r * 100.0).Floor as real == r * 100.0
  }

  /** `Math.round(x * 100) / 100`: `x` rounded to cents, a whole number of
      cents within half a cent of `x`, halves rounded up. */
  function RoundCents(x: real): (r: real)
    ensures x - 0.005 < r <= x + 0.005
    ensures IsWholeCents(r)
  {
    var cents := MathRound(x * 100.0);
    assert (cents as real / 100.0) * 100.0 == cents as real;
    cents as real / 100.0
  }

  /** Rounding to cents is monotone. */
  lemma RoundCentsMonotone(x: real, y: real)
    requires x <= y
    ensures RoundCents(x) <= RoundCents(y)
  {
    assert MathRound(x * 100.0) <= MathRound(y * 100.0);
  }

  /** Rounding to cents keeps whole cents as they are. */
  lemma RoundCentsOfCents(k: int)
    ensures RoundCents(k as real / 100.0) == k as real / 100.0
  {
    var x := k as real / 100.0;
    assert x * 100.0 == k as real;
    assert (k as real + 0.5).Floor == k;
  }
}
