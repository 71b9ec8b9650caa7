/** The ReapSow-Lite listing optimizer, `POST /api/optimize-listing`: the
    title is title-cased word by word, a missing description or price is
    replaced by a fixed text, and a fixed list of suggestions is returned. */
module ListingOptimizer {
  import opened Wrappers
  import opened Strings
  import opened JsValues

  /** First character not a lower-case letter, the rest no upper-case letter. */
  predicate Capitalized(w: string)
  {
    |w| == 0 || (!IsLowerLetter(w[0]) && forall j :: 1 <= j < |w| ==> !IsUpperLetter(w[j]))
  }

  /** `word.charAt(0).toUpperCase() + word.slice(1).toLowerCase()`: the same
      letters up to case, first one upper-case, the others lower-case. */
  function CapitalizeWord(w: string): (r: string)
    ensures |r| == |w|
    ensures Capitalized(r)
    ensures LowerString(r) == LowerString(w)
  {
    if w == "" then "" else [Upper(w[0])] + LowerString(w[1..])
  }

  /** A word that is already capitalized is left as it is. */
  lemma CapitalizeCapitalized(w: string)
    requires Capitalized(w)
    ensures CapitalizeWord(w) == w
  {
    if w != "" {
      var r := CapitalizeWord(w);
      assert forall j :: 0 <= j < |w| ==> r[j] == w[j];
    }
  }

  /** Capitalizing a word that has no space gives a word without a space. */
  lemma CapitalizeKeepsSpaces(w: string)
    ensures forall j :: 0 <= j < |w| ==> (CapitalizeWord(w)[j] == ' ' <==> w[j] == ' ')
  {
    var r := CapitalizeWord(w);
    forall j | 0 <= j < |w|
      ensures r[j] == ' ' <==> w[j] == ' '
    {
      assert LowerString(r)[j] == LowerString(w)[j];
    }
  }

  /** The words after capitalizing each of them. */
  function CapitalizeAll(ws: seq<string>): (vs: seq<string>)
    ensures |vs| == |ws|
    ensures forall k :: 0 <= k < |ws| ==> vs[k] == CapitalizeWord(ws[k])
  {
    seq(|ws|, k requires 0 <= k < |ws| => CapitalizeWord(ws[k]))
  }

  /** `title.split(' ').map(capitalize).join(' ')`: a title of the same
      length whose words are the title's words, each capitalized. */
  function TitleCase(title: string): (t: string)
    ensures |t| == |title|
    ensures Split(t, ' ') == CapitalizeAll(Split(title, ' '))
  {
    var ws := Split(title, ' ');
    CapitalizedWordsNoSpace(ws);
    SplitJoin(CapitalizeAll(ws), ' ');
    JoinSameShape(CapitalizeAll(ws), ws, ' ');
    JoinSplit(title, ' ');
    Join(CapitalizeAll(ws), ' ')
  }

  /** The capitalized words contain no space. */
  lemma CapitalizedWordsNoSpace(ws: seq<string>)
    requires forall k :: 0 <= k < |ws| ==> ' ' !in ws[k]
    ensures forall k :: 0 <= k < |ws| ==> ' ' !in CapitalizeAll(ws)[k]
  {
    forall k | 0 <= k < |ws|
      ensures ' ' !in CapitalizeAll(ws)[k]
    {
      CapitalizeKeepsSpaces(ws[k]);
    }
  }

  /** The words of the title-cased string are the capitalized words of the
      title: the same number of words, each one capitalized, each the
      original word up to case. */
  lemma TitleCaseWords(title: string)
    ensures Split(TitleCase(title), ' ') == CapitalizeAll(Split(title, ' '))
    ensures |Split(TitleCase(title), ' ')| == |Split(title, ' ')|
    ensures forall k :: 0 <= k < |Split(title, ' ')| ==>
      var w, v := Split(title, ' ')[k], Split(TitleCase(title), ' ')[k];
      Capitalized(v) && |v| == |w| && LowerString(v) == LowerString(w)
  {
    var ws := Split(title, ' ');
    CapitalizedWordsNoSpace(ws);
    SplitJoin(CapitalizeAll(ws), ' ');
  }

  /** Title-casing keeps the length and puts spaces exactly where the title has them. */
  lemma TitleCaseShape(title: string)
    ensures |TitleCase(title)| == |title|
    ensures forall i :: 0 <= i < |title| ==> (TitleCase(title)[i] == ' ' <==> title[i] == ' ')
  {
    var ws := Split(title, ' ');
    CapitalizedWordsNoSpace(ws);
    JoinSameShape(CapitalizeAll(ws), ws, ' ');
    JoinSplit(title, ' ');
  }

  /** Title-casing twice is title-casing once. */
  lemma TitleCaseIdempotent(title: string)
    ensures TitleCase(TitleCase(title)) == TitleCase(title)
  {
    var ws := CapitalizeAll(Split(title, ' '));
    TitleCaseWords(title);
    forall k | 0 <= k < |ws|
      ensures CapitalizeWord(ws[k]) == ws[k]
    {
      CapitalizeCapitalized(ws[k]);
    }
    assert CapitalizeAll(ws) == ws;
  }

  /** The request body. */
  datatype ListingRequest = ListingRequest(title: JsValue, description: JsValue, price: JsValue)

  /** `TitleRequired` is answered with status 400; `OptimizationFailed` is the
      500 answer when `title` is truthy but not a string (`title.split` is not
      a function). */
  datatype ListingError = TitleRequired | OptimizationFailed
  {
    function Status(): nat
    {
      match this
      case TitleRequired => 400
      case OptimizationFailed => 500
    }

    function Message(): string
    {
      match this
      case TitleRequired => "Title is required"
      case OptimizationFailed => "Optimization failed"
    }
  }

  datatype Listing = Listing(
    original: ListingRequest,
    title: string,
    description: JsValue,
    price: JsValue,
    suggestions: seq<string>,
    note: string)

  const DefaultDescription: string := "TODO: Generate with LLM"
  const DefaultPrice: string := "Market research recommended"

  const Suggestions: seq<string> := [
    "Add specific keywords for SEO",
    "Include brand name if applicable",
    "Highlight unique selling points",
    "Use power words (premium, exclusive, limited)"
  ]

  const Note: string := "Advanced optimization with LLM coming soon"

  /** The handler. */
  function OptimizeListing(req: ListingRequest): (r: Result<Listing, ListingError>)
    ensures r == Err(TitleRequired) <==> !Truthy(req.title)
    ensures r == Err(OptimizationFailed) <==> Truthy(req.title) && !req.title.Str?
    ensures r.Ok? ==>
      && req.title.Str?
      && r.value.original == req
      && r.value.title == TitleCase(req.title.s)
      && |r.value.title| == |req.title.s|
      && (Truthy(req.description) ==> r.value.description == req.description)
      && (!Truthy(req.description) ==> r.value.description == Str(DefaultDescription))
      && (Truthy(req.price) ==> r.value.price == req.price)
      && (!Truthy(req.price) ==> r.value.price == Str(DefaultPrice))
      && r.value.suggestions == Suggestions
      && r.value.note == Note
  {
    if !Truthy(req.title) then Err(TitleRequired)
    else if !req.title.Str? then Err(OptimizationFailed)
    else
      TitleCaseShape(req.title.s);
      Ok(Listing(
        req,
        TitleCase(req.title.s),
        OrElse(req.description, Str(DefaultDescription)),
        OrElse(req.price, Str(DefaultPrice)),
        Suggestions,
        Note))
  }

  /** An optimized title is a fixed point of the optimizer. */
  lemma OptimizeTwice(req: ListingRequest)
    requires OptimizeListing(req).Ok?
    ensures var once := OptimizeListing(req).value.title;
      OptimizeListing(req.(title := Str(once))).Ok? &&
      OptimizeListing(req.(title := Str(once))).value.title == once
  {
    TitleCaseIdempotent(req.title.s);
  }
}
