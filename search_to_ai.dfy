/**
 * `searchToAi`: search (or take a previous search output), then ask the completion model to
 * summarise the titles of the first six results.
 */
module SearchToAi {
  import opened Common
  import opened JsStr
  import opened Json
  import opened Search

  /** The input: a query string, an object whose `results` field is given, or anything else. */
  datatype Input = QueryInput(query: string) | ObjectInput(results: Option<Json>) | OtherInput

  const PromptPrefix: string := "Summarize the following search result titles: "

  /** `String(t)` as `Array.prototype.join` applies it to one title. */
  function TitleText(t: Json): string {
    if t.JNull? then "" else ToStr(t)
  }

  /** The titles of the first six results of a search. */
  function SearchTitles(items: seq<SearchResult>): (r: seq<string>)
    ensures |r| == if |items| < 6 then |items| else 6
    ensures forall i :: 0 <= i < |r| ==> r[i] == TitleText(items[i].title)
  {
    var first := Take(items, 6);
    seq(|first|, i requires 0 <= i < |first| => TitleText(first[i].title))
  }

  /** `r.title ?? ""` for one element of a caller-supplied results array; null throws. */
  function ElementTitle(e: Json): Result<string, string> {
    if e.JNull? then Err(NullRead("title"))
    else match Get(e, "title")
      case None => Ok("")
      case Some(t) => Ok(TitleText(t))
  }

  /** The titles of the first six elements of a caller-supplied array, in order. */
  function ElementTitles(xs: seq<Json>): Result<seq<string>, string>
    decreases |xs|
  {
    if xs == [] then Ok([])
    else match ElementTitles(xs[..|xs| - 1])
      case Err(e) => Err(e)
      case Ok(ts) =>
        match ElementTitle(xs[|xs| - 1])
        case Err(e) => Err(e)
        case Ok(t) => Ok(ts + [t])
  }

  /**
   * The titles the prompt lists: a string input searches and uses its results (none when the
   * search failed); an object input uses `results ?? []`, and a `results` that is not an array
   * makes `slice`/`map` throw; any other input has no results.
   */
  function Titles(input: Input, reply: FetchReply): Result<seq<string>, string> {
    match input
    case QueryInput(q) =>
      (match SearchOutcome(q, reply)
       case Ok(items) => Ok(SearchTitles(items))
       case Err(_) => Ok([]))
    case ObjectInput(results) =>
      (match results
       case None => Ok([])
       case Some(JNull) => Ok([])
       case Some(JArr(xs)) => ElementTitles(Take(xs, 6))
       case Some(JStr(_)) => Err("items.slice(...).map is not a function")
       case Some(_) => Err("items.slice is not a function"))
    case OtherInput => Ok([])
  }

  /** The prompt built from the titles. */
  function Prompt(titles: seq<string>): string {
    PromptPrefix + Join(titles, "; ")
  }

  /**
   * What `searchToAi(input)` resolves to: the completion's text for the prompt, unchanged, or the
   * message of what threw. `reply` is what the search's fetch resolves to when the input is a string.
   */
  function SearchToAi(input: Input, reply: FetchReply, ai: string -> AiReply): Result<string, string> {
    match Titles(input, reply)
    case Err(m) => Err(m)
    case Ok(titles) =>
      match ai(Prompt(titles))
      case AiThrew(m) => Err(m)
      case AiText(t) => Ok(t)
  }

  /** The prompt is the fixed prefix followed by the titles joined with "; "; no titles, no suffix. */
  lemma PromptShape(titles: seq<string>)
    ensures StartsWith(Prompt(titles), PromptPrefix)
    ensures titles == [] ==> Prompt(titles) == PromptPrefix
    ensures |titles| == 1 ==> Prompt(titles) == PromptPrefix + titles[0]
    ensures |titles| >= 2 ==> Prompt(titles) == PromptPrefix + titles[0] + "; " + Join(titles[1..], "; ")
  {
  }

  lemma {:induction false} ElementTitlesFacts(xs: seq<Json>)
    ensures ElementTitles(xs).Err? <==> JNull in xs
    ensures ElementTitles(xs).Ok? ==>
              |ElementTitles(xs).value| == |xs|
              && forall i :: 0 <= i < |xs| ==> ElementTitle(xs[i]) == Ok(ElementTitles(xs).value[i])
    decreases |xs|
  {
    if xs != [] {
      var init := xs[..|xs| - 1];
      ElementTitlesFacts(init);
      assert xs == init + [xs[|xs| - 1]];
    }
  }

  /**
   * At most six titles, taken in order from the first results; a missing or null title is "".
   * A failed search, a missing `results` and a non-object input give no titles.
   */
  lemma TitlesFacts(input: Input, reply: FetchReply)
    ensures Titles(input, reply).Ok? ==> |Titles(input, reply).value| <= 6
    ensures input.QueryInput? && SearchOutcome(input.query, reply).Ok? ==>
              var items := SearchOutcome(input.query, reply).value;
              forall i :: 0 <= i < |Titles(input, reply).value| ==>
                Titles(input, reply).value[i] == TitleText(items[i].title)
    ensures input.QueryInput? && SearchOutcome(input.query, reply).Err? ==> Titles(input, reply) == Ok([])
    ensures input.ObjectInput? && (input.results == None || input.results == Some(JNull)) ==> Titles(input, reply) == Ok([])
    ensures input.OtherInput? ==> Titles(input, reply) == Ok([])
    ensures input.ObjectInput? && input.results.Some? && input.results.value.JArr? && Titles(input, reply).Ok? ==>
              var xs := input.results.value.items;
              forall i :: 0 <= i < |Titles(input, reply).value| ==>
                i < |xs| && ElementTitle(xs[i]) == Ok(Titles(input, reply).value[i])
    ensures input.ObjectInput? && input.results.Some? && input.results.value.JArr? ==>
              var xs := input.results.value.items;
              && (Titles(input, reply).Err? <==> JNull in Take(xs, 6))
              && (Titles(input, reply).Ok? ==> |Titles(input, reply).value| == |Take(xs, 6)|)
  {
    if input.ObjectInput? && input.results.Some? && input.results.value.JArr? {
      var xs := input.results.value.items;
      ElementTitlesFacts(Take(xs, 6));
    }
  }

  /** The completion's text is returned as it is; a throw of the completion is the result's error. */
  lemma ReplyUnchanged(input: Input, reply: FetchReply, ai: string -> AiReply)
    requires Titles(input, reply).Ok?
    ensures var prompt := Prompt(Titles(input, reply).value);
      && (ai(prompt).AiText? ==> SearchToAi(input, reply, ai) == Ok(ai(prompt).text))
      && (ai(prompt).AiThrew? ==> SearchToAi(input, reply, ai) == Err(ai(prompt).message))
  {
  }
}
