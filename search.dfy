/**
 * `getSearchResults`: a DuckDuckGo instant-answer record flattened into an ordered list of search
 * results. The record is the JSON value `fetchWithCache` resolved to; null elements of the arrays
 * make the property reads throw, which the function turns into an error.
 */
module Search {
  import opened Common
  import opened JsStr
  import opened Json

  /** What `fetchWithCache` resolves to: the parsed body (None is undefined) and an error message. */
  datatype FetchReply = FetchReply(data: Option<Json>, error: Option<string>)

  /** One search result; None is an absent (undefined) field. */
  datatype SearchResult = SearchResult(title: Json, url: Option<Json>, snippet: Option<Json>, icon: Option<Json>)

  /** The message of the TypeError thrown by reading property `prop` of null. */
  function NullRead(prop: string): string {
    "Cannot read properties of null (reading '" + prop + "')"
  }

  /** `a || b` on values that may be undefined. */
  function Or(a: Option<Json>, b: Option<Json>): (r: Option<Json>)
    ensures Truthy(a) ==> r == a
    ensures !Truthy(a) ==> r == b
  {
    if Truthy(a) then a else b
  }

  /** `a || undefined`: falsy values become absent. */
  function OrUndefined(a: Option<Json>): (r: Option<Json>)
    ensures r.Some? <==> Truthy(a)
    ensures r.Some? ==> r == a
  {
    if Truthy(a) then a else None
  }

  /** `a || query`: the last link of every title chain. */
  function OrQuery(a: Option<Json>, query: string): (r: Json)
    ensures query != "" ==> TruthyJson(r)
    ensures Truthy(a) ==> r == a.value
  {
    if Truthy(a) then a.value else JStr(query)
  }

  /** An array-valued field, or no elements where `Array.isArray` is false. */
  function ArrayField(d: Json, key: string): seq<Json> {
    match Get(d, key)
    case Some(JArr(xs)) => xs
    case _ => []
  }

  predicate IsArrayField(d: Json, key: string) {
    Get(d, key).Some? && Get(d, key).value.JArr?
  }

  /** The abstract item, present when `AbstractText` is truthy. */
  function AbstractItems(query: string, d: Json): seq<SearchResult> {
    var text := Get(d, "AbstractText");
    if Truthy(text) then
      [SearchResult(OrQuery(Get(d, "Heading"), query), OrUndefined(Get(d, "AbstractURL")), text,
                    OrUndefined(Get(d, "Image")))]
    else []
  }

  /** The item of one `Results` entry. */
  function ResultItem(query: string, r: Json): SearchResult {
    SearchResult(OrQuery(Or(Get(r, "Text"), Or(Get(r, "Result"), Get(r, "Name"))), query),
                 OrUndefined(Or(Get(r, "FirstURL"), Get(r, "Url"))), OrUndefined(Get(r, "Text")), None)
  }

  /** The item of one topic or sub-topic. */
  function TopicItem(query: string, t: Json): SearchResult {
    SearchResult(OrQuery(Or(Get(t, "Text"), Get(t, "Name")), query),
                 OrUndefined(Get(t, "FirstURL")), OrUndefined(Get(t, "Text")), None)
  }

  /** The items of the `Results` entries, in order; the first null entry throws. */
  function ResultItems(query: string, rs: seq<Json>): Result<seq<SearchResult>, string>
    decreases |rs|
  {
    if rs == [] then Ok([])
    else match ResultItems(query, rs[..|rs| - 1])
      case Err(e) => Err(e)
      case Ok(items) =>
        if rs[|rs| - 1] == JNull then Err(NullRead("Text")) else Ok(items + [ResultItem(query, rs[|rs| - 1])])
  }

  /** The items of the sub-topics of one group, in order; a null sub-topic throws. */
  function SubItems(query: string, subs: seq<Json>): Result<seq<SearchResult>, string>
    decreases |subs|
  {
    if subs == [] then Ok([])
    else match SubItems(query, subs[..|subs| - 1])
      case Err(e) => Err(e)
      case Ok(items) =>
        if subs[|subs| - 1] == JNull then Err(NullRead("Text")) else Ok(items + [TopicItem(query, subs[|subs| - 1])])
  }

  /** What one related topic contributes: its sub-topics when `Topics` is an array, else itself. */
  function TopicItems(query: string, t: Json): Result<seq<SearchResult>, string> {
    if t == JNull then Err(NullRead("Topics"))
    else if IsArrayField(t, "Topics") then SubItems(query, ArrayField(t, "Topics"))
    else Ok([TopicItem(query, t)])
  }

  /** The items of the related topics, flattened one level, in order. */
  function RelatedItems(query: string, ts: seq<Json>): Result<seq<SearchResult>, string>
    decreases |ts|
  {
    if ts == [] then Ok([])
    else match RelatedItems(query, ts[..|ts| - 1])
      case Err(e) => Err(e)
      case Ok(items) =>
        match TopicItems(query, ts[|ts| - 1])
        case Err(e) => Err(e)
        case Ok(more) => Ok(items + more)
  }

  /** The whole list: abstract, then results, then related topics. */
  function Items(query: string, d: Json): Result<seq<SearchResult>, string> {
    match ResultItems(query, ArrayField(d, "Results"))
    case Err(e) => Err(e)
    case Ok(results) =>
      match RelatedItems(query, ArrayField(d, "RelatedTopics"))
      case Err(e) => Err(e)
      case Ok(related) => Ok(AbstractItems(query, d) + results + related)
  }

  /** What `getSearchResults(query)` resolves to, given the reply of its one fetch. */
  function SearchOutcome(query: string, reply: FetchReply): Result<seq<SearchResult>, string> {
    if query == "" then Err("Query must be a non-empty string")
    else if reply.error.Some? && reply.error.value != "" then Err(reply.error.value)
    else if !Truthy(reply.data) then Err("No data returned from DuckDuckGo")
    else Items(query, reply.data.value)
  }

  /** A failed prefix fails the whole list with the same error. */
  lemma {:induction false} ResultItemsErrStays(query: string, rs: seq<Json>, i: nat)
    requires i <= |rs| && ResultItems(query, rs[..i]).Err?
    ensures ResultItems(query, rs) == ResultItems(query, rs[..i])
    decreases |rs| - i
  {
    if i < |rs| {
      assert rs[..i + 1][..i] == rs[..i];
      ResultItemsErrStays(query, rs, i + 1);
    } else {
      assert rs[..i] == rs;
    }
  }

  lemma {:induction false} SubItemsErrStays(query: string, subs: seq<Json>, i: nat)
    requires i <= |subs| && SubItems(query, subs[..i]).Err?
    ensures SubItems(query, subs) == SubItems(query, subs[..i])
    decreases |subs| - i
  {
    if i < |subs| {
      assert subs[..i + 1][..i] == subs[..i];
      SubItemsErrStays(query, subs, i + 1);
    } else {
      assert subs[..i] == subs;
    }
  }

  lemma {:induction false} RelatedItemsErrStays(query: string, ts: seq<Json>, i: nat)
    requires i <= |ts| && RelatedItems(query, ts[..i]).Err?
    ensures RelatedItems(query, ts) == RelatedItems(query, ts[..i])
    decreases |ts| - i
  {
    if i < |ts| {
      assert ts[..i + 1][..i] == ts[..i];
      RelatedItemsErrStays(query, ts, i + 1);
    } else {
      assert ts[..i] == ts;
    }
  }

  /** `items` followed by the items of `more`, or the error of `more`. */
  function Extend(items: seq<SearchResult>, more: Result<seq<SearchResult>, string>): Result<seq<SearchResult>, string> {
    match more
    case Ok(xs) => Ok(items + xs)
    case Err(e) => Err(e)
  }

  /** The loop over `Results`: one push per entry onto `items`. */
  method PushResults(query: string, rs: seq<Json>, items0: seq<SearchResult>) returns (r: Result<seq<SearchResult>, string>)
    ensures r == Extend(items0, ResultItems(query, rs))
  {
    var items := items0;
    for i := 0 to |rs|
      invariant ResultItems(query, rs[..i]).Ok?
      invariant items == items0 + ResultItems(query, rs[..i]).value
    {
      assert rs[..i + 1][..i] == rs[..i];
      if rs[i] == JNull {
        ResultItemsErrStays(query, rs, i + 1);
        return Err(NullRead("Text"));
      }
      items := items + [ResultItem(query, rs[i])];
    }
    assert rs[..|rs|] == rs;
    r := Ok(items);
  }

  /** The inner loop over the `Topics` of one group. */
  method PushSubTopics(query: string, subs: seq<Json>, items0: seq<SearchResult>) returns (r: Result<seq<SearchResult>, string>)
    ensures r == Extend(items0, SubItems(query, subs))
  {
    var items := items0;
    for k := 0 to |subs|
      invariant SubItems(query, subs[..k]).Ok?
      invariant items == items0 + SubItems(query, subs[..k]).value
    {
      assert subs[..k + 1][..k] == subs[..k];
      if subs[k] == JNull {
        SubItemsErrStays(query, subs, k + 1);
        return Err(NullRead("Text"));
      }
      items := items + [TopicItem(query, subs[k])];
    }
    assert subs[..|subs|] == subs;
    r := Ok(items);
  }

  /** The loop over `RelatedTopics`: a group pushes its sub-topics, any other topic itself. */
  method PushTopics(query: string, ts: seq<Json>, items0: seq<SearchResult>) returns (r: Result<seq<SearchResult>, string>)
    ensures r == Extend(items0, RelatedItems(query, ts))
  {
    var items := items0;
    for j := 0 to |ts|
      invariant RelatedItems(query, ts[..j]).Ok?
      invariant items == items0 + RelatedItems(query, ts[..j]).value
    {
      assert ts[..j + 1][..j] == ts[..j];
      var t := ts[j];
      if t == JNull {
        RelatedItemsErrStays(query, ts, j + 1);
        return Err(NullRead("Topics"));
      }
      if IsArrayField(t, "Topics") {
        var pushed := PushSubTopics(query, ArrayField(t, "Topics"), items);
        if pushed.Err? {
          RelatedItemsErrStays(query, ts, j + 1);
          return pushed;
        }
        items := pushed.value;
      } else {
        items := items + [TopicItem(query, t)];
      }
    }
    assert ts[..|ts|] == ts;
    r := Ok(items);
  }

  /** `getSearchResults`: the guards, then the item list built by pushes in three loops. */
  method GetSearchResults(query: string, reply: FetchReply) returns (r: Result<seq<SearchResult>, string>)
    ensures r == SearchOutcome(query, reply)
  {
    if query == "" {
      return Err("Query must be a non-empty string");
    }
    if reply.error.Some? && reply.error.value != "" {
      return Err(reply.error.value);
    }
    if !Truthy(reply.data) {
      return Err("No data returned from DuckDuckGo");
    }
    var data := reply.data.value;
    var items: seq<SearchResult> := [];
    var abstractText := Get(data, "AbstractText");
    if Truthy(abstractText) {
      items := items + [SearchResult(OrQuery(Get(data, "Heading"), query), OrUndefined(Get(data, "AbstractURL")),
                                     abstractText, OrUndefined(Get(data, "Image")))];
    }
    assert items == AbstractItems(query, data);
    r := PushResults(query, ArrayField(data, "Results"), items);
    if r.Ok? {
      r := PushTopics(query, ArrayField(data, "RelatedTopics"), r.value);
    }
  }

  // ----- Properties of the flattening -----

  /** How many items the related topics give: a group gives one per sub-topic, any other topic one. */
  function TopicCount(ts: seq<Json>): nat
    decreases |ts|
  {
    if ts == [] then 0
    else
      var t := ts[|ts| - 1];
      TopicCount(ts[..|ts| - 1]) + (if IsArrayField(t, "Topics") then |ArrayField(t, "Topics")| else 1)
  }

  /** The results fail exactly when an entry is null, and otherwise give one item per entry, in order. */
  lemma {:induction false} ResultItemsFacts(query: string, rs: seq<Json>)
    ensures ResultItems(query, rs).Err? <==> JNull in rs
    ensures ResultItems(query, rs).Err? ==> ResultItems(query, rs).error == NullRead("Text")
    ensures ResultItems(query, rs).Ok? ==>
              var items := ResultItems(query, rs).value;
              |items| == |rs| && forall i :: 0 <= i < |rs| ==> items[i] == ResultItem(query, rs[i])
    decreases |rs|
  {
    if rs != [] {
      var init := rs[..|rs| - 1];
      ResultItemsFacts(query, init);
      assert rs == init + [rs[|rs| - 1]];
    }
  }

  lemma {:induction false} SubItemsFacts(query: string, subs: seq<Json>)
    ensures SubItems(query, subs).Err? <==> JNull in subs
    ensures SubItems(query, subs).Err? ==> SubItems(query, subs).error == NullRead("Text")
    ensures SubItems(query, subs).Ok? ==>
              var items := SubItems(query, subs).value;
              |items| == |subs| && forall i :: 0 <= i < |subs| ==> items[i] == TopicItem(query, subs[i])
    decreases |subs|
  {
    if subs != [] {
      var init := subs[..|subs| - 1];
      SubItemsFacts(query, init);
      assert subs == init + [subs[|subs| - 1]];
    }
  }

  /** Flattening the related topics gives `TopicCount` items. */
  lemma {:induction false} RelatedItemsCount(query: string, ts: seq<Json>)
    requires RelatedItems(query, ts).Ok?
    ensures |RelatedItems(query, ts).value| == TopicCount(ts)
    decreases |ts|
  {
    if ts != [] {
      var t := ts[|ts| - 1];
      RelatedItemsCount(query, ts[..|ts| - 1]);
      if t != JNull && IsArrayField(t, "Topics") {
        SubItemsFacts(query, ArrayField(t, "Topics"));
      }
    }
  }

  /**
   * The item count is one for a truthy abstract, plus one per `Results` entry, plus the
   * flattened topic count.
   */
  lemma ItemCount(query: string, d: Json)
    requires Items(query, d).Ok?
    ensures |Items(query, d).value| ==
              (if Truthy(Get(d, "AbstractText")) then 1 else 0)
              + |ArrayField(d, "Results")| + TopicCount(ArrayField(d, "RelatedTopics"))
  {
    ResultItemsFacts(query, ArrayField(d, "Results"));
    RelatedItemsCount(query, ArrayField(d, "RelatedTopics"));
  }

  /** The abstract item comes first, titled `Heading || query`, linked to `AbstractURL`. */
  lemma AbstractFirst(query: string, d: Json)
    requires Items(query, d).Ok? && Truthy(Get(d, "AbstractText"))
    ensures var items := Items(query, d).value;
      && |items| > 0
      && items[0].title == OrQuery(Get(d, "Heading"), query)
      && items[0].url == OrUndefined(Get(d, "AbstractURL"))
      && items[0].snippet == Get(d, "AbstractText")
  {
  }

  /** The `Results` entries follow the abstract, one item each, in order. */
  lemma ResultsInOrder(query: string, d: Json)
    requires Items(query, d).Ok?
    ensures var items := Items(query, d).value;
      var offset := if Truthy(Get(d, "AbstractText")) then 1 else 0;
      var rs := ArrayField(d, "Results");
      && |items| >= offset + |rs|
      && forall i :: 0 <= i < |rs| ==> items[offset + i] == ResultItem(query, rs[i])
  {
    ResultItemsFacts(query, ArrayField(d, "Results"));
  }

  predicate TitlesTruthy(items: seq<SearchResult>) {
    forall i :: 0 <= i < |items| ==> TruthyJson(items[i].title)
  }

  lemma {:induction false} SubItemsTitles(query: string, subs: seq<Json>)
    requires query != "" && SubItems(query, subs).Ok?
    ensures TitlesTruthy(SubItems(query, subs).value)
  {
    SubItemsFacts(query, subs);
  }

  lemma {:induction false} RelatedItemsTitles(query: string, ts: seq<Json>)
    requires query != "" && RelatedItems(query, ts).Ok?
    ensures TitlesTruthy(RelatedItems(query, ts).value)
    decreases |ts|
  {
    if ts != [] {
      var t := ts[|ts| - 1];
      RelatedItemsTitles(query, ts[..|ts| - 1]);
      if IsArrayField(t, "Topics") {
        SubItemsTitles(query, ArrayField(t, "Topics"));
      }
    }
  }

  /** Every title is truthy: a non-empty query ends every fallback chain. */
  lemma TitlesNonEmpty(query: string, reply: FetchReply)
    requires SearchOutcome(query, reply).Ok?
    ensures TitlesTruthy(SearchOutcome(query, reply).value)
    ensures forall i :: 0 <= i < |SearchOutcome(query, reply).value| ==>
              var t := SearchOutcome(query, reply).value[i].title;
              t.JStr? ==> t.s != ""
  {
    var d := reply.data.value;
    ResultItemsFacts(query, ArrayField(d, "Results"));
    RelatedItemsTitles(query, ArrayField(d, "RelatedTopics"));
    var items := SearchOutcome(query, reply).value;
    var a := AbstractItems(query, d);
    var rs := ResultItems(query, ArrayField(d, "Results")).value;
    var ts := RelatedItems(query, ArrayField(d, "RelatedTopics")).value;
    assert items == a + rs + ts;
    forall i | 0 <= i < |items| ensures TruthyJson(items[i].title) {
      if i < |a| {
      } else if i < |a| + |rs| {
        assert items[i] == rs[i - |a|];
      } else {
        assert items[i] == ts[i - |a| - |rs|];
      }
    }
  }

  /** The guards: an empty query, a fetch error and missing data each give their error. */
  lemma SearchGuards(query: string, reply: FetchReply)
    ensures query == "" ==> SearchOutcome(query, reply) == Err("Query must be a non-empty string")
    ensures query != "" && reply.error.Some? && reply.error.value != "" ==>
              SearchOutcome(query, reply) == Err(reply.error.value)
    ensures query != "" && (reply.error.None? || reply.error.value == "") && !Truthy(reply.data) ==>
              SearchOutcome(query, reply) == Err("No data returned from DuckDuckGo")
  {
  }
}
