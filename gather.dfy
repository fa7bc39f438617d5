/**
 * `gatherInfo(prompt, options)`: search the web, download the top pages that are not stored yet,
 * rank the stored documents, put the fresh downloads first, read the top three and ask the model
 * for an answer. The downloads run one after another here.
 */
module Gather {
  import opened Common
  import opened JsStr
  import opened Json
  import opened UrlKey
  import opened FileStore
  import opened Scrape
  import opened WebDownload
  import opened Search
  import opened Ranking
  import opened Retrieve

  /** `options`: `maxSearchResults`, `maxDocsToDownload` (None when undefined) and `force`. */
  datatype GatherOptions = GatherOptions(maxSearchResults: Option<int>, maxDocsToDownload: Option<int>, force: bool)

  /**
   * What the outside world answers: the search backend, the page fetched for each URL, the
   * Markdown conversion, the file-system faults of each download, what `readdir` of `docs` returns
   * for the files stored at that moment, the completion and `JSON.parse`.
   */
  datatype Env = Env(
    search: FetchReply,
    pages: string -> PageFetch,
    convert: string -> Result<string, string>,
    faults: string -> IoFault,
    readdir: map<Key, string> -> Option<seq<DirEntry>>,
    ai: string -> AiReply,
    parse: string -> Option<Json>)

  /** One element of `downloads`: `{url, path, skipped}`, `{url, path, rawPath}` or `{url, error}`. */
  datatype DownloadEntry = DownloadEntry(url: string, path: Option<string>, rawPath: Option<string>,
                                         error: Option<string>, skipped: bool)

  /** One element of `filesWithContent`. */
  datatype FileExcerpt = FileExcerpt(filename: string, content: string, score: int)

  /** The object `gatherInfo` resolves to when it does not fail. */
  datatype Output = Output(query: string, searchResults: seq<SearchResult>, downloads: seq<DownloadEntry>,
                           retrieved: seq<RetrievedFile>, answer: string)

  const MaxChars := 150000

  // URL selection

  /** `search?.results ?? []`. */
  function SearchItems(prompt: string, reply: FetchReply): seq<SearchResult> {
    match SearchOutcome(prompt, reply)
    case Ok(items) => items
    case Err(_) => []
  }

  /** `items.map(r => r.url).filter(Boolean).map(String)`. */
  function UrlsOf(items: seq<SearchResult>): (r: seq<string>)
    ensures |r| <= |items|
    decreases |items|
  {
    if items == [] then []
    else (if Truthy(items[0].url) then [ToStr(items[0].url.value)] else []) + UrlsOf(items[1..])
  }

  /** `Array.from(new Set(xs))`: the first occurrence of each element, in order. */
  function Distinct(xs: seq<string>): seq<string>
    decreases |xs|
  {
    if xs == [] then []
    else
      var d := Distinct(xs[..|xs| - 1]);
      if xs[|xs| - 1] in d then d else d + [xs[|xs| - 1]]
  }

  /** `urls`: the distinct URLs, at most `maxSearch` of them. */
  function SelectUrls(items: seq<SearchResult>, maxSearch: int): seq<string> {
    Take(Distinct(UrlsOf(items)), maxSearch)
  }

  function MaxSearch(opts: GatherOptions): int {
    opts.maxSearchResults.GetOr(6)
  }

  function MaxDownload(opts: GatherOptions): int {
    opts.maxDocsToDownload.GetOr(3)
  }

  /** `toDownload`: the first `maxDownload` of `urls`. */
  function ToDownload(prompt: string, opts: GatherOptions, env: Env): seq<string> {
    Take(SelectUrls(SearchItems(prompt, env.search), MaxSearch(opts)), MaxDownload(opts))
  }

  // Downloads

  /** Whether the download task for `url` finds its Markdown file stored and skips the download. */
  predicate Skips(files: map<Key, string>, url: string, force: bool) {
    !force && (DocsFolder, MdName(url)) in files
  }

  /** What the scrape inside `webdownloadPage(url, { folder: "docs", maxChars: 150000 })` returns. */
  function Scraped(url: string, env: Env): Result<string, string> {
    ScrapeWebpage(url, Some(MaxChars), env.pages(url))
  }

  /** `{ url, ...result }`. */
  function EntryOf(url: string, d: Download): DownloadEntry {
    match d
    case Saved(path, rawPath) => DownloadEntry(url, Some(path), Some(rawPath), None, false)
    case Failed(error) => DownloadEntry(url, None, None, Some(error), false)
  }

  /** The entry the download task for `url` pushes, given the files stored when it runs. */
  function StepEntry(files: map<Key, string>, url: string, force: bool, env: Env): DownloadEntry {
    if Skips(files, url, force) then DownloadEntry(url, Some("docs/" + MdName(url)), None, None, true)
    else EntryOf(url, DownloadOutcome(url, Some(DocsFolder), Scraped(url, env), env.convert, env.faults(url)))
  }

  /** The files after the download task for `url`. */
  function StepFiles(files: map<Key, string>, url: string, force: bool, env: Env): map<Key, string> {
    if Skips(files, url, force) then files
    else ApplyWrites(files, Written(url, Some(DocsFolder), Scraped(url, env), env.convert, env.faults(url)))
  }

  /** The files after the download tasks for `urls`, in order. */
  function FilesAfter(files: map<Key, string>, urls: seq<string>, force: bool, env: Env): map<Key, string>
    decreases |urls|
  {
    if urls == [] then files
    else StepFiles(FilesAfter(files, urls[..|urls| - 1], force, env), urls[|urls| - 1], force, env)
  }

  /** The `downloads` array after the download tasks for `urls`, in order. */
  function Entries(files: map<Key, string>, urls: seq<string>, force: bool, env: Env): (r: seq<DownloadEntry>)
    ensures |r| == |urls|
    decreases |urls|
  {
    if urls == [] then []
    else
      var init := urls[..|urls| - 1];
      Entries(files, init, force, env) + [StepEntry(FilesAfter(files, init, force, env), urls[|urls| - 1], force, env)]
  }

  /** The download tasks, run one after another against the store. */
  method DownloadAll(store: Store, urls: seq<string>, force: bool, env: Env) returns (downloads: seq<DownloadEntry>)
    modifies store
    ensures downloads == Entries(old(store.files), urls, force, env)
    ensures store.files == FilesAfter(old(store.files), urls, force, env)
  {
    downloads := [];
    for i := 0 to |urls|
      invariant downloads == Entries(old(store.files), urls[..i], force, env)
      invariant store.files == FilesAfter(old(store.files), urls[..i], force, env)
    {
      var url := urls[i];
      EntriesStep(old(store.files), urls, force, env, i);
      FilesAfterStep(old(store.files), urls, force, env, i);
      var expectedFilename := MdName(url);
      if !force && store.Exists(DocsFolder, expectedFilename) {
        downloads := downloads + [DownloadEntry(url, Some("docs/" + expectedFilename), None, None, true)];
      } else {
        var result := WebdownloadPage(store, url, Some(MaxChars), Some(DocsFolder), env.pages(url), env.convert, env.faults(url));
        downloads := downloads + [EntryOf(url, result)];
      }
    }
    assert urls[..|urls|] == urls;
  }

  // Freshness boost

  /** `downloads.filter(d => d.path).map(d => String(d.path).replace(/^docs\//, ""))`. */
  function DownloadedNames(downloads: seq<DownloadEntry>): seq<string>
    decreases |downloads|
  {
    if downloads == [] then []
    else
      var d := downloads[0];
      (if d.path.Some? && d.path.value != "" then [StripDocs(d.path.value)] else []) + DownloadedNames(downloads[1..])
  }

  function StripDocs(path: string): string {
    if StartsWith(path, "docs/") then path[5..] else path
  }

  /** The entry put in front for a fresh download. */
  function NewEntry(filename: string): RetrievedFile {
    RetrievedFile(filename, 100, true, "Newly scraped document", "Newly scraped from search results")
  }

  /** `new Set(retrieved.map(r => r.filename))`. */
  function Filenames(rs: seq<RetrievedFile>): set<string> {
    set i | 0 <= i < |rs| :: rs[i].filename
  }

  /** The names not yet ranked, in loop order. */
  function Fresh(names: seq<string>, existing: set<string>): seq<string>
    decreases |names|
  {
    if names == [] then []
    else
      var f := Fresh(names[..|names| - 1], existing);
      if names[|names| - 1] in existing then f else f + [names[|names| - 1]]
  }

  /** What the `unshift` loop over `names` puts in front of the ranking. */
  function Prepended(names: seq<string>, existing: set<string>): seq<RetrievedFile>
    decreases |names|
  {
    if names == [] then []
    else
      var p := Prepended(names[..|names| - 1], existing);
      if names[|names| - 1] in existing then p else [NewEntry(names[|names| - 1])] + p
  }

  /** The `unshift` loop. */
  method Boost(retrieved: seq<RetrievedFile>, names: seq<string>) returns (r: seq<RetrievedFile>)
    ensures r == Prepended(names, Filenames(retrieved)) + retrieved
  {
    var existing := Filenames(retrieved);
    r := retrieved;
    for i := 0 to |names|
      invariant r == Prepended(names[..i], existing) + retrieved
    {
      assert names[..i + 1][..i] == names[..i];
      if names[i] !in existing {
        r := [NewEntry(names[i])] + r;
      }
    }
    assert names[..|names|] == names;
  }

  // Context

  /** `filesWithContent`: the readable files among `top`, each cut to 20000 characters. */
  function Excerpts(files: map<Key, string>, top: seq<RetrievedFile>): seq<FileExcerpt>
    decreases |top|
  {
    if top == [] then []
    else
      var init, f := Excerpts(files, top[..|top| - 1]), top[|top| - 1];
      if (DocsFolder, f.filename) in files
      then init + [FileExcerpt(f.filename, Take(files[(DocsFolder, f.filename)], 20000), f.score)]
      else init
  }

  /** The loop reading the top files; an unreadable file is skipped. */
  method ReadTop(store: Store, top: seq<RetrievedFile>) returns (fs: seq<FileExcerpt>)
    ensures fs == Excerpts(store.files, top)
  {
    fs := [];
    for i := 0 to |top|
      invariant fs == Excerpts(store.files, top[..i])
    {
      assert top[..i + 1][..i] == top[..i];
      var f := top[i];
      var content := store.Read(DocsFolder, f.filename);
      if content.Some? {
        fs := fs + [FileExcerpt(f.filename, Take(content.value, 20000), f.score)];
      }
    }
    assert top[..|top|] == top;
  }

  // The answer prompt

  /** `s.replace(/\s+/g, " ")`: each run of white space becomes one space. */
  function CollapseWs(s: string): string
    decreases |s|
  {
    if s == [] then []
    else if IsSpace(s[0]) then (if |s| > 1 && IsSpace(s[1]) then [] else " ") + CollapseWs(s[1..])
    else [s[0]] + CollapseWs(s[1..])
  }

  /** `- ${d.url} -> ${d.path ?? d.error ?? "(failed)"}`. */
  function DownloadLine(d: DownloadEntry): string {
    "- " + d.url + " -> " + (if d.path.Some? then d.path.value else if d.error.Some? then d.error.value else "(failed)")
  }

  function DownloadsSection(downloads: seq<DownloadEntry>): string {
    "\nDownloaded URLs (top results):\n"
    + Join(seq(|downloads|, i requires 0 <= i < |downloads| => DownloadLine(downloads[i])), "\n") + "\n"
  }

  const DocumentsHeader := "\nRelevant documents (filename + excerpt):\n"
  const Instruction := "\nPlease answer the user's query concisely and list which of the documents (by filename) were used as sources. Provide short citations."

  /** One document of the prompt: a header with name and score, then the collapsed excerpt, cut to 1000 characters. */
  function DocPart(f: FileExcerpt): string {
    "== " + f.filename + " (score: " + IntToString(f.score) + ") ==" + "\n" + Take(CollapseWs(f.content), 1000) + "\n"
  }

  function DocParts(fs: seq<FileExcerpt>): (r: seq<string>)
    ensures |r| == |fs|
    decreases |fs|
  {
    if fs == [] then [] else DocParts(fs[..|fs| - 1]) + [DocPart(fs[|fs| - 1])]
  }

  /** The first parts: the query, then the downloads section when there were downloads. */
  function HeadParts(prompt: string, downloads: seq<DownloadEntry>): seq<string> {
    ["User query: " + prompt] + (if downloads != [] then [DownloadsSection(downloads)] else [])
  }

  /** The documents section: a header and one part per readable file, or nothing. */
  function DocSection(fs: seq<FileExcerpt>): seq<string> {
    if fs != [] then [DocumentsHeader] + DocParts(fs) else []
  }

  /** `promptParts`. */
  function PromptParts(prompt: string, downloads: seq<DownloadEntry>, fs: seq<FileExcerpt>): seq<string> {
    HeadParts(prompt, downloads) + DocSection(fs) + [Instruction]
  }

  /** The pushes that fill `promptParts`, and the join. */
  method BuildPrompt(prompt: string, downloads: seq<DownloadEntry>, fs: seq<FileExcerpt>) returns (full: string)
    ensures full == Join(PromptParts(prompt, downloads, fs), "\n---\n")
  {
    var parts := ["User query: " + prompt];
    if downloads != [] {
      parts := parts + [DownloadsSection(downloads)];
    }
    assert parts == HeadParts(prompt, downloads);
    parts := PushDocs(parts, fs);
    parts := parts + [Instruction];
    full := Join(parts, "\n---\n");
  }

  /** The documents section pushed after `parts0`. */
  method PushDocs(parts0: seq<string>, fs: seq<FileExcerpt>) returns (parts: seq<string>)
    ensures parts == parts0 + DocSection(fs)
  {
    parts := parts0;
    if fs != [] {
      parts := PushEach(parts + [DocumentsHeader], fs);
    }
  }

  /** The loop pushing one part per readable file. */
  method PushEach(parts0: seq<string>, fs: seq<FileExcerpt>) returns (parts: seq<string>)
    ensures parts == parts0 + DocParts(fs)
  {
    parts := parts0;
    for i := 0 to |fs|
      invariant parts == parts0 + DocParts(fs[..i])
    {
      assert fs[..i + 1][..i] == fs[..i];
      parts := parts + [DocPart(fs[i])];
    }
    assert fs[..|fs|] == fs;
  }

  // The whole workflow

  /** The ranking after the downloads, with the fresh downloads in front. */
  function Boosted(prompt: string, env: Env, after: map<Key, string>, downloads: seq<DownloadEntry>): seq<RetrievedFile> {
    var retrieved := RetrieveSavedInfo(prompt, RankOptions(None, Some(8)), env.readdir(after), after, env.ai, env.parse);
    Prepended(DownloadedNames(downloads), Filenames(retrieved)) + retrieved
  }

  /** The answer prompt built from the downloads and the store after them. */
  function AnswerPrompt(prompt: string, env: Env, after: map<Key, string>, downloads: seq<DownloadEntry>): string {
    var fs := Excerpts(after, Take(Boosted(prompt, env, after, downloads), 3));
    Join(PromptParts(prompt, downloads, fs), "\n---\n")
  }

  /** What `gatherInfo` resolves to once the downloads are done. */
  function Finish(prompt: string, opts: GatherOptions, env: Env, after: map<Key, string>,
                  downloads: seq<DownloadEntry>): Result<Output, string>
  {
    match env.ai(AnswerPrompt(prompt, env, after, downloads))
    case AiThrew(m) => Err(m)
    case AiText(answer) =>
      Ok(Output(prompt, Take(SearchItems(prompt, env.search), MaxSearch(opts)), downloads,
                Boosted(prompt, env, after, downloads), answer))
  }

  /** `gatherInfo(prompt, options)` from the files stored before the call. */
  function GatherOutcome(files: map<Key, string>, prompt: string, opts: GatherOptions, env: Env): Result<Output, string> {
    if prompt == "" then Err("prompt must be a non-empty string")
    else
      var urls := ToDownload(prompt, opts, env);
      Finish(prompt, opts, env, FilesAfter(files, urls, opts.force, env), Entries(files, urls, opts.force, env))
  }

  /** `gatherInfo` run against the store. */
  method GatherInfo(store: Store, prompt: string, opts: GatherOptions, env: Env) returns (r: Result<Output, string>)
    modifies store
    ensures r == GatherOutcome(old(store.files), prompt, opts, env)
    ensures store.files == if prompt == "" then old(store.files)
                           else FilesAfter(old(store.files), ToDownload(prompt, opts, env), opts.force, env)
  {
    if prompt == "" {
      return Err("prompt must be a non-empty string");
    }
    var search := GetSearchResults(prompt, env.search);
    var items := if search.Ok? then search.value else [];
    var maxSearch, maxDownload := MaxSearch(opts), MaxDownload(opts);
    var urls := SelectUrls(items, maxSearch);
    var toDownload := Take(urls, maxDownload);
    assert toDownload == ToDownload(prompt, opts, env);
    var downloads := DownloadAll(store, toDownload, opts.force, env);
    var retrieved := RetrieveSavedInfo(prompt, RankOptions(None, Some(8)), env.readdir(store.files), store.files, env.ai, env.parse);
    retrieved := Boost(retrieved, DownloadedNames(downloads));
    var filesWithContent := ReadTop(store, Take(retrieved, 3));
    var fullPrompt := BuildPrompt(prompt, downloads, filesWithContent);
    assert fullPrompt == AnswerPrompt(prompt, env, store.files, downloads);
    var reply := env.ai(fullPrompt);
    match reply {
      case AiThrew(m) => r := Err(m);
      case AiText(answer) => r := Ok(Output(prompt, Take(items, maxSearch), downloads, retrieved, answer));
    }
  }

  // Properties

  /** The position of the first `x` in `xs`. */
  function FirstIndex(xs: seq<string>, x: string): (r: nat)
    requires x in xs
    ensures r < |xs| && xs[r] == x && x !in xs[..r]
    decreases |xs|
  {
    if xs[0] == x then 0 else 1 + FirstIndex(xs[1..], x)
  }

  lemma {:induction false} FirstIndexSnoc(p: seq<string>, x: string, y: string)
    requires y in p + [x]
    ensures y in p ==> FirstIndex(p + [x], y) == FirstIndex(p, y)
    ensures y !in p ==> FirstIndex(p + [x], y) == |p|
  {
    var i := FirstIndex(p + [x], y);
    forall k | 0 <= k < i ensures (p + [x])[k] != y {
      assert (p + [x])[..i][k] == (p + [x])[k];
    }
    assert forall k :: 0 <= k < |p| ==> (p + [x])[k] == p[k];
    if y in p {
      var j := FirstIndex(p, y);
      forall k | 0 <= k < j ensures p[k] != y {
        assert p[..j][k] == p[k];
      }
      assert (p + [x])[j] == y;
    }
  }

  /**
   * The deduplication keeps exactly the elements of `xs`, each once, in the order of their first
   * occurrence.
   */
  lemma {:induction false} DistinctFacts(xs: seq<string>)
    ensures var d := Distinct(xs);
      && NoDuplicates(d)
      && (forall x :: x in d <==> x in xs)
      && (forall i, j :: 0 <= i < j < |d| ==> FirstIndex(xs, d[i]) < FirstIndex(xs, d[j]))
    decreases |xs|
  {
    if xs != [] {
      var init, x := xs[..|xs| - 1], xs[|xs| - 1];
      assert xs == init + [x];
      DistinctFacts(init);
      var d0 := Distinct(init);
      var d := Distinct(xs);
      forall y | y in d ensures FirstIndex(xs, y) == (if y in init then FirstIndex(init, y) else |init|) {
        FirstIndexSnoc(init, x, y);
      }
      if x !in d0 {
        assert d == d0 + [x];
        forall i, j | 0 <= i < j < |d| ensures FirstIndex(xs, d[i]) < FirstIndex(xs, d[j]) {
          assert d[i] == d0[i] && d0[i] in init;
          if j < |d0| {
            assert d[j] == d0[j];
          }
        }
      }
    }
  }

  lemma {:induction false} UrlsOfFrom(items: seq<SearchResult>, u: string)
    requires u in UrlsOf(items)
    ensures exists j :: 0 <= j < |items| && Truthy(items[j].url) && ToStr(items[j].url.value) == u
    decreases |items|
  {
    if !(Truthy(items[0].url) && ToStr(items[0].url.value) == u) {
      UrlsOfFrom(items[1..], u);
      var j :| 0 <= j < |items[1..]| && Truthy(items[1..][j].url) && ToStr(items[1..][j].url.value) == u;
      assert items[j + 1] == items[1..][j];
    }
  }

  /** Every truthy `url` of an item is among the URLs, as a string. */
  lemma {:induction false} UrlsOfTo(items: seq<SearchResult>, j: int)
    requires 0 <= j < |items| && Truthy(items[j].url)
    ensures ToStr(items[j].url.value) in UrlsOf(items)
    decreases |items|
  {
    if j > 0 {
      UrlsOfTo(items[1..], j - 1);
      assert items[1..][j - 1] == items[j];
    }
  }

  /**
   * `urls` has no duplicates, at most `maxSearch` entries, each the string form of a truthy `url`
   * of a search item, and is a prefix of the distinct URLs in first-seen order; every truthy `url`
   * is among those distinct URLs, so all of them are kept when they fit in `maxSearch`.
   */
  lemma SelectUrlsFacts(items: seq<SearchResult>, maxSearch: int)
    ensures var urls := SelectUrls(items, maxSearch);
      && NoDuplicates(urls)
      && (maxSearch >= 0 ==> |urls| <= maxSearch)
      && urls <= Distinct(UrlsOf(items))
      && (forall u :: u in urls ==> exists j :: 0 <= j < |items| && Truthy(items[j].url) && ToStr(items[j].url.value) == u)
      && (forall j :: 0 <= j < |items| && Truthy(items[j].url) ==> ToStr(items[j].url.value) in Distinct(UrlsOf(items)))
      && (maxSearch >= |Distinct(UrlsOf(items))| ==> urls == Distinct(UrlsOf(items)))
  {
    var d := Distinct(UrlsOf(items));
    DistinctFacts(UrlsOf(items));
    var urls := SelectUrls(items, maxSearch);
    forall u | u in urls ensures exists j :: 0 <= j < |items| && Truthy(items[j].url) && ToStr(items[j].url.value) == u {
      assert u in d;
      UrlsOfFrom(items, u);
    }
    forall i, j | 0 <= i < j < |urls| ensures urls[i] != urls[j] {
      assert urls[i] == d[i] && urls[j] == d[j];
    }
    forall j | 0 <= j < |items| && Truthy(items[j].url) ensures ToStr(items[j].url.value) in d {
      UrlsOfTo(items, j);
    }
  }

  /** `toDownload` has at most `maxDownload` entries, all of them among `urls`, in order. */
  lemma ToDownloadFacts(prompt: string, opts: GatherOptions, env: Env)
    ensures var urls := SelectUrls(SearchItems(prompt, env.search), MaxSearch(opts));
      var todo := ToDownload(prompt, opts, env);
      && todo <= urls
      && NoDuplicates(todo)
      && (MaxDownload(opts) >= 0 ==> |todo| == if MaxDownload(opts) < |urls| then MaxDownload(opts) else |urls|)
  {
    var urls := SelectUrls(SearchItems(prompt, env.search), MaxSearch(opts));
    SelectUrlsFacts(SearchItems(prompt, env.search), MaxSearch(opts));
    var todo := ToDownload(prompt, opts, env);
    forall i, j | 0 <= i < j < |todo| ensures todo[i] != todo[j] {
      assert todo[i] == urls[i] && todo[j] == urls[j];
    }
  }

  /** What the download task for one URL pushes: a skipped entry, the saved paths, or the error. */
  lemma StepEntryFacts(files: map<Key, string>, url: string, force: bool, env: Env)
    ensures var e := StepEntry(files, url, force, env);
      && e.url == url
      && (e.skipped <==> Skips(files, url, force))
      && (e.path.Some? ==> e.path.value == "docs/" + MdName(url))
      && (e.path.Some? <==> e.error.None?)
      && (e.skipped ==> e.rawPath.None?)
      && (!e.skipped && e.path.Some? ==> e.rawPath == Some("docs/" + TxtName(url)))
  {
    if !Skips(files, url, force) {
      OutcomeCases(url, Some(DocsFolder), Scraped(url, env), env.convert, env.faults(url));
      assert FolderOf(Some(DocsFolder)) + "/" == "docs/";
      assert "docs/" + MdName(url) == FolderOf(Some(DocsFolder)) + "/" + MdName(url);
      assert "docs/" + TxtName(url) == FolderOf(Some(DocsFolder)) + "/" + TxtName(url);
    }
  }

  /**
   * One entry per URL, in order: entry `i` is for `urls[i]`; it is skipped exactly when force is
   * off and the Markdown file exists when its turn comes; any path is `docs/<stem>.md`; an entry
   * has either a path or an error.
   */
  lemma EntriesFacts(files: map<Key, string>, urls: seq<string>, force: bool, env: Env)
    ensures var es := Entries(files, urls, force, env);
      forall i :: 0 <= i < |urls| ==>
        && es[i].url == urls[i]
        && (es[i].skipped <==> Skips(FilesAfter(files, urls[..i], force, env), urls[i], force))
        && (es[i].path.Some? ==> es[i].path.value == "docs/" + MdName(urls[i]))
        && (es[i].path.Some? <==> es[i].error.None?)
  {
    var es := Entries(files, urls, force, env);
    forall i | 0 <= i < |urls|
      ensures && es[i].url == urls[i]
              && (es[i].skipped <==> Skips(FilesAfter(files, urls[..i], force, env), urls[i], force))
              && (es[i].path.Some? ==> es[i].path.value == "docs/" + MdName(urls[i]))
              && (es[i].path.Some? <==> es[i].error.None?)
    {
      EntryAt(files, urls, force, env, i);
      StepEntryFacts(FilesAfter(files, urls[..i], force, env), urls[i], force, env);
    }
  }

  /** The last entry is the one pushed by the download task for the last URL. */
  lemma {:induction false} EntriesSnoc(files: map<Key, string>, urls: seq<string>, force: bool, env: Env)
    requires urls != []
    ensures var init := urls[..|urls| - 1];
      Entries(files, urls, force, env)
        == Entries(files, init, force, env) + [StepEntry(FilesAfter(files, init, force, env), urls[|urls| - 1], force, env)]
  {
  }

  /** The entries of the first `i + 1` tasks are those of the first `i`, then the one task `i` pushes. */
  lemma {:induction false} EntriesStep(files: map<Key, string>, urls: seq<string>, force: bool, env: Env, i: int)
    requires 0 <= i < |urls|
    ensures Entries(files, urls[..i + 1], force, env)
      == Entries(files, urls[..i], force, env) + [StepEntry(FilesAfter(files, urls[..i], force, env), urls[i], force, env)]
  {
    var upto := urls[..i + 1];
    assert upto[..|upto| - 1] == urls[..i] && upto[|upto| - 1] == urls[i];
    EntriesSnoc(files, upto, force, env);
  }

  /** The entries of the first `m` tasks are the first `m` entries. */
  lemma {:induction false} EntriesPrefix(files: map<Key, string>, urls: seq<string>, force: bool, env: Env, m: int)
    requires 0 <= m <= |urls|
    ensures Entries(files, urls[..m], force, env) == Entries(files, urls, force, env)[..m]
    decreases |urls|
  {
    if m == |urls| {
      assert urls[..m] == urls;
    } else {
      var init := urls[..|urls| - 1];
      assert init[..m] == urls[..m];
      EntriesPrefix(files, init, force, env, m);
      EntriesSnoc(files, urls, force, env);
    }
  }

  /** Entry `i` is the one pushed by the download task for `urls[i]`, run on the files left by the earlier tasks. */
  lemma {:induction false} EntryAt(files: map<Key, string>, urls: seq<string>, force: bool, env: Env, i: int)
    requires 0 <= i < |urls|
    ensures Entries(files, urls, force, env)[i] == StepEntry(FilesAfter(files, urls[..i], force, env), urls[i], force, env)
  {
    var before := Entries(files, urls[..i], force, env);
    EntriesPrefix(files, urls, force, env, i + 1);
    EntriesStep(files, urls, force, env, i);
    assert |before| == i;
  }

  /** A file present after the first `m` tasks is still there after all of them. */
  lemma {:induction false} FilesGrowFrom(files: map<Key, string>, urls: seq<string>, force: bool, env: Env, m: int, k: Key)
    requires 0 <= m <= |urls| && k in FilesAfter(files, urls[..m], force, env)
    ensures k in FilesAfter(files, urls, force, env)
    decreases |urls|
  {
    if m == |urls| {
      assert urls[..m] == urls;
    } else {
      var init, u := urls[..|urls| - 1], urls[|urls| - 1];
      assert init[..m] == urls[..m];
      FilesGrowFrom(files, init, force, env, m, k);
      var before := FilesAfter(files, init, force, env);
      if !Skips(before, u, force) {
        ApplyWritesKeep(before, Written(u, Some(DocsFolder), Scraped(u, env), env.convert, env.faults(u)), k);
      }
    }
  }

  /** A task whose entry has a path leaves the Markdown file of its URL stored. */
  lemma {:induction false} StepStoresMd(files: map<Key, string>, url: string, force: bool, env: Env)
    requires StepEntry(files, url, force, env).path.Some?
    ensures (DocsFolder, MdName(url)) in StepFiles(files, url, force, env)
  {
    if !Skips(files, url, force) {
      WrittenFiles(files, url, Some(DocsFolder), Scraped(url, env), env.convert, env.faults(url));
    }
  }

  /** The files after the first `i + 1` tasks are those after task `i`, run on the files left before it. */
  lemma {:induction false} FilesAfterStep(files: map<Key, string>, urls: seq<string>, force: bool, env: Env, i: int)
    requires 0 <= i < |urls|
    ensures FilesAfter(files, urls[..i + 1], force, env) == StepFiles(FilesAfter(files, urls[..i], force, env), urls[i], force, env)
  {
    var upto := urls[..i + 1];
    assert upto[..|upto| - 1] == urls[..i] && upto[|upto| - 1] == urls[i];
  }

  /** The Markdown file of every entry with a path is stored once the downloads are done. */
  lemma {:induction false} EntryStored(files: map<Key, string>, urls: seq<string>, force: bool, env: Env, i: int)
    requires 0 <= i < |urls| && Entries(files, urls, force, env)[i].path.Some?
    ensures (DocsFolder, MdName(urls[i])) in FilesAfter(files, urls, force, env)
  {
    var k := (DocsFolder, MdName(urls[i]));
    var before := FilesAfter(files, urls[..i], force, env);
    assert StepEntry(before, urls[i], force, env).path.Some? by {
      EntryAt(files, urls, force, env, i);
    }
    assert k in StepFiles(before, urls[i], force, env) by {
      StepStoresMd(before, urls[i], force, env);
    }
    assert k in FilesAfter(files, urls[..i + 1], force, env) by {
      FilesAfterStep(files, urls, force, env, i);
    }
    FilesGrowFrom(files, urls, force, env, i + 1, k);
  }

  /** The store only gains files while the downloads run. */
  lemma {:induction false} FilesGrow(files: map<Key, string>, urls: seq<string>, force: bool, env: Env, k: Key)
    requires k in files
    ensures k in FilesAfter(files, urls, force, env)
    decreases |urls|
  {
    if urls != [] {
      var init := urls[..|urls| - 1];
      FilesGrow(files, init, force, env, k);
      var u := urls[|urls| - 1];
      if !Skips(FilesAfter(files, init, force, env), u, force) {
        ApplyWritesKeep(FilesAfter(files, init, force, env), Written(u, Some(DocsFolder), Scraped(u, env), env.convert, env.faults(u)), k);
      }
    }
  }

  /** Unless `force` is set, a URL whose Markdown file was stored before the call is skipped. */
  lemma StoredIsSkipped(files: map<Key, string>, urls: seq<string>, force: bool, env: Env, i: int)
    requires 0 <= i < |urls| && !force && (DocsFolder, MdName(urls[i])) in files
    ensures Entries(files, urls, force, env)[i].skipped
    ensures Entries(files, urls, force, env)[i].path == Some("docs/" + MdName(urls[i]))
  {
    EntriesFacts(files, urls, force, env);
    FilesGrow(files, urls[..i], force, env, (DocsFolder, MdName(urls[i])));
  }

  /** The files a URL's task may write. */
  predicate OwnFile(k: Key, url: string) {
    k == (DocsFolder, MdName(url)) || k == (DocsFolder, TxtName(url))
  }

  /** The downloads change only the `.md` and `.txt` files of the URLs they are for, and add no other file. */
  lemma {:induction false} FilesFrame(files: map<Key, string>, urls: seq<string>, force: bool, env: Env, k: Key)
    requires forall i :: 0 <= i < |urls| ==> !OwnFile(k, urls[i])
    ensures k in FilesAfter(files, urls, force, env) <==> k in files
    ensures k in files ==> FilesAfter(files, urls, force, env)[k] == files[k]
    decreases |urls|
  {
    if urls != [] {
      var init, u := urls[..|urls| - 1], urls[|urls| - 1];
      FilesFrame(files, init, force, env, k);
      var before := FilesAfter(files, init, force, env);
      if !Skips(before, u, force) {
        WrittenFiles(before, u, Some(DocsFolder), Scraped(u, env), env.convert, env.faults(u));
      }
    }
  }

  lemma {:induction false} DownloadedNamesFacts(ds: seq<DownloadEntry>)
    requires forall i :: 0 <= i < |ds| && ds[i].path.Some? ==> ds[i].path.value == "docs/" + MdName(ds[i].url)
    ensures forall n :: n in DownloadedNames(ds) <==> exists i :: 0 <= i < |ds| && ds[i].path.Some? && n == MdName(ds[i].url)
    decreases |ds|
  {
    if ds != [] {
      DownloadedNamesFacts(ds[1..]);
      var d := ds[0];
      if d.path.Some? {
        assert d.path.value[5..] == MdName(d.url);
      }
      forall n | (exists i :: 0 <= i < |ds| && ds[i].path.Some? && n == MdName(ds[i].url))
        ensures n in DownloadedNames(ds)
      {
        var i :| 0 <= i < |ds| && ds[i].path.Some? && n == MdName(ds[i].url);
        if i > 0 {
          assert ds[1..][i - 1] == ds[i];
        }
      }
      forall n | n in DownloadedNames(ds[1..]) ensures exists i :: 0 <= i < |ds| && ds[i].path.Some? && n == MdName(ds[i].url) {
        var i :| 0 <= i < |ds[1..]| && ds[1..][i].path.Some? && n == MdName(ds[1..][i].url);
        assert ds[i + 1] == ds[1..][i];
      }
    }
  }

  /**
   * The names the boost looks at are the Markdown names of the downloads that have a path: the
   * stored files and the saved downloads.
   */
  lemma BoostNames(files: map<Key, string>, urls: seq<string>, force: bool, env: Env)
    ensures var ds := Entries(files, urls, force, env);
      forall n :: n in DownloadedNames(ds) <==> exists i :: 0 <= i < |urls| && ds[i].path.Some? && n == MdName(urls[i])
  {
    EntriesFacts(files, urls, force, env);
    DownloadedNamesFacts(Entries(files, urls, force, env));
  }

  lemma {:induction false} FreshMembers(names: seq<string>, existing: set<string>)
    ensures forall n :: n in Fresh(names, existing) <==> n in names && n !in existing
    decreases |names|
  {
    if names != [] {
      var init := names[..|names| - 1];
      FreshMembers(init, existing);
      assert names == init + [names[|names| - 1]];
    }
  }

  /**
   * The boost puts one entry with score 100 in front for each download not ranked yet, the last
   * one first: entry `k` is for the `k`-th fresh name counted from the end.
   */
  lemma {:induction false} PrependedReverse(names: seq<string>, existing: set<string>)
    ensures var p, f := Prepended(names, existing), Fresh(names, existing);
      && |p| == |f|
      && forall k :: 0 <= k < |p| ==> p[k] == NewEntry(f[|f| - 1 - k])
    decreases |names|
  {
    if names != [] {
      PrependedReverse(names[..|names| - 1], existing);
    }
  }

  /** Each prepended entry is a fresh name with score 100 and `relevant`, and every fresh name gets one. */
  lemma PrependedFacts(names: seq<string>, existing: set<string>)
    ensures var p := Prepended(names, existing);
      && (forall k :: 0 <= k < |p| ==> p[k].score == 100 && p[k].relevant && p[k].filename in names && p[k].filename !in existing)
      && (forall n :: n in names && n !in existing ==> exists k :: 0 <= k < |p| && p[k].filename == n)
      && NonIncreasing(p)
  {
    var p, f := Prepended(names, existing), Fresh(names, existing);
    PrependedReverse(names, existing);
    FreshMembers(names, existing);
    forall k | 0 <= k < |p| ensures p[k].filename in names && p[k].filename !in existing {
      assert f[|f| - 1 - k] in f;
    }
    forall n | n in names && n !in existing ensures exists k :: 0 <= k < |p| && p[k].filename == n {
      assert n in f;
      var m :| 0 <= m < |f| && f[m] == n;
      assert p[|f| - 1 - m] == NewEntry(n);
    }
  }

  /**
   * After the boost every fresh download is ranked first with score 100 and `relevant`, in
   * reverse loop order, and the retrieval result follows unchanged.
   */
  lemma BoostFacts(retrieved: seq<RetrievedFile>, names: seq<string>)
    ensures var existing := Filenames(retrieved);
      var p := Prepended(names, existing);
      var r := p + retrieved;
      && r[|p|..] == retrieved
      && (forall k :: 0 <= k < |p| ==> r[k].score == 100 && r[k].relevant && r[k].filename in names && r[k].filename !in existing)
      && (forall n :: n in names && n !in existing ==> exists k :: 0 <= k < |p| && r[k].filename == n)
      && NonIncreasing(p)
  {
    var existing := Filenames(retrieved);
    var p := Prepended(names, existing);
    PrependedFacts(names, existing);
    var r := p + retrieved;
    assert forall k :: 0 <= k < |p| ==> r[k] == p[k];
  }

  /**
   * Each excerpt is a readable file among `top`, cut to its first 20000 characters, with that
   * file's score; when every top file is readable there is one excerpt per file.
   */
  lemma {:induction false} ExcerptsFacts(files: map<Key, string>, top: seq<RetrievedFile>)
    ensures var fs := Excerpts(files, top);
      && |fs| <= |top|
      && (forall i :: 0 <= i < |fs| ==>
            && (DocsFolder, fs[i].filename) in files
            && fs[i].content == Take(files[(DocsFolder, fs[i].filename)], 20000)
            && |fs[i].content| <= 20000
            && exists j :: 0 <= j < |top| && top[j].filename == fs[i].filename && top[j].score == fs[i].score)
      && ((forall j :: 0 <= j < |top| ==> (DocsFolder, top[j].filename) in files) ==> |fs| == |top|)
    decreases |top|
  {
    if top != [] {
      var init := top[..|top| - 1];
      ExcerptsFacts(files, init);
      var fs0 := Excerpts(files, init);
      var fs := Excerpts(files, top);
      forall i | 0 <= i < |fs0| ensures exists j :: 0 <= j < |top| && top[j].filename == fs[i].filename && top[j].score == fs[i].score {
        assert fs[i] == fs0[i];
        var j :| 0 <= j < |init| && init[j].filename == fs0[i].filename && init[j].score == fs0[i].score;
        assert top[j] == init[j];
      }
      if (forall j :: 0 <= j < |top| ==> (DocsFolder, top[j].filename) in files) {
        assert forall j :: 0 <= j < |init| ==> init[j] == top[j];
      }
    }
  }

  /** At most three excerpts reach the prompt. */
  lemma TopThree(files: map<Key, string>, ranked: seq<RetrievedFile>)
    ensures |Excerpts(files, Take(ranked, 3))| <= 3
  {
    ExcerptsFacts(files, Take(ranked, 3));
  }

  /** No white space but single spaces, and never two spaces in a row. */
  predicate SingleSpaced(s: string) {
    forall i :: 0 <= i < |s| ==> (IsSpace(s[i]) ==> s[i] == ' ') && (i > 0 && s[i] == ' ' ==> s[i - 1] != ' ')
  }

  lemma {:induction false} CollapseWsStart(s: string)
    requires s != []
    ensures CollapseWs(s) != [] && (CollapseWs(s)[0] == ' ' <==> IsSpace(s[0]))
    ensures !IsSpace(s[0]) ==> CollapseWs(s)[0] == s[0]
    decreases |s|
  {
    if IsSpace(s[0]) && |s| > 1 && IsSpace(s[1]) {
      CollapseWsStart(s[1..]);
    }
  }

  /** The collapsed text has only single spaces between the other characters. */
  lemma {:induction false} CollapseWsSpaced(s: string)
    ensures SingleSpaced(CollapseWs(s))
    decreases |s|
  {
    if s != [] {
      var rest := CollapseWs(s[1..]);
      CollapseWsSpaced(s[1..]);
      if |s| > 1 {
        CollapseWsStart(s[1..]);
      }
      if IsSpace(s[0]) && |s| > 1 && IsSpace(s[1]) {
      } else {
        var h := if IsSpace(s[0]) then " " else [s[0]];
        var r := h + rest;
        assert CollapseWs(s) == r;
        forall i | 0 <= i < |r| ensures (IsSpace(r[i]) ==> r[i] == ' ') && (i > 0 && r[i] == ' ' ==> r[i - 1] != ' ') {
          if i > 0 {
            assert r[i] == rest[i - 1];
            if i > 1 {
              assert r[i - 1] == rest[i - 2];
            }
          }
        }
      }
    }
  }

  lemma SingleSpacedPrefix(s: string, n: int)
    requires SingleSpaced(s)
    ensures SingleSpaced(Take(s, n))
  {
    var t := Take(s, n);
    forall i | 0 <= i < |t| ensures t[i] == s[i] {
    }
  }

  /** The excerpt in a document part is collapsed to single spaces and at most 1000 characters. */
  lemma DocPartSnippet(f: FileExcerpt)
    ensures var snippet := Take(CollapseWs(f.content), 1000);
      && |snippet| <= 1000
      && SingleSpaced(snippet)
      && DocPart(f) == "== " + f.filename + " (score: " + IntToString(f.score) + ") ==\n" + snippet + "\n"
  {
    CollapseWsSpaced(f.content);
    SingleSpacedPrefix(CollapseWs(f.content), 1000);
  }

  /**
   * The parts start with the query and end with the instruction; the downloads section comes
   * second exactly when there were downloads, and each readable file adds one part.
   */
  lemma PromptLayout(prompt: string, downloads: seq<DownloadEntry>, fs: seq<FileExcerpt>)
    ensures var parts := PromptParts(prompt, downloads, fs);
      && parts[0] == "User query: " + prompt
      && parts[|parts| - 1] == Instruction
      && |parts| == 2 + (if downloads != [] then 1 else 0) + (if fs != [] then 1 + |fs| else 0)
      && (downloads != [] ==> parts[1] == DownloadsSection(downloads))
      && (downloads == [] ==> parts[1] == if fs != [] then DocumentsHeader else Instruction)
  {
  }

  /**
   * Once the downloads are done, the call fails exactly when the final completion throws, with its
   * message; on success the output holds the prompt, the first `maxSearch` search items, the
   * downloads, the boosted ranking and the completion's text.
   */
  lemma FinishFacts(prompt: string, opts: GatherOptions, env: Env, after: map<Key, string>, downloads: seq<DownloadEntry>)
    ensures var r := Finish(prompt, opts, env, after, downloads);
      var reply := env.ai(AnswerPrompt(prompt, env, after, downloads));
      var retrieved := RetrieveSavedInfo(prompt, RankOptions(None, Some(8)), env.readdir(after), after, env.ai, env.parse);
      && (r.Err? <==> reply.AiThrew?)
      && (reply.AiThrew? ==> r.error == reply.message)
      && (r.Ok? ==>
            && r.value.query == prompt
            && r.value.answer == reply.text
            && r.value.searchResults == Take(SearchItems(prompt, env.search), MaxSearch(opts))
            && r.value.downloads == downloads
            && r.value.retrieved == Prepended(DownloadedNames(downloads), Filenames(retrieved)) + retrieved)
  {
  }

  /**
   * A blank prompt fails before anything else; otherwise the result is that of the downloads of
   * `toDownload` followed by the answer, with one download entry per URL, in order.
   */
  lemma GatherFacts(files: map<Key, string>, prompt: string, opts: GatherOptions, env: Env)
    ensures var r := GatherOutcome(files, prompt, opts, env);
      && (prompt == "" ==> r == Err("prompt must be a non-empty string"))
      && (prompt != "" ==>
            var todo := ToDownload(prompt, opts, env);
            var downloads := Entries(files, todo, opts.force, env);
            && r == Finish(prompt, opts, env, FilesAfter(files, todo, opts.force, env), downloads)
            && |downloads| == |todo|
            && (forall i :: 0 <= i < |todo| ==> downloads[i].url == todo[i]))
  {
    if prompt != "" {
      EntriesFacts(files, ToDownload(prompt, opts, env), opts.force, env);
    }
  }

  /**
   * When `readdir` of `docs` lists exactly the files stored once the downloads are done, the
   * ranking's candidates hold the Markdown file of every download entry with a path and every
   * Markdown file stored in `docs` before the call.
   */
  lemma DownloadsAreCandidates(files: map<Key, string>, urls: seq<string>, force: bool, env: Env)
    requires var after := FilesAfter(files, urls, force, env);
      env.readdir(after).Some? && ListsDocs(env.readdir(after).value, after)
    ensures var after := FilesAfter(files, urls, force, env);
      var es, names := Entries(files, urls, force, env), MdFiles(env.readdir(after).value);
      && (forall i :: 0 <= i < |urls| && es[i].path.Some? ==> MdName(urls[i]) in names)
      && (forall n :: (DocsFolder, n) in files && EndsWith(n, ".md") ==> n in names)
  {
    var after := FilesAfter(files, urls, force, env);
    var es, names := Entries(files, urls, force, env), MdFiles(env.readdir(after).value);
    CandidatesStored(env.readdir(after).value, after);
    forall i | 0 <= i < |urls| && es[i].path.Some? ensures MdName(urls[i]) in names {
      EntryStored(files, urls, force, env, i);
      var stem := SafeStem(urls[i]);
      assert (stem + ".md")[|stem|..] == ".md";
    }
    forall n | (DocsFolder, n) in files && EndsWith(n, ".md") ensures n in names {
      FilesGrow(files, urls, force, env, (DocsFolder, n));
    }
  }
}
