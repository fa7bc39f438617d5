/**
 * `webdownloadPage`: scrape a page, convert the text to Markdown and store both under a file stem
 * derived from the URL.
 */
module WebDownload {
  import opened Common
  import opened JsStr
  import opened UrlKey
  import opened Scrape
  import opened FileStore

  /** Where the file-system steps of one download fail, if they do. */
  datatype IoFault =
    | NoFault
    | MkdirFails(message: string)
    | MdWriteFails(message: string)
    | TxtWriteFails(message: string)

  /** The object `webdownloadPage` resolves to: both paths, or an error. */
  datatype Download = Saved(path: string, rawPath: string) | Failed(error: string)

  /** The folder written to: `options.folder ?? "docs"`. */
  function FolderOf(folder: Option<string>): string {
    folder.GetOr("docs")
  }

  /** The scraped text, "" where the scrape reported an empty error or empty text. */
  function ScrapedText(scraped: Result<string, string>): string {
    if scraped.Ok? then scraped.value else ""
  }

  /**
   * What `webdownloadPage(url, {maxChars, folder})` resolves to, given what the scrape returned
   * (`ScrapeWebpage(url, maxChars, page)`), the Markdown conversion (an error is the message it
   * throws) and the file-system faults.
   */
  function DownloadOutcome(url: string, folder: Option<string>, scraped: Result<string, string>,
                           convert: string -> Result<string, string>, fault: IoFault): Download
  {
    var dir := FolderOf(folder);
    if url == "" then Failed("url must be a non-empty string")
    else if !IsHttpUrl(url) then Failed("only http(s) urls are supported")
    else if scraped.Err? && scraped.error != "" then Failed(scraped.error)
    else
      var text := ScrapedText(scraped);
      if text == "" then Failed("no text could be extracted from url")
      else match convert(text)
        case Err(m) => Failed(m)
        case Ok(_) =>
          match fault
          case MkdirFails(m) => Failed(m)
          case MdWriteFails(m) => Failed(m)
          case TxtWriteFails(m) => Failed(m)
          case NoFault => Saved(dir + "/" + MdName(url), dir + "/" + TxtName(url))
  }

  /**
   * The guards answer first; a scrape error is returned unchanged; empty text is refused; a saved
   * download returns `<folder>/<stem>.md` and `<folder>/<stem>.txt`, with `folder` "docs" by default.
   */
  lemma OutcomeCases(url: string, folder: Option<string>, scraped: Result<string, string>,
                     convert: string -> Result<string, string>, fault: IoFault)
    ensures var r := DownloadOutcome(url, folder, scraped, convert, fault);
      && (url == "" ==> r == Failed("url must be a non-empty string"))
      && (url != "" && !IsHttpUrl(url) ==> r == Failed("only http(s) urls are supported"))
      && (url != "" && IsHttpUrl(url) && scraped.Err? && scraped.error != "" ==> r == Failed(scraped.error))
      && (url != "" && IsHttpUrl(url) && (scraped.Err? || scraped.value == "")
          && (scraped.Err? ==> scraped.error == "")
          ==> r == Failed("no text could be extracted from url"))
      && (r.Saved? <==>
            url != "" && IsHttpUrl(url) && scraped.Ok? && scraped.value != ""
            && convert(scraped.value).Ok? && fault == NoFault)
      && (r.Saved? ==>
            && r.path == FolderOf(folder) + "/" + MdName(url)
            && r.rawPath == FolderOf(folder) + "/" + TxtName(url))
      && (folder == None && r.Saved? ==> r.path == "docs/" + MdName(url))
  {
  }

  /**
   * The files one call writes, in order: the Markdown at `<stem>.md`, then the raw text at
   * `<stem>.txt`; when the second write fails only the first has happened.
   */
  function Written(url: string, folder: Option<string>, scraped: Result<string, string>,
                   convert: string -> Result<string, string>, fault: IoFault): seq<(Key, string)>
  {
    var dir := FolderOf(folder);
    var text := ScrapedText(scraped);
    if url == "" || !IsHttpUrl(url) || (scraped.Err? && scraped.error != "") || text == "" then []
    else match convert(text)
      case Err(_) => []
      case Ok(markdown) =>
        match fault
        case MkdirFails(_) => []
        case MdWriteFails(_) => []
        case TxtWriteFails(_) => [((dir, MdName(url)), markdown)]
        case NoFault => [((dir, MdName(url)), markdown), ((dir, TxtName(url)), text)]
  }

  /** `webdownloadPage` run against the file store. */
  method WebdownloadPage(store: Store, url: string, maxChars: Option<int>, folder: Option<string>,
                         page: PageFetch, convert: string -> Result<string, string>, fault: IoFault)
    returns (r: Download)
    modifies store
    ensures r == DownloadOutcome(url, folder, ScrapeWebpage(url, maxChars, page), convert, fault)
    ensures store.files == ApplyWrites(old(store.files), Written(url, folder, ScrapeWebpage(url, maxChars, page), convert, fault))
  {
    if url == "" {
      return Failed("url must be a non-empty string");
    }
    if !IsHttpUrl(url) {
      return Failed("only http(s) urls are supported");
    }
    var scraped := ScrapeWebpage(url, maxChars, page);
    r := SaveScraped(store, url, folder, scraped, convert, fault);
  }

  /** The steps of `webdownloadPage` after the URL guards, from the scrape result on. */
  method SaveScraped(store: Store, url: string, folder: Option<string>, scraped: Result<string, string>,
                     convert: string -> Result<string, string>, fault: IoFault)
    returns (r: Download)
    requires url != "" && IsHttpUrl(url)
    modifies store
    ensures r == DownloadOutcome(url, folder, scraped, convert, fault)
    ensures store.files == ApplyWrites(old(store.files), Written(url, folder, scraped, convert, fault))
  {
    ghost var writes := Written(url, folder, scraped, convert, fault);
    var dir := FolderOf(folder);
    if scraped.Err? && scraped.error != "" {
      assert writes == [];
      ApplyNone(store.files);
      return Failed(scraped.error);
    }
    var text := ScrapedText(scraped);
    if text == "" {
      assert writes == [];
      ApplyNone(store.files);
      return Failed("no text could be extracted from url");
    }
    var converted := convert(text);
    if converted.Err? {
      assert writes == [];
      ApplyNone(store.files);
      return Failed(converted.error);
    }
    var markdown := converted.value;
    var filename, rawFilename := MdName(url), TxtName(url);
    if fault.MkdirFails? || fault.MdWriteFails? {
      assert writes == [];
      ApplyNone(store.files);
      return Failed(fault.message);
    }
    store.WriteFile(dir, filename, markdown);
    if fault.TxtWriteFails? {
      assert writes == [((dir, filename), markdown)];
      ApplyOne(old(store.files), (dir, filename), markdown);
      return Failed(fault.message);
    }
    store.WriteFile(dir, rawFilename, text);
    assert writes == [((dir, filename), markdown), ((dir, rawFilename), text)];
    ApplyTwo(old(store.files), (dir, filename), markdown, (dir, rawFilename), text);
    r := Saved(dir + "/" + filename, dir + "/" + rawFilename);
  }

  /**
   * Only the two files of the URL's stem can change; a failure other than the second write
   * changes nothing, and after a saved download the store holds the Markdown and the raw text.
   */
  lemma WrittenFiles(files: map<Key, string>, url: string, folder: Option<string>,
                     scraped: Result<string, string>, convert: string -> Result<string, string>, fault: IoFault)
    ensures var after := ApplyWrites(files, Written(url, folder, scraped, convert, fault));
      var md, txt := (FolderOf(folder), MdName(url)), (FolderOf(folder), TxtName(url));
      && (forall k :: k in files && k != md && k != txt ==> k in after && after[k] == files[k])
      && (forall k :: k in after ==> k in files || k == md || k == txt)
      && (DownloadOutcome(url, folder, scraped, convert, fault).Failed? && !fault.TxtWriteFails? ==>
            after == files)
      && (DownloadOutcome(url, folder, scraped, convert, fault).Saved? ==>
            && md in after && after[md] == convert(scraped.value).value
            && txt in after && after[txt] == scraped.value)
  {
    var w := Written(url, folder, scraped, convert, fault);
    var after := ApplyWrites(files, w);
    var md, txt := (FolderOf(folder), MdName(url)), (FolderOf(folder), TxtName(url));
    assert forall i :: 0 <= i < |w| ==> w[i].0 == md || w[i].0 == txt;
    forall k | k in files && k != md && k != txt ensures k in after && after[k] == files[k] {
      ApplyWritesFrame(files, w, k);
    }
    forall k | k in after ensures k in files || k == md || k == txt {
      ApplyWritesFrame(files, w, k);
    }
    if DownloadOutcome(url, folder, scraped, convert, fault).Saved? {
      MdTxtDistinct(url);
      ApplyTwo(files, md, w[0].1, txt, w[1].1);
    } else if !fault.TxtWriteFails? {
      assert w == [];
      ApplyNone(files);
    }
  }

  /** The raw text stored by a saved download is non-empty normalised page text within `maxChars`. */
  lemma SavedText(files: map<Key, string>, url: string, maxChars: Option<int>, folder: Option<string>,
                  page: PageFetch, convert: string -> Result<string, string>)
    requires DownloadOutcome(url, folder, ScrapeWebpage(url, maxChars, page), convert, NoFault).Saved?
    ensures var after := ApplyWrites(files, Written(url, folder, ScrapeWebpage(url, maxChars, page), convert, NoFault));
      var txt := (FolderOf(folder), TxtName(url));
      && txt in after && after[txt] != ""
      && NoCtl(after[txt]) && NoTripleNewline(after[txt])
      && (maxChars.GetOr(DefaultMaxChars) >= 0 ==> |after[txt]| <= maxChars.GetOr(DefaultMaxChars))
  {
    WrittenFiles(files, url, folder, ScrapeWebpage(url, maxChars, page), convert, NoFault);
    ScrapedShape(url, maxChars, page);
  }
}
