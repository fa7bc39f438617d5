# lucy server core, modelled in Dafny

lucy is a small Next.js research assistant. Its server side does four kinds of work, and this project models all four:

- It searches the web through DuckDuckGo's instant-answer API (`getSearchResults`, `searchToAi`).
- It downloads pages and stores their text and Markdown under `docs/` (`scrapeWebpage`, `webdownloadPage`, with `normalizeUrl` deriving the file names).
- It ranks the stored documents for a query, asking the model first and falling back to a word-count heuristic (`retrieveSavedInfo`). A workflow ties search, download, ranking and a final answer together (`gatherInfo`).
- It mirrors log lines into an in-memory, per-id ring of the last 200 entries that listeners can subscribe to (`logStore`, `getLogs`, `log`). It also serves JSON from a read-through file cache (`get`, `post`).

Everything the server only talks to is a parameter of the model:

- the model completion (`string -> AiReply`);
- `fetch` and `fetchWithCache`, as replies or as functions of the request;
- the text cheerio extracts from a page (`DomText`);
- `JSON.parse`, `JSON.stringify` and the Markdown conversion;
- the schema module `import()` yields;
- what `readdir` of `docs/` returns, as a function of the files stored at that moment;
- timestamps;
- the faults of `mkdir` and `writeFile`, in the downloads and in the JSON cache.

The files on disk are a map from (folder, file name) to text. That map is the field of the class `FileStore.Store`, and methods change it in place.

Modules, one per source file, plus four shared ones:

- `Common`: `Option`, `Result`, `slice`.
- `JsStr`: the JavaScript string built-ins the code uses.
- `Json`: JSON values, truthiness, `String()` and `Number()`.
- `FileStore`: the file map.
- `UrlKey` models `normalizeUrl` and the safe-file-name step.
- `Scrape`, `WebDownload`, `Search`, `SearchToAi`, `Ranking` and `Retrieve` model the search, download and ranking code.
- `Gather` models the workflow.
- `JsonCache` models `get` and `post`.
- `LogStore` (a class), `GetLogs` and `Log` model the logging code.

Code that builds its result with loops and `push` is modelled by methods with loops. Each method is proved equal to a specification function, and the properties are lemmas about that function. Examples are the search item list, the heuristic count, the freshness boost, the prompt parts and the listener notification. Pure expressions are modelled by functions.

Two facts about the code that a reader might expect otherwise:

- `getSearchResults` rejects only the empty query, not one made only of white space.
- `getAiResponse` is a single call without retry or back-off.

## Model

| member | source | states |
|---|---|---|
| UrlKey.NormalizeUrl | app/server/http/normalizeUrl.ts:2-5 | the two chained global replaces; its properties are stated by the NormalizeUrl lemmas below |
| UrlKey.NormalizeUrlPerChar | app/server/http/normalizeUrl.ts:2-5 | the two chained global replaces equal a one-pass, per-character escape: `-` becomes `--`, `/` becomes `-`, every other character is copied in order |
| UrlKey.EscapeEachFacts | app/server/http/normalizeUrl.ts:4 | the per-character escape has no `/`, is longer than its input by the number of `-`, and leaves a string with neither `-` nor `/` unchanged |
| UrlKey.NormalizeUrlNoSlash | app/server/http/normalizeUrl.ts:4 | a normalized URL never contains `/`, so it names a file directly inside its folder |
| UrlKey.NormalizeUrlLength | app/server/http/normalizeUrl.ts:4 | output length is input length plus the number of `-` in the input |
| UrlKey.NormalizeUrlAppend | app/server/http/normalizeUrl.ts:4 | normalization distributes over concatenation |
| UrlKey.ReplaceAllAppend | app/server/http/normalizeUrl.ts:4 | a global single-character replace distributes over concatenation |
| UrlKey.NormalizeUrlIdentity | app/server/http/normalizeUrl.ts:4 | a URL with neither `-` nor `/` is its own normalization |
| UrlKey.NormalizeUrlCollision | app/server/http/normalizeUrl.ts:4 | the map is not injective: `a//` and `a-` both become `a--` |
| UrlKey.Sanitize | app/server/webdownloadPage.ts:49 | same length as its input; each character is kept when it is in `[A-Za-z0-9_.-]` and becomes `-` otherwise |
| UrlKey.SafeStem | app/server/webdownloadPage.ts:47-49 | the safe file stem of a URL; its properties are stated by SafeStemFacts and MdTxtDistinct |
| UrlKey.SafeStemFacts | app/server/webdownloadPage.ts:47-49 | the stem has only safe characters, is exactly as long as the normalized URL, and agrees with it wherever that has a safe character |
| UrlKey.SanitizeIdempotent | app/server/webdownloadPage.ts:49 | sanitizing a sanitized string changes nothing |
| UrlKey.MdTxtDistinct | app/server/webdownloadPage.ts:50-51 | the `.md` and `.txt` files of one URL never share a name |
| JsStr.TrimStart | app/server/web/scrapeWebpage.ts:68 | the result is a suffix of the input; only white space was dropped, and the result does not start with white space |
| JsStr.TrimEnd | app/server/web/scrapeWebpage.ts:68 | the result is a prefix; only white space was dropped, and the result does not end with white space |
| JsStr.Trim | app/server/web/scrapeWebpage.ts:72 | the trimmed text neither starts nor ends with white space and has no character the input lacks |
| JsStr.TrimInfix | app/server/web/scrapeWebpage.ts:72 | the trimmed text is the slice of the input that starts where the leading white space ends, and only white space lies before and after it |
| JsStr.TrimId | app/server/web/scrapeWebpage.ts:72 | trimming a string that neither starts nor ends with white space leaves it unchanged |
| JsStr.Lower | app/server/ai/retrieveSavedInfo.ts:148 | lower-casing keeps the length and maps each character on its own |
| JsStr.IndexOf | app/server/ai/retrieveSavedInfo.ts:116 | the first position of the character, or -1 exactly when it does not occur |
| JsStr.LastIndexOf | app/server/ai/retrieveSavedInfo.ts:117 | the last position of the character, or -1 exactly when it does not occur |
| JsStr.SplitParts | app/server/web/scrapeWebpage.ts:67 | no piece of a split contains the separator |
| JsStr.SplitCons | app/server/web/scrapeWebpage.ts:67 | splitting at the first separator gives the text before it, then the split of the rest |
| JsStr.NumberOfIntString | app/utils/log.ts:45 | `Number(String(n))` gives back the integer `n` |
| Json.StrOrEmpty | app/server/ai/retrieveSavedInfo.ts:81 | `String(v \|\| "")` is empty for a falsy value and the string itself for a truthy string |
| Json.NumberOfNumberString | app/server/ai/retrieveSavedInfo.ts:82 | a numeric string written by `String` reads back as the same number |
| Scrape.ScrapeWebpage | app/server/web/scrapeWebpage.ts:11-88 | empty URL, non-http(s) URL, non-ok status and non-HTML content type each give their own message; a rejected fetch or DOM step gives its own message; an ok HTML page always succeeds, with the whole normalized text when it fits in `maxChars`; a success came from an ok HTML response and is a prefix of the normalized page text no longer than `maxChars`, exactly `maxChars` long when the text was cut |
| Scrape.Truncate | app/server/web/scrapeWebpage.ts:75-76 | the result is a prefix of the text, at most `maxChars` long when that is not negative, exactly `maxChars` long when the text is cut, and the whole text when it fits |
| Scrape.NonEmpty | app/server/web/scrapeWebpage.ts:69 | every kept line is a non-empty input line, and every non-empty input line is kept |
| Scrape.NonEmptyCount | app/server/web/scrapeWebpage.ts:69 | `filter(Boolean)` keeps each non-empty line as many times as it occurs: the kept multiset is the input's without the empty lines, and the count drops by the number of empty lines |
| Scrape.NonEmptyInOrder | app/server/web/scrapeWebpage.ts:69 | the kept lines are a subsequence of the input, so they keep their order |
| Scrape.LinesClean | app/server/web/scrapeWebpage.ts:66-69 | every kept line is non-empty, has no newline, and neither starts nor ends with white space |
| Scrape.CollapseChars | app/server/web/scrapeWebpage.ts:71 | after the replace, no tab, NBSP or CR is left, and every character is an input character or a space |
| Scrape.CollapseNoCtl | app/server/web/scrapeWebpage.ts:71 | the replace leaves a text without tab, NBSP and CR unchanged |
| Scrape.CollapseJoin | app/server/web/scrapeWebpage.ts:70-71 | on clean lines, replacing after the join equals replacing each line and then joining |
| Scrape.NormalizeWhitespace | app/server/web/scrapeWebpage.ts:66-72 | the split, trim, filter, join, replace and trim of the page text; its properties are stated by ParagraphsClean, NormalForm, NormalizedShape and NormalizeIdempotent |
| Scrape.ParagraphsClean | app/server/web/scrapeWebpage.ts:66-71 | each paragraph of the normalized text is clean and free of tab, NBSP and CR |
| Scrape.NormalForm | app/server/web/scrapeWebpage.ts:66-72 | the normalized text is exactly its clean paragraphs joined by one blank line; the final trim removes nothing |
| Scrape.NormalizedShape | app/server/web/scrapeWebpage.ts:66-72 | the normalized text has no tab, NBSP or CR, and never three newlines in a row |
| Scrape.LinesOfJoin | app/server/web/scrapeWebpage.ts:66-70 | splitting clean paragraphs joined by blank lines, trimming and dropping empty lines gives the paragraphs back |
| Scrape.NormalizeIdempotent | app/server/web/scrapeWebpage.ts:66-72 | normalizing normalized text changes nothing |
| Scrape.ScrapedShape | app/server/web/scrapeWebpage.ts:63-83 | returned text, truncated or not, has no tab, NBSP or CR and no three newlines in a row |
| WebDownload.DownloadOutcome | app/server/webdownloadPage.ts:15-74 | the value `webdownloadPage` resolves to; its cases are stated by OutcomeCases and its writes by WrittenFiles |
| WebDownload.OutcomeCases | app/server/webdownloadPage.ts:19-73 | the empty-URL, non-http(s), scrape-error and no-text cases give their errors; the call succeeds exactly when every step does, and it then returns `folder/stem.md` and `folder/stem.txt` with `docs` as the default folder |
| WebDownload.WebdownloadPage | app/server/webdownloadPage.ts:15-74 | the result is the outcome for what the scrape returns, and the store is changed by exactly the writes that outcome makes |
| WebDownload.SaveScraped | app/server/webdownloadPage.ts:34-73 | for a valid URL, after the scrape: the returned outcome and the writes, with a failed `mkdir` or write becoming an error |
| WebDownload.WrittenFiles | app/server/webdownloadPage.ts:54-59 | only the page's `.md` and `.txt` files can change; a failure changes nothing unless the raw-text write is what failed; a success stores the Markdown and the scraped text |
| WebDownload.SavedText | app/server/webdownloadPage.ts:39-59 | after a success the raw-text file is non-empty normalized text within `maxChars` |
| FileStore.ApplyWritesFrame | app/server/webdownloadPage.ts:58-59 | writes leave every file they do not name as it was and create no file they do not name |
| FileStore.ApplyWritesKeep | app/server/webdownloadPage.ts:58-59 | writes never remove a file |
| FileStore.Store.Read | app/server/workflow/gatherInfo.ts:139 | a read succeeds exactly when the file exists, and returns its content (also the reads at retrieveSavedInfo.ts:152 and readJson.ts:12) |
| FileStore.Store.WriteFile | app/server/webdownloadPage.ts:58 | a write creates or replaces that one file and nothing else |
| Search.GetSearchResults | app/server/web/getSearchResults.ts:13-93 | the loops that push the items compute the outcome of the search for the query and the fetch reply |
| Search.PushResults | app/server/web/getSearchResults.ts:51-59 | the loop over `Results` appends one item per entry, or fails on a null entry |
| Search.PushSubTopics | app/server/web/getSearchResults.ts:65-72 | the loop over a group's `Topics` appends one item per sub-topic |
| Search.PushTopics | app/server/web/getSearchResults.ts:62-81 | the loop over `RelatedTopics` appends the items of each topic, flattening groups one level |
| Search.SearchOutcome | app/server/web/getSearchResults.ts:13-93 | what `getSearchResults` returns for a query and a fetch reply; its properties are stated by SearchGuards, AbstractFirst, ResultsInOrder, ItemCount and TitlesNonEmpty |
| Search.SearchGuards | app/server/web/getSearchResults.ts:16-36 | an empty query, a fetch error and missing data each give their own error, in that order |
| Search.Or | app/server/web/getSearchResults.ts:54 | `a \|\| b` is `a` when `a` is truthy and `b` otherwise |
| Search.OrUndefined | app/server/web/getSearchResults.ts:44 | `a \|\| undefined` is present exactly when `a` is truthy |
| Search.OrQuery | app/server/web/getSearchResults.ts:43 | a fallback chain ending in the query is truthy whenever the query is not empty |
| Search.AbstractFirst | app/server/web/getSearchResults.ts:41-48 | with a truthy `AbstractText` the first item is the abstract, titled `Heading \|\| query` and linked to `AbstractURL` |
| Search.ResultsInOrder | app/server/web/getSearchResults.ts:51-59 | the `Results` entries give one item each, in order, right after the abstract |
| Search.ResultItemsFacts | app/server/web/getSearchResults.ts:51-59 | the `Results` loop fails exactly when an entry is null; otherwise item i is built from entry i via `Text \|\| Result \|\| Name \|\| query` and `FirstURL \|\| Url` |
| Search.SubItemsFacts | app/server/web/getSearchResults.ts:65-72 | a group's sub-topics give one item each, in order, or the loop fails exactly on a null one |
| Search.RelatedItemsCount | app/server/web/getSearchResults.ts:62-81 | each group contributes one item per sub-topic and each other topic one item |
| Search.ItemCount | app/server/web/getSearchResults.ts:38-81 | the item count is one for the abstract (if present), plus the number of results, plus each group's sub-topic count, plus one per other topic |
| Search.TitlesNonEmpty | app/server/web/getSearchResults.ts:41-81 | every item title is truthy, and a string title is never empty |
| SearchToAi.SearchToAi | app/server/workflow/searchToAi.ts:11-35 | the titles, the prompt and the completion; its properties are stated by TitlesFacts, PromptShape and ReplyUnchanged |
| SearchToAi.SearchTitles | app/server/workflow/searchToAi.ts:24-25 | the titles of the first six results, in order, with a missing title as `""` |
| SearchToAi.ElementTitlesFacts | app/server/workflow/searchToAi.ts:25 | mapping over caller values fails exactly when one is null; otherwise title i comes from element i |
| SearchToAi.TitlesFacts | app/server/workflow/searchToAi.ts:17-25 | at most six titles; a string input searches and takes the result titles, a failed search, a missing or null container and any other input give none, and an array uses its own elements: it fails exactly when a null is among its first six, and otherwise gives one title per element among them |
| SearchToAi.PromptShape | app/server/workflow/searchToAi.ts:26-28 | the prompt is the fixed prefix followed by the titles joined with `; `, and just the prefix with no titles |
| SearchToAi.ReplyUnchanged | app/server/workflow/searchToAi.ts:29-34 | the completion's text is returned unchanged, and its failure is the failure |
| Ranking.SortByScore | app/server/ai/retrieveSavedInfo.ts:88-89 | the stable sort by descending score; its properties are stated by SortFacts and SortStable |
| Ranking.SortFacts | app/server/ai/retrieveSavedInfo.ts:88-89 | the sort by descending score is ordered and is a permutation of its input |
| Ranking.SortStable | app/server/ai/retrieveSavedInfo.ts:89 | entries with equal scores keep their relative order |
| Ranking.InsertSorted | app/server/ai/retrieveSavedInfo.ts:89 | inserting into an ordered list keeps it ordered |
| Ranking.Cap | app/server/ai/retrieveSavedInfo.ts:91-92 | the cap by index keeps a prefix |
| Ranking.CapBeforeFilter | app/server/ai/retrieveSavedInfo.ts:90-96 | the index filter equals capping the sorted list at `maxFiles` first and dropping scores below `minScore` afterwards |
| Ranking.AtLeastFacts | app/server/ai/retrieveSavedInfo.ts:93-94 | the score filter keeps a subsequence, all at least `minScore`, and everything with no minimum |
| Ranking.Rank | app/server/ai/retrieveSavedInfo.ts:88-96 | sort, cap and filter; its properties are stated by RankFacts, CapBeforeFilter and RankCapOnly |
| Ranking.RankFacts | app/server/ai/retrieveSavedInfo.ts:88-96 | the ranking is ordered, a subsequence of the sorted list, at most `maxFiles` long, all at least `minScore`, and drawn from its input |
| Ranking.RankCapOnly | app/server/ai/retrieveSavedInfo.ts:179-185 | with only `maxFiles` given the ranking is the first `maxFiles` of the sorted list |
| Retrieve.MdFiles | app/server/ai/retrieveSavedInfo.ts:37-40 | the candidates are exactly the regular files whose names end in `.md` |
| Retrieve.CandidatesStored | app/server/ai/retrieveSavedInfo.ts:37-40 | over a listing that shows exactly the stored `docs` files, the candidates are exactly the stored Markdown files |
| Retrieve.Candidate | app/server/ai/retrieveSavedInfo.ts:116-119 | a slice from the first opening bracket to the last closing one exists exactly when the last comes after the first, and it sits in the text at that position |
| Retrieve.ExtractJson | app/server/ai/retrieveSavedInfo.ts:113-139 | a found JSON text parses and occurs in the reply; one is found exactly when the array slice or the object slice parses; the array slice wins, and the object slice is taken when the array slice does not parse |
| Retrieve.CleanEntry | app/server/ai/retrieveSavedInfo.ts:80-86 | filename and reason are empty for a falsy field and the string itself for a string; the score is the numeric reading of `score`, or 0 when it has none; relevant exactly when `relevant` is truthy; the snippet is a prefix of `String(snippet \|\| "")` of at most 400 characters, and all of it when it fits |
| Retrieve.CleanAll | app/server/ai/retrieveSavedInfo.ts:80-86 | cleaning fails exactly when an element is null and otherwise cleans each element in place |
| Retrieve.TokensFacts | app/server/ai/retrieveSavedInfo.ts:148 | tokens are non-empty and space-free, and there are none exactly when the query is all white space |
| Retrieve.ScoreOne | app/server/ai/retrieveSavedInfo.ts:161-176 | the loop that sums the token matches builds the heuristic's entry for the file |
| Retrieve.OccurrencesIncludes | app/server/ai/retrieveSavedInfo.ts:165-166 | a token is counted at least once exactly when it occurs |
| Retrieve.OccurrencesFit | app/server/ai/retrieveSavedInfo.ts:165 | the matches do not overlap: their total length fits in the text |
| Retrieve.TotalMatchesPositive | app/server/ai/retrieveSavedInfo.ts:164-167 | the count is positive exactly when some token matches |
| Retrieve.Heuristic | app/server/ai/retrieveSavedInfo.ts:141-187 | the fallback ranking; its properties are stated by HeuristicScore, HeuristicFacts and MatchBeatsNoMatch |
| Retrieve.HeuristicScore | app/server/ai/retrieveSavedInfo.ts:161-176 | the score is `min(100, 10*count)`, relevant exactly when positive, positive exactly when some token occurs in the lower-cased name and excerpt; the snippet is the first 300 characters |
| Retrieve.MatchBeatsNoMatch | app/server/ai/retrieveSavedInfo.ts:164-169 | a file with a match scores strictly above one with none |
| Retrieve.BlankQuery | app/server/ai/retrieveSavedInfo.ts:148 | a blank query scores every file 0 and marks it not relevant |
| Retrieve.RankWithin | app/server/ai/retrieveSavedInfo.ts:179-185 | ranking entries with short snippets meets the options: ordered, capped, above the minimum |
| Retrieve.HeuristicFacts | app/server/ai/retrieveSavedInfo.ts:141-187 | the fallback meets the options, scores within 0..100 only the candidate files, and returns one entry per file with no options |
| Retrieve.RetrieveSavedInfo | app/server/ai/retrieveSavedInfo.ts:29-110 | what `retrieveSavedInfo` returns; its properties are stated by RetrieveRoutes and RetrieveFacts |
| Retrieve.RetrieveRoutes | app/server/ai/retrieveSavedInfo.ts:36-109 | a failed listing and no candidates give `[]`; an AI failure, no JSON in the reply, or a parse failure fall back to the heuristic; non-array JSON gives `[]`; an array is cleaned and ranked |
| Retrieve.FromParsedWithin | app/server/ai/retrieveSavedInfo.ts:77-105 | whatever the parsed reply, the result meets the options |
| Retrieve.FromReplyWithin | app/server/ai/retrieveSavedInfo.ts:56-105 | whatever the completion does, the result meets the options |
| Retrieve.RetrieveFacts | app/server/ai/retrieveSavedInfo.ts:29-110 | every result is ordered by score, within `maxFiles`, above `minScore`, with snippets of at most 400 characters |
| Gather.UrlsOf | app/server/workflow/gatherInfo.ts:48-51 | there are at most as many URLs as items |
| Gather.UrlsOfTo | app/server/workflow/gatherInfo.ts:48-51 | every truthy item URL, as a string, is among the URLs |
| Gather.UrlsOfFrom | app/server/workflow/gatherInfo.ts:48-51 | each URL is the string form of a truthy item URL |
| Gather.DistinctFacts | app/server/workflow/gatherInfo.ts:46-52 | de-duplication keeps each URL once, loses none, and keeps first-seen order |
| Gather.SelectUrlsFacts | app/server/workflow/gatherInfo.ts:42-53 | the selected URLs have no duplicates, number at most `maxSearchResults`, are a prefix of the distinct URLs, and each comes from an item; every truthy item URL is among the distinct URLs, and all of them are selected when `maxSearchResults` covers them |
| Gather.ToDownloadFacts | app/server/workflow/gatherInfo.ts:43-64 | the download list is a prefix of the URLs without duplicates, of length `min(maxDocsToDownload, number of URLs)` |
| Gather.Entries | app/server/workflow/gatherInfo.ts:63-90 | one download entry per dispatched URL |
| Gather.DownloadAll | app/server/workflow/gatherInfo.ts:63-90 | the download tasks, run in dispatch order, push the entries and make the writes of the specification |
| Gather.StepEntryFacts | app/server/workflow/gatherInfo.ts:65-88 | an entry is for its URL; it is skipped exactly when the `.md` file is stored and `force` is off; its path is `docs/<stem>.md`; it has a path exactly when it has no error |
| Gather.EntriesPrefix | app/server/workflow/gatherInfo.ts:63-90 | the entries of the first m tasks are the first m entries, so later tasks never change earlier entries |
| Gather.EntryAt | app/server/workflow/gatherInfo.ts:63-90 | entry i is what the download task for URL i gives on the files left by the earlier tasks |
| Gather.EntriesFacts | app/server/workflow/gatherInfo.ts:63-90 | entry i is for URL i, skipped exactly when its file is stored by then, with path `docs/<stem>.md`, and has a path exactly when it has no error |
| Gather.StoredIsSkipped | app/server/workflow/gatherInfo.ts:70-74 | without `force`, a URL whose `.md` file is already stored is skipped with that path |
| Gather.FilesGrowFrom | app/server/workflow/gatherInfo.ts:63-90 | a file stored after some of the download tasks is still stored after all of them |
| Gather.EntryStored | app/server/workflow/gatherInfo.ts:70-87 | the `.md` file of every entry with a path is stored once the downloads are done |
| Gather.FilesGrow | app/server/workflow/gatherInfo.ts:63-90 | downloads never remove a stored file |
| Gather.FilesFrame | app/server/workflow/gatherInfo.ts:76-87 | downloads change only the `.md` and `.txt` files of their own URLs |
| Gather.DownloadedNamesFacts | app/server/workflow/gatherInfo.ts:105-107 | the downloaded names are exactly the `<stem>.md` of the entries with a path |
| Gather.BoostNames | app/server/workflow/gatherInfo.ts:105-107 | the downloaded names are the `.md` names of the dispatched URLs whose entry has a path |
| Gather.FreshMembers | app/server/workflow/gatherInfo.ts:109-111 | the names prepended are exactly the downloaded names absent from the ranking |
| Gather.PrependedReverse | app/server/workflow/gatherInfo.ts:110-126 | the prepended entries are the fresh names in reverse loop order |
| Gather.Boost | app/server/workflow/gatherInfo.ts:108-127 | the `unshift` loop puts the prepended entries in front of the untouched ranking |
| Gather.PrependedFacts | app/server/workflow/gatherInfo.ts:105-127 | each prepended entry is a fresh downloaded name with score 100 and `relevant`; every fresh name gets one; the prefix is ordered |
| Gather.BoostFacts | app/server/workflow/gatherInfo.ts:105-127 | the ranking follows unchanged; each prepended entry scores 100, is relevant and is fresh; every fresh name is prepended; the prefix is ordered |
| Gather.ReadTop | app/server/workflow/gatherInfo.ts:137-150 | the read loop collects the excerpts of the readable top files |
| Gather.ExcerptsFacts | app/server/workflow/gatherInfo.ts:137-150 | each excerpt is the first 20000 characters of a stored top file with that file's score; unreadable files are skipped, and none is skipped when all are stored |
| Gather.TopThree | app/server/workflow/gatherInfo.ts:130 | at most three documents are read |
| Gather.CollapseWsStart | app/server/workflow/gatherInfo.ts:169 | collapsing keeps a leading non-space character as it is and turns leading white space into one space |
| Gather.CollapseWsSpaced | app/server/workflow/gatherInfo.ts:169 | the collapsed text has only plain spaces as white space and never two in a row |
| Gather.DocPartSnippet | app/server/workflow/gatherInfo.ts:166-171 | each document part is its header and a single-spaced snippet of at most 1000 characters |
| Gather.PushDocs | app/server/workflow/gatherInfo.ts:164-172 | the documents section is pushed only when some file was read |
| Gather.PushEach | app/server/workflow/gatherInfo.ts:166-171 | the loop pushes one part per read file, in order |
| Gather.BuildPrompt | app/server/workflow/gatherInfo.ts:154-178 | the pushes and the join give the prompt parts joined with `\n---\n` |
| Gather.PromptLayout | app/server/workflow/gatherInfo.ts:154-176 | the first part is the user query and the last the instruction; the downloads section is present exactly when an entry exists |
| Gather.FinishFacts | app/server/workflow/gatherInfo.ts:97-194 | the call fails exactly when the final completion fails, with its message; otherwise the output holds the query, the first `maxSearch` results, the downloads, the boosted ranking and the answer |
| Gather.GatherOutcome | app/server/workflow/gatherInfo.ts:17-200 | what `gatherInfo` resolves to; its properties are stated by GatherFacts, FinishFacts and DownloadsAreCandidates |
| Gather.GatherFacts | app/server/workflow/gatherInfo.ts:28-199 | an empty prompt fails before any search; otherwise there is one download entry per dispatched URL, in order, and the rest follows from the files after the downloads |
| Gather.DownloadsAreCandidates | app/server/workflow/gatherInfo.ts:63-103 | when `readdir` lists the files stored after the downloads, the ranking's candidates include the `.md` file of every entry with a path and every Markdown file stored before the call |
| Gather.GatherInfo | app/server/workflow/gatherInfo.ts:17-200 | the workflow against the store gives the specified outcome and leaves the files after the downloads; the ranking reads the `docs` listing of those files |
| JsonCache.CacheNames | app/server/get.ts:21-25 | the cache and schema files lie directly in their folders and differ for every URL |
| JsonCache.ReadCached | app/server/get.ts:28-51 | the hit branch: nothing on a miss, else the cached data, a validation error or the import failure |
| JsonCache.ReadThrough | app/server/get.ts:28-68 | the read-through returns the cached or fetched reply, or the rejection of the cache write, and changes the files only on a miss with data whose write succeeds |
| JsonCache.Get | app/server/get.ts:16-69 | `get` is the read-through with method GET and the caller's options, including a rejected cache write |
| JsonCache.Post | app/server/post.ts:17-77 | `post` is the read-through with the POST request, including a rejected cache write |
| JsonCache.Outcome | app/server/get.ts:16-69 | the read-through reply; its properties are stated by HitFacts, MissFacts, HitIgnoresRequest and StoreThenHit |
| JsonCache.HitFacts | app/server/get.ts:28-51 | a hit happens exactly when the cache file exists; it fails exactly when the import throws, gives the validation error exactly when the schema rejects, and otherwise returns the cached data |
| JsonCache.HitIgnoresRequest | app/server/get.ts:28-51 | on a hit the reply does not depend on the request or the fetch, and no file changes |
| JsonCache.PostIgnoresBody | app/server/post.ts:23-53 | a POST to a cached URL gives the same reply whatever the body |
| JsonCache.MissFacts | app/server/get.ts:53-68 | a miss fails exactly when the data is truthy and `saveFile`'s write is rejected, with that message and no file changed; otherwise it returns the fetch's data and error text; it stores the response exactly when the data is truthy and the write succeeds, touching no other file |
| JsonCache.ErrorTextFacts | app/server/get.ts:62-67 | the error text is absent exactly when there is no error, and a string error is kept as it is |
| JsonCache.GetRequestShape | app/server/get.ts:54-58 | the GET request keeps the caller's options, sets the method and moves the schema out |
| JsonCache.PostRequestShape | app/server/post.ts:56-66 | the POST request sets method, serialized body and `no-store`; `Content-Type` is JSON unless the caller's headers set it; other caller options pass through |
| JsonCache.StoreThenHit | app/server/get.ts:28-61 | after a miss with data whose write succeeds and that reads back unchanged, the next call is a hit with that data |
| LogStore.AppendedFacts | app/server/logs/logStore.ts:12-16 | the new entry is last after the kept entries, the buffer holds the last 200, and nothing is dropped while it fits |
| LogStore.NotifiedFacts | app/server/logs/logStore.ts:18-21 | the listeners are called in order with the new entry, each once, up to and including the first that throws |
| LogStore.NotifiedStops | app/server/logs/logStore.ts:20 | once a listener throws, no later listener is called |
| LogStore.AddedFacts | app/server/logs/logStore.ts:37-38 | adding a listener keeps the others, adds it once, and keeps insertion order |
| LogStore.RemovedFacts | app/server/logs/logStore.ts:43 | deleting a listener keeps every other one, keeps the set free of duplicates, and is idempotent |
| LogStore.RemovedAppend | app/server/logs/logStore.ts:43 | deleting the listener just added undoes the add |
| LogStore.UnsubscribedFacts | app/server/logs/logStore.ts:40-45 | unsubscribing removes only that callback from only that id, drops the id when its set empties, and a second call changes nothing |
| LogStore.SubscribeThenUnsubscribe | app/server/logs/logStore.ts:36-46 | subscribing a new callback and calling its unsubscribe restores the listeners |
| LogStore.LogStore.constructor | app/server/logs/logStore.ts:3-5 | the store starts with no buffers, ids or listeners |
| LogStore.LogStore.GetServerLogs | app/server/logs/logStore.ts:24-26 | an unknown id gives `[]`, a known one its buffer of at most 200 entries |
| LogStore.LogStore.ListServerLogIds | app/server/logs/logStore.ts:32-34 | the ids are exactly the stored ones, without duplicates |
| LogStore.LogStore.AddServerLog | app/server/logs/logStore.ts:7-22 | an empty id changes nothing; otherwise only that id's buffer changes, the listeners are notified in order until one throws, and no listener set changes |
| LogStore.LogStore.Notify | app/server/logs/logStore.ts:18-21 | the notify loop makes exactly the specified calls and reports whether one threw |
| LogStore.LogStore.ClearServerLogs | app/server/logs/logStore.ts:28-30 | only that id's buffer is removed |
| LogStore.LogStore.Subscribe | app/server/logs/logStore.ts:36-39 | only that id's listener set changes, by adding the callback |
| LogStore.LogStore.Unsubscribe | app/server/logs/logStore.ts:40-45 | only that id's listener set changes, by removing the callback |
| GetLogs.GetLogs | app/server/logs/getLogs.ts:4-7 | an empty id gives `[]`; any other id gives its buffer; the store is not changed |
| GetLogs.ClearLogs | app/server/logs/getLogs.ts:9-12 | an empty id changes nothing; any other id loses exactly its buffer |
| Log.StatusColorFacts | app/utils/log.ts:14-23 | each colour is exactly one range of non-zero numeric statuses; string, zero and absent statuses are white |
| Log.LineUpToLayout | app/utils/log.ts:28-33 | the line has the pieces in field order, each as built for its field, and a piece exactly for the fields shown |
| Log.LineLayout | app/utils/log.ts:24-33 | the timestamp comes first; method, url and message appear when truthy, extra when present, and status whenever it is given, with its colour |
| Log.Format | app/utils/log.ts:24-33 | the step-wise line building gives the specified line |
| Log.MirrorId | app/utils/log.ts:39-42 | the id a line is mirrored under; its properties are stated by MirrorIdFacts |
| Log.MirrorIdFacts | app/utils/log.ts:39-42 | the mirror id is the first truthy of `extra.logId`, `extra.loggerId` and the current id, and exists exactly when one of them is truthy |
| Log.MirrorEntryFacts | app/utils/log.ts:44-48 | the level is the status as text, or `info` without one; the message defaults to `""`; `extra` is passed through |
| Log.Log | app/utils/log.ts:12-53 | the line is the specified line; the entry is mirrored exactly when an id is found, the listeners see it, a new id is appended to the id order, and a throwing listener is swallowed |

## Left out

- The user interface (`app/page.tsx`, `app/(pages)/page.tsx`, `app/components/*`, `app/hooks/useForm.ts`, `app/styles/*`) is React and styling, not server logic.
- The log streaming route (`app/api/logs/stream/route.ts`) is server-sent events with keep-alive timers, which is transport and timing.
- The model SDK wrappers (`getAiResponse`, `getAiSummary`, `getAiExplanation`, `convertToMarkdown`, `generateImage`) are remote calls. The completion and the Markdown conversion are parameters.
- `fetchWithCache`, zod's `validate`, `quicktypeToZod` and `dynamicImportType` are not part of this model. Their results (a fetch reply, a validity predicate, a module) are parameters.
- Loading and cleaning the page with cheerio (`app/server/web/scrapeWebpage.ts:41-63`) uses a foreign DOM library. The body text and root text it yields are a parameter, so removing comments and non-content elements is not modelled.
- Scrape.ScrapeWebpage: a rejection of `res.text()` or of the DOM step is modelled as the DOM value `DomThrew`. The HTTP response body itself is not modelled.
- Search.GetSearchResults: a rejected `fetchWithCache` is not modelled, because its reply is taken to be a `{data, error}` value. The thrown TypeErrors that are modelled are the reads of properties of null entries.
- Console output, `chalk` and `Date`: Log.Format returns the line as styled pieces, not as the concatenated string with ANSI codes and separating spaces. Timestamps are parameters.
- The `log(...)` calls inside the other operations are not modelled in those operations. `Log.Log` models one call on its own, including how it mirrors into the store.
- Gather.DownloadAll: the download tasks run one after another in dispatch order. The entries are therefore in dispatch order, while the source pushes them in completion order. Two URLs with the same stem can also behave differently when the download tasks really overlap. Membership and the one-entry-per-URL facts hold for every order, but the order-free statement is not made as a permutation.
- Retrieve.Heuristic: the file reads of the fallback run one after another. A read that is rejected for a file that exists is not distinguished from a missing file.
- Gather.Boost: as in the source, `existing` is not updated inside the loop. A name that appears twice among the downloads is therefore prepended twice, and the model keeps that.
- Ranking.SortByScore: `Array.prototype.sort` is modelled as a stable sort function on values, not as an in-place reordering of the array.
- LogStore.LogStore.Notify: callbacks are identities with a "throws" predicate. A callback that re-enters the store while it is notified is not modelled.
- JsonCache.PostRequest: only caller headers given as a plain object are spread. A `Headers` instance or an array of pairs is not modelled.
- Retrieve.CleanEntry: `Number()` is modelled for blank strings and optionally signed decimal integers. Other numerals, including fractions and exponents, read as NaN and so as 0. Non-integer scores are not modelled.
- JsStr.Lower: only ASCII letters are lower-cased. Lengths count Unicode scalar values, not UTF-16 code units.
- UrlKey.Sanitize: a character outside the Basic Multilingual Plane becomes one `-`. The source's regular expression has no `u` flag, so JavaScript replaces each of its two UTF-16 code units and writes `--`.
- The `typeof` checks on query, url and prompt are not modelled beyond the empty string, because the arguments are typed as strings.
- The order in which `readdir` lists `docs/` is a parameter (`Gather.Env.readdir`, a function of the stored files). `Gather.DownloadsAreCandidates` assumes only that the listing shows exactly the stored files.
- `mkdir` is modelled only through its failure (`MkdirFails`). Directories are not part of the file map.
- Search.SearchOutcome, Gather.UrlsOf: the `String(x)` of arbitrary values follows the JSON value model. There are no functions or symbols.
