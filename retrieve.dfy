/**
 * `retrieveSavedInfo(query, options)`: ranks the Markdown files of the `docs` folder for a query,
 * by asking the model for a JSON ranking and, when that fails, by counting query words.
 */
module Retrieve {
  import opened Common
  import opened JsStr
  import opened Json
  import opened FileStore
  import opened Ranking

  /** One entry of `readdir(docs, { withFileTypes: true })`. */
  datatype DirEntry = DirEntry(name: string, isFile: bool)

  const DocsFolder := "docs"

  /** The candidate documents: the regular files whose name ends in ".md", in listing order. */
  function MdFiles(entries: seq<DirEntry>): (r: seq<string>)
    ensures |r| <= |entries|
    ensures forall i :: 0 <= i < |r| ==> EndsWith(r[i], ".md")
    ensures forall name :: name in r <==> exists e :: e in entries && e.isFile && EndsWith(e.name, ".md") && e.name == name
    decreases |entries|
  {
    if entries == [] then []
    else
      var rest := MdFiles(entries[1..]);
      assert forall e :: e in entries <==> e == entries[0] || e in entries[1..];
      if entries[0].isFile && EndsWith(entries[0].name, ".md") then [entries[0].name] + rest else rest
  }

  /** A `docs` listing that shows, as regular files, exactly the files stored in `docs`. */
  ghost predicate ListsDocs(entries: seq<DirEntry>, files: map<Key, string>) {
    forall n :: (DocsFolder, n) in files <==> exists e :: e in entries && e.isFile && e.name == n
  }

  /** Over such a listing the candidates are exactly the Markdown files stored in `docs`. */
  lemma CandidatesStored(entries: seq<DirEntry>, files: map<Key, string>)
    requires ListsDocs(entries, files)
    ensures forall n :: n in MdFiles(entries) <==> (DocsFolder, n) in files && EndsWith(n, ".md")
  {
    forall n ensures n in MdFiles(entries) <==> (DocsFolder, n) in files && EndsWith(n, ".md") {
      if (DocsFolder, n) in files && EndsWith(n, ".md") {
        var e :| e in entries && e.isFile && e.name == n;
      }
    }
  }

  const PromptIntro := "You are an assistant that ranks documents for a user's query.\nUser query: \""
  const PromptListing := "\"\n\nHere are document filenames (no contents were provided):\n\n"
  const PromptFormat := "\n\nReturn ONLY a JSON array. Each item must be an object with: filename (string), score (integer 0-100), relevant (boolean), snippet (string), reason (string)."

  /** The ranking prompt: the query and the file names, one "- name" line each, and no file contents. */
  function RankingPrompt(query: string, mdFiles: seq<string>): string {
    var sections := Join(seq(|mdFiles|, i requires 0 <= i < |mdFiles| => "- " + mdFiles[i]), "\n");
    PromptIntro + query + PromptListing + sections + PromptFormat
  }

  /** `sub` occurs in `s` at index `i`. */
  predicate SliceAt(s: string, i: int, sub: string) {
    0 <= i && i + |sub| <= |s| && s[i..i + |sub|] == sub
  }

  /** The text from the first `open` to the last `close`, when the last comes after the first. */
  function Candidate(s: string, open: char, close: char): (r: Option<string>)
    ensures r.Some? <==> open in s && close in s && IndexOf(s, open) < LastIndexOf(s, close)
    ensures r.Some? ==> SliceAt(s, IndexOf(s, open), r.value)
    ensures r.Some? ==> |r.value| >= 2 && r.value[0] == open && r.value[|r.value| - 1] == close
  {
    var first, last := IndexOf(s, open), LastIndexOf(s, close);
    if first >= 0 && last > first then Some(s[first..last + 1]) else None
  }

  /**
   * `extractJsonFromString(s)`: the array candidate if `JSON.parse` accepts it, otherwise the
   * object candidate if it accepts that; `parse` is `JSON.parse`, None where it throws.
   */
  function ExtractJson(s: string, parse: string -> Option<Json>): (r: Option<string>)
    ensures r.Some? ==> parse(r.value).Some? && exists i :: SliceAt(s, i, r.value)
    ensures var a, o := Candidate(s, '[', ']'), Candidate(s, '{', '}');
      r.Some? <==> (a.Some? && parse(a.value).Some?) || (o.Some? && parse(o.value).Some?)
    ensures var a := Candidate(s, '[', ']');
      a.Some? && parse(a.value).Some? ==> r == a
    ensures var a, o := Candidate(s, '[', ']'), Candidate(s, '{', '}');
      !(a.Some? && parse(a.value).Some?) && o.Some? && parse(o.value).Some? ==> r == o
    ensures r.Some? ==> |r.value| >= 2 && r.value[0] in "[{"
  {
    if s == "" then None
    else
      var a := Candidate(s, '[', ']');
      if a.Some? && parse(a.value).Some? then a
      else
        var o := Candidate(s, '{', '}');
        if o.Some? && parse(o.value).Some? then o else None
  }

  /** One element of the model's array, read field by field as the source does. */
  function CleanEntry(r: Json): (f: RetrievedFile)
    ensures !Truthy(Get(r, "filename")) ==> f.filename == ""
    ensures Truthy(Get(r, "filename")) && Get(r, "filename").value.JStr? ==> f.filename == Get(r, "filename").value.s
    ensures ToNumber(Get(r, "score")).None? ==> f.score == 0
    ensures ToNumber(Get(r, "score")).Some? ==> f.score == ToNumber(Get(r, "score")).value
    ensures f.relevant <==> Truthy(Get(r, "relevant"))
    ensures |f.snippet| <= 400 && f.snippet <= StrOrEmpty(Get(r, "snippet"))
    ensures |StrOrEmpty(Get(r, "snippet"))| <= 400 ==> f.snippet == StrOrEmpty(Get(r, "snippet"))
    ensures !Truthy(Get(r, "reason")) ==> f.reason == ""
    ensures Truthy(Get(r, "reason")) && Get(r, "reason").value.JStr? ==> f.reason == Get(r, "reason").value.s
  {
    RetrievedFile(
      StrOrEmpty(Get(r, "filename")),
      NumberOrZero(Get(r, "score")),
      Truthy(Get(r, "relevant")),
      Take(StrOrEmpty(Get(r, "snippet")), 400),
      StrOrEmpty(Get(r, "reason")))
  }

  /** `parsed.map(r => …)`: reading a property of a `null` element throws (None). */
  function CleanAll(xs: seq<Json>): (r: Option<seq<RetrievedFile>>)
    ensures r.None? <==> JNull in xs
    ensures r.Some? ==> |r.value| == |xs| && forall i :: 0 <= i < |xs| ==> r.value[i] == CleanEntry(xs[i])
  {
    if JNull in xs then None else Some(seq(|xs|, i requires 0 <= i < |xs| => CleanEntry(xs[i])))
  }

  // The heuristic fallback

  /** The longest prefix of `s` without white space. */
  function Run(s: string): (r: string)
    ensures r <= s
    ensures forall i :: 0 <= i < |r| ==> !IsSpace(r[i])
    ensures s != [] && !IsSpace(s[0]) ==> r != []
    decreases |s|
  {
    if s == [] || IsSpace(s[0]) then [] else [s[0]] + Run(s[1..])
  }

  /** `s.split(/\s+/).filter(Boolean)`: the maximal runs of non-white-space characters. */
  function Words(s: string): seq<string>
    decreases |s|
  {
    var t := TrimStart(s);
    if t == [] then [] else var w := Run(t); [w] + Words(t[|w|..])
  }

  /** The query words: `query.toLowerCase().split(/\s+/).filter(Boolean)`. */
  function Tokens(query: string): seq<string> {
    Words(Lower(query))
  }

  /**
   * `hay.match(new RegExp(escaped t, "g"))?.length ?? 0`: the escaping makes `t` a literal, so
   * this counts the non-overlapping occurrences found left to right. The empty pattern matches
   * at every position.
   */
  function Occurrences(hay: string, t: string): nat
    decreases |hay|
  {
    if t == [] then |hay| + 1
    else if |hay| < |t| then 0
    else if StartsWith(hay, t) then 1 + Occurrences(hay[|t|..], t)
    else Occurrences(hay[1..], t)
  }

  /** The sum of the occurrence counts of all tokens. */
  function TotalMatches(hay: string, tokens: seq<string>): nat
    decreases |tokens|
  {
    if tokens == [] then 0
    else TotalMatches(hay, tokens[..|tokens| - 1]) + Occurrences(hay, tokens[|tokens| - 1])
  }

  /** `Math.min(100, Math.round(count * 10))`. */
  function ScoreOf(count: nat): nat {
    if 10 * count < 100 then 10 * count else 100
  }

  /** The text searched for one file: its name, a newline and the first 1000 characters, lower-cased. */
  function Haystack(filename: string, content: string): string {
    Lower(filename + "\n" + content)
  }

  /** The heuristic's entry for one file, given its first 1000 characters. */
  function ScoreFile(filename: string, content: string, tokens: seq<string>): RetrievedFile {
    var count := TotalMatches(Haystack(filename, content), tokens);
    var score := ScoreOf(count);
    RetrievedFile(filename, score, score > 0, Take(content, 300),
      "Fallback: " + NatToString(count) + " match(es) across filename + snippet")
  }

  /** The loop over the tokens that scores one file. */
  method ScoreOne(filename: string, content: string, tokens: seq<string>) returns (f: RetrievedFile)
    ensures f == ScoreFile(filename, content, tokens)
  {
    var lower := Haystack(filename, content);
    var count: nat := 0;
    for i := 0 to |tokens|
      invariant count == TotalMatches(lower, tokens[..i])
    {
      assert tokens[..i + 1][..i] == tokens[..i];
      count := count + Occurrences(lower, tokens[i]);
    }
    assert tokens[..|tokens|] == tokens;
    var score := ScoreOf(count);
    f := RetrievedFile(filename, score, score > 0, Take(content, 300),
      "Fallback: " + NatToString(count) + " match(es) across filename + snippet");
  }

  /** `readFile(join(docs, filename)).slice(0, 1000)`, or "" where the read throws. */
  function FileContent(files: map<Key, string>, filename: string): string {
    if (DocsFolder, filename) in files then Take(files[(DocsFolder, filename)], 1000) else ""
  }

  /** `heuristicFallback(mdFiles, query, docs, options)`. */
  function Heuristic(mdFiles: seq<string>, query: string, files: map<Key, string>, opts: RankOptions): seq<RetrievedFile> {
    var tokens := Tokens(query);
    Rank(seq(|mdFiles|, i requires 0 <= i < |mdFiles| => ScoreFile(mdFiles[i], FileContent(files, mdFiles[i]), tokens)), opts)
  }

  /** The ranking read from the model's parsed JSON: only an array of non-null elements is ranked. */
  function FromParsed(parsed: Option<Json>, mdFiles: seq<string>, query: string, files: map<Key, string>,
                      opts: RankOptions): seq<RetrievedFile>
  {
    match parsed
    case Some(JArr(xs)) =>
      (match CleanAll(xs)
       case None => Heuristic(mdFiles, query, files, opts)
       case Some(cleaned) => Rank(cleaned, opts))
    case _ => []
  }

  /** The ranking read from the model's reply; a throw or a reply without JSON falls back. */
  function FromReply(reply: AiReply, mdFiles: seq<string>, query: string, files: map<Key, string>,
                     opts: RankOptions, parse: string -> Option<Json>): seq<RetrievedFile>
  {
    match reply
    case AiThrew(_) => Heuristic(mdFiles, query, files, opts)
    case AiText(text) =>
      match ExtractJson(text, parse)
      case None => Heuristic(mdFiles, query, files, opts)
      case Some(jsonText) => FromParsed(parse(jsonText), mdFiles, query, files, opts)
  }

  /**
   * `retrieveSavedInfo(query, options)`. `listing` is what `readdir` returns (None where it
   * throws), `files` the stored files, `ai` the completion and `parse` is `JSON.parse`.
   */
  function RetrieveSavedInfo(query: string, opts: RankOptions, listing: Option<seq<DirEntry>>,
                             files: map<Key, string>, ai: string -> AiReply,
                             parse: string -> Option<Json>): seq<RetrievedFile>
  {
    match listing
    case None => []
    case Some(entries) =>
      var mdFiles := MdFiles(entries);
      if mdFiles == [] then [] else FromReply(ai(RankingPrompt(query, mdFiles)), mdFiles, query, files, opts, parse)
  }

  // Properties

  lemma {:induction false} RunLength(s: string)
    ensures |Run(s)| < |s| ==> IsSpace(s[|Run(s)|])
    decreases |s|
  {
    if s != [] && !IsSpace(s[0]) {
      RunLength(s[1..]);
    }
  }

  /** Every word is non-empty and free of white space. */
  lemma {:induction false} WordsFacts(s: string)
    ensures forall k :: 0 <= k < |Words(s)| ==> Words(s)[k] != [] && forall i :: 0 <= i < |Words(s)[k]| ==> !IsSpace(Words(s)[k][i])
    decreases |s|
  {
    var t := TrimStart(s);
    if t != [] {
      var w := Run(t);
      WordsFacts(t[|w|..]);
      var ws := Words(t[|w|..]);
      assert Words(s) == [w] + ws;
      forall k | 0 <= k < |ws| + 1 ensures ([w] + ws)[k] != [] && forall i :: 0 <= i < |([w] + ws)[k]| ==> !IsSpace(([w] + ws)[k][i]) {
        if k > 0 {
          assert ([w] + ws)[k] == ws[k - 1];
        }
      }
    }
  }

  /** A string has no words exactly when it is all white space. */
  lemma WordsBlank(s: string)
    ensures (forall i :: 0 <= i < |s| ==> IsSpace(s[i])) <==> Words(s) == []
  {
    var t := TrimStart(s);
    if t != [] {
      var k := |s| - |t|;
      assert t[0] == s[k];
      assert !IsSpace(s[k]) && 0 <= k < |s|;
      assert Words(s) != [];
    } else {
      assert Words(s) == [];
      assert forall i :: 0 <= i < |s| - |t| ==> IsSpace(s[i]);
    }
  }

  lemma LowerSpace(s: string)
    ensures (forall i :: 0 <= i < |s| ==> IsSpace(s[i])) <==> (forall i :: 0 <= i < |Lower(s)| ==> IsSpace(Lower(s)[i]))
  {
    var l := Lower(s);
    forall i | 0 <= i < |s| ensures IsSpace(s[i]) <==> IsSpace(l[i]) {
      assert l[i] == LowerChar(s[i]);
    }
  }

  /** The tokens are non-empty and free of white space; a blank query has none. */
  lemma TokensFacts(query: string)
    ensures forall k :: 0 <= k < |Tokens(query)| ==> Tokens(query)[k] != []
    ensures forall k, i :: 0 <= k < |Tokens(query)| && 0 <= i < |Tokens(query)[k]| ==>
      !IsSpace(Tokens(query)[k][i])
    ensures (forall i :: 0 <= i < |query| ==> IsSpace(query[i])) <==> Tokens(query) == []
  {
    var l := Lower(query);
    var ws := Words(l);
    assert Tokens(query) == ws;
    WordsFacts(l);
    assert (forall i :: 0 <= i < |l| ==> IsSpace(l[i])) <==> ws == [] by {
      WordsBlank(l);
    }
    assert (forall i :: 0 <= i < |query| ==> IsSpace(query[i])) <==> (forall i :: 0 <= i < |l| ==> IsSpace(l[i])) by {
      LowerSpace(query);
    }
  }

  /** A non-empty token is counted at least once exactly when it occurs in the text. */
  lemma {:induction false} OccurrencesIncludes(hay: string, t: string)
    requires t != []
    ensures Occurrences(hay, t) > 0 <==> Includes(hay, t)
    decreases |hay|
  {
    if |hay| < |t| {
      NotIncludedShort(hay, t);
    } else if StartsWith(hay, t) {
      OccurrencesIncludes(hay[|t|..], t);
    } else {
      OccurrencesIncludes(hay[1..], t);
    }
  }

  /** The counted occurrences do not overlap, so they fit in the text. */
  lemma {:induction false} OccurrencesFit(hay: string, t: string)
    requires t != []
    ensures Occurrences(hay, t) * |t| <= |hay|
    decreases |hay|
  {
    if |hay| >= |t| {
      if StartsWith(hay, t) {
        var rest := hay[|t|..];
        OccurrencesFit(rest, t);
        FitStep(Occurrences(rest, t), |t|, |hay|);
      } else {
        OccurrencesFit(hay[1..], t);
      }
    }
  }

  /** One more occurrence of length `m` fits when the others fit in the remaining `len - m`. */
  lemma FitStep(n: nat, m: nat, len: nat)
    requires m <= len && n * m <= len - m
    ensures (1 + n) * m <= len
  {
    assert (1 + n) * m == m + n * m;
  }

  lemma {:induction false} NotIncludedShort(hay: string, t: string)
    requires t != [] && |hay| < |t|
    ensures !Includes(hay, t)
    decreases |hay|
  {
    if hay != [] {
      NotIncludedShort(hay[1..], t);
    }
  }

  lemma {:induction false} TotalMatchesPositive(hay: string, tokens: seq<string>)
    ensures TotalMatches(hay, tokens) > 0 <==> exists k :: 0 <= k < |tokens| && Occurrences(hay, tokens[k]) > 0
    decreases |tokens|
  {
    if tokens != [] {
      var init := tokens[..|tokens| - 1];
      TotalMatchesPositive(hay, init);
      forall k | 0 <= k < |init| ensures init[k] == tokens[k] {
      }
    }
  }

  /**
   * A file's heuristic score is 10 per match, at most 100; it is relevant exactly when some query
   * word occurs in its lower-cased name or first 1000 characters, and its snippet is the first
   * 300 characters.
   */
  lemma HeuristicScore(filename: string, content: string, query: string)
    ensures var f := ScoreFile(filename, content, Tokens(query));
      var count := TotalMatches(Haystack(filename, content), Tokens(query));
      && f.filename == filename
      && 0 <= f.score <= 100
      && f.score == (if count >= 10 then 100 else 10 * count)
      && (f.relevant <==> f.score > 0)
      && (f.relevant <==> exists k :: 0 <= k < |Tokens(query)| && Includes(Haystack(filename, content), Tokens(query)[k]))
      && f.snippet == Take(content, 300)
  {
    var tokens, hay := Tokens(query), Haystack(filename, content);
    TokensFacts(query);
    TotalMatchesPositive(hay, tokens);
    forall k | 0 <= k < |tokens| ensures Occurrences(hay, tokens[k]) > 0 <==> Includes(hay, tokens[k]) {
      OccurrencesIncludes(hay, tokens[k]);
    }
  }

  /** A file in which some token occurs scores strictly above one in which none does. */
  lemma MatchBeatsNoMatch(file1: string, content1: string, file2: string, content2: string, query: string)
    requires exists k :: 0 <= k < |Tokens(query)| && Includes(Haystack(file1, content1), Tokens(query)[k])
    requires forall k :: 0 <= k < |Tokens(query)| ==> !Includes(Haystack(file2, content2), Tokens(query)[k])
    ensures ScoreFile(file1, content1, Tokens(query)).score > ScoreFile(file2, content2, Tokens(query)).score
  {
    HeuristicScore(file1, content1, query);
    HeuristicScore(file2, content2, query);
  }

  /** A blank query scores every file 0. */
  lemma BlankQuery(filename: string, content: string, query: string)
    requires forall i :: 0 <= i < |query| ==> IsSpace(query[i])
    ensures ScoreFile(filename, content, Tokens(query)).score == 0
    ensures !ScoreFile(filename, content, Tokens(query)).relevant
  {
    TokensFacts(query);
  }

  /** Sorted by descending score, within `maxFiles` and `minScore`, snippets of at most 400 characters. */
  predicate WithinOptions(r: seq<RetrievedFile>, opts: RankOptions) {
    && NonIncreasing(r)
    && (opts.maxFiles.Some? ==> |r| <= if opts.maxFiles.value < 0 then 0 else opts.maxFiles.value)
    && (opts.minScore.Some? ==> forall i :: 0 <= i < |r| ==> r[i].score >= opts.minScore.value)
    && (forall i :: 0 <= i < |r| ==> |r[i].snippet| <= 400)
  }

  lemma RankWithin(files: seq<RetrievedFile>, opts: RankOptions)
    requires forall i :: 0 <= i < |files| ==> |files[i].snippet| <= 400
    ensures WithinOptions(Rank(files, opts), opts)
  {
    RankFacts(files, opts);
    var r := Rank(files, opts);
    forall i | 0 <= i < |r| ensures |r[i].snippet| <= 400 {
      assert r[i] in files;
    }
  }

  /** The fallback ranks every listed file (up to `maxFiles`), with snippets of at most 300 characters. */
  lemma HeuristicFacts(mdFiles: seq<string>, query: string, files: map<Key, string>, opts: RankOptions)
    ensures var r := Heuristic(mdFiles, query, files, opts);
      && WithinOptions(r, opts)
      && (forall i :: 0 <= i < |r| ==> r[i].filename in mdFiles && 0 <= r[i].score <= 100 && |r[i].snippet| <= 300)
      && (opts == RankOptions(None, None) ==> |r| == |mdFiles|)
  {
    var tokens := Tokens(query);
    var scored := seq(|mdFiles|, i requires 0 <= i < |mdFiles| => ScoreFile(mdFiles[i], FileContent(files, mdFiles[i]), tokens));
    assert forall i :: 0 <= i < |scored| ==> |scored[i].snippet| <= 300;
    RankWithin(scored, opts);
    RankFacts(scored, opts);
    var r := Heuristic(mdFiles, query, files, opts);
    forall i | 0 <= i < |r| ensures r[i].filename in mdFiles && 0 <= r[i].score <= 100 && |r[i].snippet| <= 300 {
      assert r[i] in scored;
    }
    if opts == RankOptions(None, None) {
      RankCapOnly(scored, None);
      SortFacts(scored);
    }
  }

  /** How the outcome is chosen: which failures fall back to the heuristic and which give []. */
  lemma RetrieveRoutes(query: string, opts: RankOptions, listing: Option<seq<DirEntry>>,
                       files: map<Key, string>, ai: string -> AiReply, parse: string -> Option<Json>)
    ensures var r := RetrieveSavedInfo(query, opts, listing, files, ai, parse);
      && (listing.None? ==> r == [])
      && (listing.Some? && MdFiles(listing.value) == [] ==> r == [])
      && (listing.Some? && MdFiles(listing.value) != [] ==>
            var md := MdFiles(listing.value);
            var reply := ai(RankingPrompt(query, md));
            && (reply.AiThrew? ==> r == Heuristic(md, query, files, opts))
            && (reply.AiText? && ExtractJson(reply.text, parse).None? ==> r == Heuristic(md, query, files, opts))
            && (reply.AiText? && ExtractJson(reply.text, parse).Some? ==>
                  var parsed := parse(ExtractJson(reply.text, parse).value).value;
                  && (!parsed.JArr? ==> r == [])
                  && (parsed.JArr? && JNull in parsed.items ==> r == Heuristic(md, query, files, opts))
                  && (parsed.JArr? && JNull !in parsed.items ==> r == Rank(CleanAll(parsed.items).value, opts))))
  {
  }

  lemma FromParsedWithin(parsed: Option<Json>, mdFiles: seq<string>, query: string, files: map<Key, string>,
                          opts: RankOptions)
    ensures WithinOptions(FromParsed(parsed, mdFiles, query, files, opts), opts)
  {
    if parsed.Some? && parsed.value.JArr? {
      var xs := parsed.value.items;
      if JNull in xs {
        HeuristicFacts(mdFiles, query, files, opts);
      } else {
        RankWithin(CleanAll(xs).value, opts);
      }
    }
  }

  lemma FromReplyWithin(reply: AiReply, mdFiles: seq<string>, query: string, files: map<Key, string>,
                        opts: RankOptions, parse: string -> Option<Json>)
    ensures WithinOptions(FromReply(reply, mdFiles, query, files, opts, parse), opts)
  {
    if reply.AiThrew? || ExtractJson(reply.text, parse).None? {
      HeuristicFacts(mdFiles, query, files, opts);
    } else {
      FromParsedWithin(parse(ExtractJson(reply.text, parse).value), mdFiles, query, files, opts);
    }
  }

  /**
   * On every path the result is sorted by descending score, holds at most `maxFiles` entries and
   * no score below `minScore`, and every snippet is at most 400 characters.
   */
  lemma RetrieveFacts(query: string, opts: RankOptions, listing: Option<seq<DirEntry>>,
                      files: map<Key, string>, ai: string -> AiReply, parse: string -> Option<Json>)
    ensures WithinOptions(RetrieveSavedInfo(query, opts, listing, files, ai, parse), opts)
  {
    if listing.Some? && MdFiles(listing.value) != [] {
      var md := MdFiles(listing.value);
      FromReplyWithin(ai(RankingPrompt(query, md)), md, query, files, opts, parse);
    }
  }
}
