/**
 * `scrapeWebpage`: URL guards, response checks, the whitespace normalisation applied to the text
 * the DOM library extracts, and truncation to `maxChars`.
 */
module Scrape {
  import opened Common
  import opened JsStr

  /** The text the DOM library extracts: `$("body").text()` and `$.root().text()`, or a throw. */
  datatype DomText = DomText(body: string, root: string) | DomThrew(message: string)

  /** The one `fetch(url)` the scraper issues: a rejection or a response. */
  datatype PageFetch =
    | FetchThrew(message: string)
    | Response(ok: bool, status: nat, contentType: Option<string>, dom: DomText)

  const DefaultMaxChars: int := 150000

  /** `/^https?:\/\//i.test(url)`. */
  predicate IsHttpUrl(url: string) {
    || (|url| >= 7 && Lower(url[..7]) == "http://")
    || (|url| >= 8 && Lower(url[..8]) == "https://")
  }

  /** The characters of the class `[\t \r]`. */
  predicate IsCtl(c: char) {
    c == '\t' || c == '\U{A0}' || c == '\r'
  }

  /**
   * `s.replace(/[\t \r]+/g, " ")`: each run becomes one space. A control character followed by
   * another one belongs to the same run and is dropped; the last one of a run gives the space.
   */
  function CollapseCtl(s: string): string
    decreases |s|
  {
    if s == [] then [] else CtlHead(s) + CollapseCtl(s[1..])
  }

  /** What the first character contributes: itself, or one space for the last character of a run. */
  function CtlHead(s: string): string
    requires s != []
  {
    if !IsCtl(s[0]) then [s[0]] else if |s| > 1 && IsCtl(s[1]) then [] else " "
  }

  /** `.map(line => line.trim())`. */
  function TrimAll(lines: seq<string>): (r: seq<string>)
    ensures |r| == |lines|
    ensures forall i :: 0 <= i < |lines| ==> r[i] == Trim(lines[i])
  {
    seq(|lines|, i requires 0 <= i < |lines| => Trim(lines[i]))
  }

  /** `.filter(Boolean)` on strings: drops the empty ones. */
  function NonEmpty(lines: seq<string>): (r: seq<string>)
    ensures forall x :: x in r ==> x in lines && x != ""
    ensures forall x :: x in lines && x != "" ==> x in r
    decreases |lines|
  {
    if lines == [] then []
    else (if lines[0] == "" then [] else [lines[0]]) + NonEmpty(lines[1..])
  }

  /** The kept lines are in input order: a subsequence of the lines. */
  lemma {:induction false} NonEmptyInOrder(lines: seq<string>)
    ensures IsSubsequence(NonEmpty(lines), lines)
    decreases |lines|
  {
    if lines != [] {
      var rest := NonEmpty(lines[1..]);
      NonEmptyInOrder(lines[1..]);
      if lines[0] == "" {
        assert NonEmpty(lines) == rest;
        SubsequenceSkip(rest, lines);
      } else {
        assert NonEmpty(lines) == [lines[0]] + rest;
        assert ([lines[0]] + rest)[1..] == rest;
      }
    }
  }

  /** `filter(Boolean)` keeps every non-empty line as often as it occurs and drops only the empty ones. */
  lemma {:induction false} NonEmptyCount(lines: seq<string>)
    ensures |NonEmpty(lines)| == |lines| - multiset(lines)[""]
    ensures multiset(NonEmpty(lines)) == multiset(lines)["" := 0]
    decreases |lines|
  {
    if lines != [] {
      var x, tail := lines[0], lines[1..];
      var rest := NonEmpty(tail);
      NonEmptyCount(tail);
      assert multiset(lines) == multiset{x} + multiset(tail) by {
        assert lines == [x] + tail;
      }
      if x == "" {
        assert NonEmpty(lines) == rest;
      } else {
        assert NonEmpty(lines) == [x] + rest;
        assert multiset([x] + rest) == multiset{x} + multiset(rest);
      }
    }
  }

  /** `.map(CollapseCtl)` */
  function CollapseAll(ps: seq<string>): (r: seq<string>)
    ensures |r| == |ps|
    ensures forall i :: 0 <= i < |ps| ==> r[i] == CollapseCtl(ps[i])
  {
    seq(|ps|, i requires 0 <= i < |ps| => CollapseCtl(ps[i]))
  }

  /** The trimmed, non-empty lines: `text.split("\n").map(trim).filter(Boolean)`. */
  function Lines(text: string): seq<string> {
    NonEmpty(TrimAll(Split(text, '\n')))
  }

  /**
   * The normalisation step: trim the lines, drop the empty ones, join with a blank line, turn each
   * run of tab, NBSP and CR into a space, and trim.
   */
  function NormalizeWhitespace(text: string): string {
    Trim(CollapseCtl(Join(Lines(text), "\n\n")))
  }

  /** `text.length > maxChars ? text.slice(0, maxChars) : text`. */
  function Truncate(text: string, maxChars: int): (r: string)
    ensures r <= text
    ensures maxChars >= 0 ==> |r| <= maxChars
    ensures |text| <= maxChars ==> r == text
    ensures 0 <= maxChars < |text| ==> |r| == maxChars
  {
    if |text| > maxChars then Take(text, maxChars) else text
  }

  /** `$2("body").text() || $2.root().text() || ""`. */
  function Extracted(body: string, root: string): string {
    if body != "" then body else root
  }

  /** `scrapeWebpage(url, {maxChars})` given what the fetch and the DOM library yield. */
  function ScrapeWebpage(url: string, maxChars: Option<int>, page: PageFetch): (r: Result<string, string>)
    ensures url == "" ==> r == Err("URL must be a non-empty string")
    ensures url != "" && !IsHttpUrl(url) ==> r == Err("URL must be an HTTP or HTTPS URL")
    ensures url != "" && IsHttpUrl(url) && page.Response? && !page.ok ==>
              r == Err("HTTP error: " + NatToString(page.status))
    ensures url != "" && IsHttpUrl(url) && page.Response? && page.ok
            && !Includes(page.contentType.GetOr(""), "text/html") ==>
              r == Err("Unsupported content type: " + page.contentType.GetOr(""))
    ensures url != "" && IsHttpUrl(url) && page.FetchThrew? ==> r == Err(page.message)
    ensures url != "" && IsHttpUrl(url) && page.Response? && page.ok
            && Includes(page.contentType.GetOr(""), "text/html") && page.dom.DomThrew? ==>
              r == Err(page.dom.message)
    ensures url != "" && IsHttpUrl(url) && page.Response? && page.ok && page.dom.DomText?
            && Includes(page.contentType.GetOr(""), "text/html") ==>
              && r.Ok?
              && (|NormalizeWhitespace(Extracted(page.dom.body, page.dom.root))| <= maxChars.GetOr(DefaultMaxChars) ==>
                    r.value == NormalizeWhitespace(Extracted(page.dom.body, page.dom.root)))
    ensures r.Ok? ==>
              && IsHttpUrl(url) && page.Response? && page.ok && page.dom.DomText?
              && Includes(page.contentType.GetOr(""), "text/html")
              && r.value <= NormalizeWhitespace(Extracted(page.dom.body, page.dom.root))
              && (maxChars.GetOr(DefaultMaxChars) >= 0 ==> |r.value| <= maxChars.GetOr(DefaultMaxChars))
              && (0 <= maxChars.GetOr(DefaultMaxChars) < |NormalizeWhitespace(Extracted(page.dom.body, page.dom.root))| ==>
                    |r.value| == maxChars.GetOr(DefaultMaxChars))
  {
    if url == "" then Err("URL must be a non-empty string")
    else if !IsHttpUrl(url) then Err("URL must be an HTTP or HTTPS URL")
    else match page
      case FetchThrew(m) => Err(m)
      case Response(ok, status, contentType, dom) =>
        if !ok then Err("HTTP error: " + NatToString(status))
        else
          var ct := contentType.GetOr("");
          if !Includes(ct, "text/html") then Err("Unsupported content type: " + ct)
          else match dom
            case DomThrew(m) => Err(m)
            case DomText(body, root) =>
              var text := NormalizeWhitespace(Extracted(body, root));
              Ok(Truncate(text, maxChars.GetOr(DefaultMaxChars)))
  }

  // ----- The normal form of the whitespace normalisation -----

  /** A paragraph: non-empty, one line, and neither starting nor ending with white space. */
  predicate Clean(p: string) {
    |p| > 0 && '\n' !in p && !IsSpace(p[0]) && !IsSpace(p[|p| - 1])
  }

  predicate AllClean(ps: seq<string>) {
    forall i :: 0 <= i < |ps| ==> Clean(ps[i])
  }

  /** No character of `[\t \r]`. */
  predicate NoCtl(s: string) {
    forall i :: 0 <= i < |s| ==> !IsCtl(s[i])
  }

  predicate AllNoCtl(ps: seq<string>) {
    forall i :: 0 <= i < |ps| ==> NoCtl(ps[i])
  }

  /** Never three newlines in a row. */
  predicate NoTripleNewline(s: string) {
    forall i :: 0 <= i < |s| - 2 ==> !(s[i] == '\n' && s[i + 1] == '\n' && s[i + 2] == '\n')
  }

  /** A trimmed line without newline that is not empty is clean. */
  lemma TrimmedClean(x: string)
    requires '\n' !in x && Trim(x) != ""
    ensures Clean(Trim(x))
  {
  }

  lemma TrimmedLinesClean(parts: seq<string>)
    requires forall i :: 0 <= i < |parts| ==> '\n' !in parts[i]
    ensures AllClean(NonEmpty(TrimAll(parts)))
  {
    var trimmed := TrimAll(parts);
    var ls := NonEmpty(trimmed);
    forall k | 0 <= k < |ls| ensures Clean(ls[k]) {
      var x := ls[k];
      assert x in ls;
      var i :| 0 <= i < |trimmed| && trimmed[i] == x;
      TrimmedClean(parts[i]);
    }
  }

  lemma LinesClean(text: string)
    ensures AllClean(Lines(text))
  {
    SplitParts(text, '\n');
    TrimmedLinesClean(Split(text, '\n'));
  }

  lemma {:induction false} CollapseChars(s: string)
    ensures forall c :: c in CollapseCtl(s) ==> !IsCtl(c) && (c in s || c == ' ')
    decreases |s|
  {
    if s != [] {
      CollapseChars(s[1..]);
    }
  }

  lemma {:induction false} CollapseFirst(s: string)
    requires s != [] && !IsCtl(s[0])
    ensures CollapseCtl(s) != [] && CollapseCtl(s)[0] == s[0]
  {
  }

  lemma {:induction false} CollapseLast(s: string)
    requires s != [] && !IsCtl(s[|s| - 1])
    ensures CollapseCtl(s) != [] && CollapseCtl(s)[|CollapseCtl(s)| - 1] == s[|s| - 1]
    decreases |s|
  {
    if |s| > 1 {
      var t := s[1..];
      assert t[|t| - 1] == s[|s| - 1];
      CollapseLast(t);
    }
  }

  /** Runs never straddle a boundary that ends in a non-control character. */
  lemma {:induction false} CollapseAppend(a: string, b: string)
    requires a == [] || !IsCtl(a[|a| - 1])
    ensures CollapseCtl(a + b) == CollapseCtl(a) + CollapseCtl(b)
    decreases |a|
  {
    if a == [] {
      assert a + b == b;
    } else {
      var t := a[1..];
      assert (a + b)[1..] == t + b;
      assert CtlHead(a + b) == CtlHead(a) by {
        assert (a + b)[0] == a[0];
        if |a| > 1 {
          assert (a + b)[1] == a[1];
        }
      }
      if |a| > 1 {
        assert t[|t| - 1] == a[|a| - 1];
      }
      CollapseAppend(t, b);
    }
  }

  lemma {:induction false} CollapseNoCtl(s: string)
    requires NoCtl(s)
    ensures CollapseCtl(s) == s
    decreases |s|
  {
    if s != [] {
      CollapseNoCtl(s[1..]);
    }
  }

  lemma {:induction false} JoinEnds(ps: seq<string>, sep: string)
    requires |ps| > 0 && forall i :: 0 <= i < |ps| ==> ps[i] != ""
    ensures var j := Join(ps, sep); |j| > 0 && j[0] == ps[0][0] && j[|j| - 1] == ps[|ps| - 1][|ps[|ps| - 1]| - 1]
    decreases |ps|
  {
    if |ps| > 1 {
      JoinEnds(ps[1..], sep);
    }
  }

  lemma {:induction false} CollapseJoin(ps: seq<string>)
    requires AllClean(ps)
    ensures CollapseCtl(Join(ps, "\n\n")) == Join(CollapseAll(ps), "\n\n")
    decreases |ps|
  {
    if |ps| > 1 {
      var p, rest := ps[0], ps[1..];
      assert Clean(p);
      assert AllClean(rest) by {
        forall i | 0 <= i < |rest| ensures Clean(rest[i]) { assert rest[i] == ps[i + 1]; }
      }
      var j := Join(rest, "\n\n");
      assert Join(ps, "\n\n") == p + ("\n\n" + j);
      CollapseAppend(p, "\n\n" + j);
      assert "\n\n" + j == "\n\n" + j;
      CollapseAppend("\n\n", j);
      assert CollapseCtl("\n\n") == "\n\n";
      CollapseJoin(rest);
      assert CollapseAll(ps)[1..] == CollapseAll(rest);
    }
  }

  /** Collapsing keeps a paragraph clean and removes its control characters. */
  lemma CollapseClean(p: string)
    requires Clean(p)
    ensures Clean(CollapseCtl(p)) && NoCtl(CollapseCtl(p))
  {
    CollapseChars(p);
    CollapseFirst(p);
    CollapseLast(p);
    var c := CollapseCtl(p);
    assert '\n' !in c;
    forall i | 0 <= i < |c| ensures !IsCtl(c[i]) {
      assert c[i] in c;
    }
  }

  /** The paragraphs of the normalised text: collapsed, clean lines. */
  function Paragraphs(text: string): seq<string> {
    CollapseAll(Lines(text))
  }

  lemma {:induction false} ParagraphsClean(text: string)
    ensures AllClean(Paragraphs(text)) && AllNoCtl(Paragraphs(text))
  {
    var ls := Lines(text);
    LinesClean(text);
    var ps := Paragraphs(text);
    forall i | 0 <= i < |ps| ensures Clean(ps[i]) && NoCtl(ps[i]) {
      CollapseClean(ls[i]);
    }
  }

  /**
   * The normalised text is its paragraphs joined by exactly one blank line; every paragraph is
   * clean and free of tab, NBSP and CR.
   */
  /** Clean paragraphs joined by blank lines start and end with a non-space: trimming keeps them. */
  lemma JoinTrimmed(ps: seq<string>)
    requires AllClean(ps)
    ensures Trim(Join(ps, "\n\n")) == Join(ps, "\n\n")
  {
    var j := Join(ps, "\n\n");
    if ps != [] {
      assert Clean(ps[0]) && Clean(ps[|ps| - 1]);
      JoinEnds(ps, "\n\n");
    }
    TrimId(j);
  }

  /** The normalised text is its paragraphs joined by exactly one blank line. */
  lemma NormalForm(text: string)
    ensures NormalizeWhitespace(text) == Join(Paragraphs(text), "\n\n")
  {
    var ls := Lines(text);
    LinesClean(text);
    CollapseJoin(ls);
    ParagraphsClean(text);
    JoinTrimmed(Paragraphs(text));
  }

  lemma {:induction false} JoinNoCtl(ps: seq<string>)
    requires AllNoCtl(ps)
    ensures NoCtl(Join(ps, "\n\n"))
  {
    var j := Join(ps, "\n\n");
    forall i | 0 <= i < |j| ensures !IsCtl(j[i]) {
      assert j[i] in j;
      JoinChars(ps, "\n\n", j[i]);
      if exists k :: 0 <= k < |ps| && j[i] in ps[k] {
        var k :| 0 <= k < |ps| && j[i] in ps[k];
        assert NoCtl(ps[k]);
      }
    }
  }

  lemma {:induction false} JoinNoTriple(ps: seq<string>)
    requires AllClean(ps)
    ensures NoTripleNewline(Join(ps, "\n\n"))
    decreases |ps|
  {
    if |ps| > 1 {
      var p, rest := ps[0], ps[1..];
      assert Clean(p);
      assert AllClean(rest) by {
        forall i | 0 <= i < |rest| ensures Clean(rest[i]) { assert rest[i] == ps[i + 1]; }
      }
      var j := Join(rest, "\n\n");
      JoinNoTriple(rest);
      JoinEnds(rest, "\n\n");
      assert Clean(rest[0]);
      assert j[0] != '\n';
      var s := Join(ps, "\n\n");
      assert s == p + "\n\n" + j;
      forall i | 0 <= i < |s| - 2
        ensures !(s[i] == '\n' && s[i + 1] == '\n' && s[i + 2] == '\n')
      {
        if i < |p| {
          assert s[i] == p[i] && p[i] in p;
        } else if i == |p| {
          assert s[i + 2] == j[0];
        } else if i == |p| + 1 {
          assert s[i + 1] == j[0];
        } else {
          var k := i - |p| - 2;
          assert s[i] == j[k] && s[i + 1] == j[k + 1] && s[i + 2] == j[k + 2];
        }
      }
    } else if |ps| == 1 {
      assert Clean(ps[0]);
      assert Join(ps, "\n\n") == ps[0];
      forall i | 0 <= i < |ps[0]| ensures ps[0][i] != '\n' { assert ps[0][i] in ps[0]; }
    }
  }

  /** The normalised text has no tab, CR or NBSP, and never three newlines in a row. */
  lemma NormalizedShape(text: string)
    ensures NoCtl(NormalizeWhitespace(text))
    ensures NoTripleNewline(NormalizeWhitespace(text))
  {
    NormalForm(text);
    ParagraphsClean(text);
    JoinNoCtl(Paragraphs(text));
    JoinNoTriple(Paragraphs(text));
  }

  /** `Split(Join(ps, "\n\n"), '\n')`: each paragraph followed by the empty line between them. */
  function Spread(ps: seq<string>): seq<string>
    decreases |ps|
  {
    if ps == [] then [""]
    else if |ps| == 1 then [ps[0]]
    else [ps[0], ""] + Spread(ps[1..])
  }

  lemma SplitAfter(p: string, j: string)
    requires '\n' !in p
    ensures Split(p + ['\n'] + (['\n'] + j), '\n') == [p] + Split(['\n'] + j, '\n')
  {
    SplitCons(p, '\n', ['\n'] + j);
  }

  lemma SplitBlank(j: string)
    ensures Split(['\n'] + j, '\n') == [""] + Split(j, '\n')
  {
    var e: string := [];
    assert ['\n'] + j == e + ['\n'] + j;
    SplitCons(e, '\n', j);
  }

  /** One line of a split: the part before the first newline, then the empty line. */
  lemma SplitStep(p: string, j: string)
    requires '\n' !in p
    ensures Split(p + "\n\n" + j, '\n') == [p, ""] + Split(j, '\n')
  {
    assert p + "\n\n" + j == p + ['\n'] + (['\n'] + j);
    SplitAfter(p, j);
    SplitBlank(j);
  }

  lemma {:induction false} SplitJoin(ps: seq<string>)
    requires forall i :: 0 <= i < |ps| ==> '\n' !in ps[i]
    ensures Split(Join(ps, "\n\n"), '\n') == Spread(ps)
    decreases |ps|
  {
    if |ps| == 1 {
      SplitNone(ps[0], '\n');
    } else if |ps| > 1 {
      var rest := ps[1..];
      assert forall i :: 0 <= i < |rest| ==> rest[i] == ps[i + 1];
      SplitStep(ps[0], Join(rest, "\n\n"));
      SplitJoin(rest);
    }
  }

  lemma {:induction false} SpreadElems(ps: seq<string>)
    ensures forall i :: 0 <= i < |Spread(ps)| ==> Spread(ps)[i] == "" || Spread(ps)[i] in ps
    decreases |ps|
  {
    if |ps| > 1 {
      SpreadElems(ps[1..]);
      var sp := Spread(ps);
      forall i | 0 <= i < |sp| ensures sp[i] == "" || sp[i] in ps {
        if i >= 2 {
          assert sp[i] == Spread(ps[1..])[i - 2];
          if sp[i] in ps[1..] {
            var k :| 0 <= k < |ps[1..]| && ps[1..][k] == sp[i];
            assert ps[k + 1] == sp[i];
          }
        }
      }
    }
  }

  lemma {:induction false} SpreadTrimmed(ps: seq<string>)
    requires AllClean(ps)
    ensures TrimAll(Spread(ps)) == Spread(ps)
  {
    var sp := Spread(ps);
    SpreadElems(ps);
    var t := TrimAll(sp);
    forall i | 0 <= i < |sp| ensures t[i] == sp[i] {
      if sp[i] != "" {
        var k :| 0 <= k < |ps| && ps[k] == sp[i];
        assert Clean(ps[k]);
        TrimId(sp[i]);
      } else {
        TrimId(sp[i]);
      }
    }
  }

  lemma {:induction false} SpreadNonEmpty(ps: seq<string>)
    requires forall i :: 0 <= i < |ps| ==> ps[i] != ""
    ensures NonEmpty(Spread(ps)) == ps
    decreases |ps|
  {
    if |ps| == 1 {
      assert NonEmpty([ps[0]]) == [ps[0]] + NonEmpty([]);
    } else if |ps| > 1 {
      SpreadNonEmpty(ps[1..]);
      var sp := Spread(ps);
      var tail := Spread(ps[1..]);
      assert sp == [ps[0]] + ([""] + tail);
      assert sp[1..] == [""] + tail;
      assert NonEmpty(sp) == [ps[0]] + NonEmpty(sp[1..]);
      assert sp[1..][1..] == tail;
      assert NonEmpty(sp[1..]) == NonEmpty(tail);
    } else {
      assert NonEmpty([""]) == [] + NonEmpty([]);
    }
  }

  /** Clean paragraphs joined by blank lines split back into the same lines. */
  lemma LinesOfJoin(ps: seq<string>)
    requires AllClean(ps)
    ensures Lines(Join(ps, "\n\n")) == ps
  {
    assert forall i :: 0 <= i < |ps| ==> Clean(ps[i]);
    SplitJoin(ps);
    SpreadTrimmed(ps);
    SpreadNonEmpty(ps);
  }

  /** Normalising normalised text changes nothing. */
  lemma {:induction false} NormalizeIdempotent(text: string)
    ensures NormalizeWhitespace(NormalizeWhitespace(text)) == NormalizeWhitespace(text)
  {
    NormalForm(text);
    ParagraphsClean(text);
    var ps := Paragraphs(text);
    var r := NormalizeWhitespace(text);
    assert r == Join(ps, "\n\n");
    LinesOfJoin(ps);
    assert Lines(r) == ps;
    assert CollapseAll(ps) == ps by {
      forall i | 0 <= i < |ps| ensures CollapseAll(ps)[i] == ps[i] {
        assert NoCtl(ps[i]);
        CollapseNoCtl(ps[i]);
      }
    }
    JoinNoCtl(ps);
    CollapseNoCtl(r);
    assert CollapseCtl(Join(Lines(r), "\n\n")) == r;
    JoinTrimmed(ps);
  }

  /** The text a successful scrape returns has no tab, CR or NBSP, and never three newlines in a row. */
  lemma ScrapedShape(url: string, maxChars: Option<int>, page: PageFetch)
    requires ScrapeWebpage(url, maxChars, page).Ok?
    ensures NoCtl(ScrapeWebpage(url, maxChars, page).value)
    ensures NoTripleNewline(ScrapeWebpage(url, maxChars, page).value)
  {
    var full := NormalizeWhitespace(Extracted(page.dom.body, page.dom.root));
    NormalizedShape(Extracted(page.dom.body, page.dom.root));
    var r := ScrapeWebpage(url, maxChars, page).value;
    assert r <= full;
    forall i | 0 <= i < |r| ensures !IsCtl(r[i]) {
      assert r[i] == full[i];
    }
    forall i | 0 <= i < |r| - 2 ensures !(r[i] == '\n' && r[i + 1] == '\n' && r[i + 2] == '\n') {
      assert r[i] == full[i] && r[i + 1] == full[i + 1] && r[i + 2] == full[i + 2];
    }
  }
}
