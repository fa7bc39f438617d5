/**
 * Cache keys and file names derived from a URL: `normalizeUrl` and the second, safe-character
 * step that `webdownloadPage` and `gatherInfo` apply to it.
 */
module UrlKey {
  import opened JsStr

  /** `s.replace(/x/g, rep)` for a one-character pattern `x`. */
  function ReplaceAll(s: string, x: char, rep: string): string
    decreases |s|
  {
    if s == [] then [] else (if s[0] == x then rep else [s[0]]) + ReplaceAll(s[1..], x, rep)
  }

  /** `normalizeUrl(url)`: every "-" is doubled, then every "/" becomes "-". */
  function NormalizeUrl(url: string): string {
    ReplaceAll(ReplaceAll(url, '-', "--"), '/', "-")
  }

  /** What one character of the URL turns into. */
  function Escape(c: char): string {
    if c == '-' then "--" else if c == '/' then "-" else [c]
  }

  /** The URL escaped one character at a time, left to right. */
  function EscapeEach(s: string): string
    decreases |s|
  {
    if s == [] then [] else Escape(s[0]) + EscapeEach(s[1..])
  }

  /** How many times `c` occurs in `s`. */
  function Count(s: string, c: char): nat
    decreases |s|
  {
    if s == [] then 0 else (if s[0] == c then 1 else 0) + Count(s[1..], c)
  }

  lemma {:induction false} CountAppend(a: string, b: string, c: char)
    ensures Count(a + b, c) == Count(a, c) + Count(b, c)
    decreases |a|
  {
    if a != [] {
      assert (a + b)[1..] == a[1..] + b;
      CountAppend(a[1..], b, c);
    } else {
      assert a + b == b;
    }
  }

  lemma {:induction false} ReplaceAllAppend(a: string, b: string, x: char, rep: string)
    ensures ReplaceAll(a + b, x, rep) == ReplaceAll(a, x, rep) + ReplaceAll(b, x, rep)
    decreases |a|
  {
    if a != [] {
      assert (a + b)[1..] == a[1..] + b;
      ReplaceAllAppend(a[1..], b, x, rep);
    } else {
      assert a + b == b;
    }
  }

  /** The two chained replacements act character by character: "-" gives "--", "/" gives "-". */
  lemma {:induction false} NormalizeUrlPerChar(url: string)
    ensures NormalizeUrl(url) == EscapeEach(url)
    decreases |url|
  {
    if url != [] {
      var c, rest := url[0], url[1..];
      assert url == [c] + rest;
      ReplaceAllAppend([c], rest, '-', "--");
      var once := if c == '-' then "--" else [c];
      assert ReplaceAll([c], '-', "--") == once;
      ReplaceAllAppend(once, ReplaceAll(rest, '-', "--"), '/', "-");
      if c == '-' {
        assert ReplaceAll("--", '/', "-") == "--";
      }
      assert ReplaceAll(once, '/', "-") == Escape(c);
      NormalizeUrlPerChar(rest);
    }
  }

  /** `normalizeUrl` distributes over concatenation. */
  lemma {:induction false} NormalizeUrlAppend(a: string, b: string)
    ensures NormalizeUrl(a + b) == NormalizeUrl(a) + NormalizeUrl(b)
  {
    ReplaceAllAppend(a, b, '-', "--");
    ReplaceAllAppend(ReplaceAll(a, '-', "--"), ReplaceAll(b, '-', "--"), '/', "-");
  }

  lemma {:induction false} EscapeEachFacts(s: string)
    ensures '/' !in EscapeEach(s)
    ensures |EscapeEach(s)| == |s| + Count(s, '-')
    ensures '-' !in s && '/' !in s ==> EscapeEach(s) == s
    decreases |s|
  {
    if s != [] {
      EscapeEachFacts(s[1..]);
    }
  }

  /** The output never contains "/". */
  lemma NormalizeUrlNoSlash(url: string)
    ensures '/' !in NormalizeUrl(url)
  {
    NormalizeUrlPerChar(url);
    EscapeEachFacts(url);
  }

  /** Each "-" adds one character; nothing else changes the length. */
  lemma NormalizeUrlLength(url: string)
    ensures |NormalizeUrl(url)| == |url| + Count(url, '-')
  {
    NormalizeUrlPerChar(url);
    EscapeEachFacts(url);
  }

  /** A URL without "-" and "/" is its own key. */
  lemma NormalizeUrlIdentity(url: string)
    requires '-' !in url && '/' !in url
    ensures NormalizeUrl(url) == url
  {
    NormalizeUrlPerChar(url);
    EscapeEachFacts(url);
  }

  /** `normalizeUrl` is not injective: "a//" and "a-" share the key "a--". */
  lemma NormalizeUrlCollision()
    ensures NormalizeUrl("a//") == NormalizeUrl("a-") == "a--"
  {
    NormalizeUrlPerChar("a//");
    NormalizeUrlPerChar("a-");
    assert EscapeEach("a//") == "a" + EscapeEach("//");
    assert EscapeEach("//") == "-" + EscapeEach("/");
    assert EscapeEach("a-") == "a" + EscapeEach("-");
  }

  /** The characters kept by `/[^a-zA-Z0-9_.-]/g`. */
  predicate IsSafeChar(c: char) {
    ('a' <= c <= 'z') || ('A' <= c <= 'Z') || ('0' <= c <= '9') || c == '_' || c == '.' || c == '-'
  }

  /** `s.replace(/[^a-zA-Z0-9_.-]/g, "-")`. */
  function Sanitize(s: string): (r: string)
    ensures |r| == |s|
    ensures forall i :: 0 <= i < |s| ==> r[i] == if IsSafeChar(s[i]) then s[i] else '-'
  {
    seq(|s|, i requires 0 <= i < |s| => if IsSafeChar(s[i]) then s[i] else '-')
  }

  /** The stem of the files stored for a URL. */
  function SafeStem(url: string): string {
    Sanitize(NormalizeUrl(url))
  }

  /** The stem holds only safe characters and is as long as the normalized URL. */
  lemma SafeStemFacts(url: string)
    ensures var stem := SafeStem(url);
      && |stem| == |NormalizeUrl(url)| == |url| + Count(url, '-')
      && (forall i :: 0 <= i < |stem| ==> IsSafeChar(stem[i]))
      && (forall i :: 0 <= i < |stem| && IsSafeChar(NormalizeUrl(url)[i]) ==> stem[i] == NormalizeUrl(url)[i])
  {
    NormalizeUrlLength(url);
  }

  /** Sanitizing twice is sanitizing once. */
  lemma SanitizeIdempotent(s: string)
    ensures Sanitize(Sanitize(s)) == Sanitize(s)
  {
  }

  /** The Markdown file name `${safe}.md`. */
  function MdName(url: string): string {
    SafeStem(url) + ".md"
  }

  /** The raw-text file name `${safe}.txt`. */
  function TxtName(url: string): string {
    SafeStem(url) + ".txt"
  }

  /** The two files of one URL never share a name. */
  lemma MdTxtDistinct(url: string)
    ensures MdName(url) != TxtName(url)
  {
    var n := |SafeStem(url)|;
    assert MdName(url)[n + 1] == 'm' && TxtName(url)[n + 1] == 't';
  }
}
