/**
 * The ranking step shared by both branches of `retrieveSavedInfo`: a stable sort by descending
 * score, then the index-based filter that drops positions from `maxFiles` on and scores below
 * `minScore`.
 */
module Ranking {
  import opened Common

  /** One ranked document. */
  datatype RetrievedFile = RetrievedFile(filename: string, score: int, relevant: bool, snippet: string, reason: string)

  /** The numeric options; None where `typeof option !== "number"`. */
  datatype RankOptions = RankOptions(minScore: Option<int>, maxFiles: Option<int>)

  predicate NonIncreasing(xs: seq<RetrievedFile>) {
    forall i, j :: 0 <= i < j < |xs| ==> xs[i].score >= xs[j].score
  }

  /** Puts `x` after every element scoring at least as much, before the first scoring less. */
  function Insert(sorted: seq<RetrievedFile>, x: RetrievedFile): (r: seq<RetrievedFile>)
    ensures |r| == |sorted| + 1
    decreases |sorted|
  {
    if sorted == [] then [x]
    else if sorted[0].score >= x.score then [sorted[0]] + Insert(sorted[1..], x)
    else [x] + sorted
  }

  lemma {:induction false} InsertPerm(sorted: seq<RetrievedFile>, x: RetrievedFile)
    ensures multiset(Insert(sorted, x)) == multiset(sorted) + multiset{x}
    decreases |sorted|
  {
    if sorted != [] {
      assert sorted == [sorted[0]] + sorted[1..];
      if sorted[0].score >= x.score {
        InsertPerm(sorted[1..], x);
      }
    }
  }

  /**
   * `files.sort((a, b) => b.score - a.score)`: the sort is stable, so it is the insertion of
   * each element, in order, into the sorted prefix before it.
   */
  function SortByScore(xs: seq<RetrievedFile>): seq<RetrievedFile>
    decreases |xs|
  {
    if xs == [] then [] else Insert(SortByScore(xs[..|xs| - 1]), xs[|xs| - 1])
  }

  lemma {:induction false} InsertSorted(sorted: seq<RetrievedFile>, x: RetrievedFile)
    requires NonIncreasing(sorted)
    ensures NonIncreasing(Insert(sorted, x))
    ensures Insert(sorted, x) != [] && (Insert(sorted, x)[0] == x || Insert(sorted, x)[0] == sorted[0])
    decreases |sorted|
  {
    if sorted != [] && sorted[0].score >= x.score {
      var head, tail := sorted[0], Insert(sorted[1..], x);
      InsertSorted(sorted[1..], x);
      assert tail[0].score <= head.score;
      assert Insert(sorted, x) == [head] + tail;
      forall i, j | 0 <= i < j < |tail| + 1 ensures ([head] + tail)[i].score >= ([head] + tail)[j].score {
        assert ([head] + tail)[j] == tail[j - 1];
        if i > 0 {
          assert ([head] + tail)[i] == tail[i - 1];
        }
      }
    } else if sorted != [] {
      assert Insert(sorted, x) == [x] + sorted;
      forall i, j | 0 <= i < j < |sorted| + 1 ensures ([x] + sorted)[i].score >= ([x] + sorted)[j].score {
        assert ([x] + sorted)[j] == sorted[j - 1];
        if i > 0 {
          assert ([x] + sorted)[i] == sorted[i - 1];
        }
      }
    }
  }

  /** The sort yields a non-increasing permutation of its input. */
  lemma {:induction false} SortFacts(xs: seq<RetrievedFile>)
    ensures NonIncreasing(SortByScore(xs))
    ensures multiset(SortByScore(xs)) == multiset(xs)
    ensures |SortByScore(xs)| == |xs|
    decreases |xs|
  {
    if xs != [] {
      var init, x := xs[..|xs| - 1], xs[|xs| - 1];
      var sorted := SortByScore(init);
      assert SortByScore(xs) == Insert(sorted, x);
      SortFacts(init);
      InsertSorted(sorted, x);
      InsertPerm(sorted, x);
      assert multiset(xs) == multiset(init) + multiset{x} by {
        assert xs == init + [x];
      }
    }
  }

  /** The elements with score `v`, in order. */
  function WithScore(xs: seq<RetrievedFile>, v: int): seq<RetrievedFile>
    decreases |xs|
  {
    if xs == [] then []
    else (if xs[0].score == v then [xs[0]] else []) + WithScore(xs[1..], v)
  }

  lemma {:induction false} WithScoreAppend(a: seq<RetrievedFile>, b: seq<RetrievedFile>, v: int)
    ensures WithScore(a + b, v) == WithScore(a, v) + WithScore(b, v)
    decreases |a|
  {
    if a == [] {
      assert a + b == b;
    } else {
      var head := if a[0].score == v then [a[0]] else [];
      assert (a + b)[0] == a[0];
      assert (a + b)[1..] == a[1..] + b;
      WithScoreAppend(a[1..], b, v);
      assert WithScore(a + b, v) == head + WithScore(a[1..] + b, v);
      assert WithScore(a, v) == head + WithScore(a[1..], v);
    }
  }

  lemma {:induction false} WithScoreNone(xs: seq<RetrievedFile>, v: int)
    requires forall i :: 0 <= i < |xs| ==> xs[i].score != v
    ensures WithScore(xs, v) == []
    decreases |xs|
  {
    if xs != [] {
      WithScoreNone(xs[1..], v);
    }
  }

  /** Inserting `x` puts it after every element of equal score already there. */
  lemma {:induction false} InsertStable(sorted: seq<RetrievedFile>, x: RetrievedFile, v: int)
    requires NonIncreasing(sorted)
    ensures WithScore(Insert(sorted, x), v) == WithScore(sorted, v) + WithScore([x], v)
    decreases |sorted|
  {
    if sorted == [] {
    } else if sorted[0].score >= x.score {
      var head, tail := sorted[0], Insert(sorted[1..], x);
      InsertStable(sorted[1..], x, v);
      assert Insert(sorted, x) == [head] + tail;
      WithScoreAppend([head], tail, v);
      assert sorted == [head] + sorted[1..];
      WithScoreAppend([head], sorted[1..], v);
    } else {
      InsertFront(sorted, x, v);
    }
  }

  lemma InsertFront(sorted: seq<RetrievedFile>, x: RetrievedFile, v: int)
    requires NonIncreasing(sorted) && sorted != [] && sorted[0].score < x.score
    ensures WithScore([x] + sorted, v) == WithScore(sorted, v) + WithScore([x], v)
  {
    if x.score == v {
      forall i | 0 <= i < |sorted| ensures sorted[i].score != v {
        assert sorted[i].score <= sorted[0].score;
      }
      WithScoreNone(sorted, v);
    }
    WithScoreAppend([x], sorted, v);
  }

  /** The sort is stable: the elements of any one score keep their input order. */
  lemma {:induction false} SortStable(xs: seq<RetrievedFile>, v: int)
    ensures WithScore(SortByScore(xs), v) == WithScore(xs, v)
    decreases |xs|
  {
    if xs != [] {
      var init, last := xs[..|xs| - 1], xs[|xs| - 1];
      SortStable(init, v);
      SortFacts(init);
      InsertStable(SortByScore(init), last, v);
      assert xs == init + [last];
      WithScoreAppend(init, [last], v);
    }
  }

  /** The filter's test for the element `c` at index `idx`. */
  predicate Keep(c: RetrievedFile, idx: int, opts: RankOptions) {
    && !(opts.maxFiles.Some? && idx >= opts.maxFiles.value)
    && (opts.minScore.Some? ==> c.score >= opts.minScore.value)
  }

  /** `.filter((c, idx) => …)` with the indices counted from `start`. */
  function IndexFilter(xs: seq<RetrievedFile>, opts: RankOptions, start: int): seq<RetrievedFile>
    decreases |xs|
  {
    if xs == [] then []
    else (if Keep(xs[0], start, opts) then [xs[0]] else []) + IndexFilter(xs[1..], opts, start + 1)
  }

  /** The ranking: sort, then the index-based filter. */
  function Rank(files: seq<RetrievedFile>, opts: RankOptions): seq<RetrievedFile> {
    IndexFilter(SortByScore(files), opts, 0)
  }

  /** The first `maxFiles` positions, all of them with no cap; a cap of zero or less keeps none. */
  function Cap(xs: seq<RetrievedFile>, maxFiles: Option<int>): (r: seq<RetrievedFile>)
    ensures r <= xs
  {
    if maxFiles.None? then xs else if maxFiles.value <= 0 then [] else Take(xs, maxFiles.value)
  }

  /** The elements scoring at least `minScore`, in order; all of them with no minimum. */
  function AtLeast(xs: seq<RetrievedFile>, minScore: Option<int>): seq<RetrievedFile>
    decreases |xs|
  {
    if xs == [] then []
    else (if minScore.None? || xs[0].score >= minScore.value then [xs[0]] else []) + AtLeast(xs[1..], minScore)
  }

  lemma {:induction false} IndexFilterCap(xs: seq<RetrievedFile>, opts: RankOptions, start: nat)
    requires opts.maxFiles.Some? && start <= opts.maxFiles.value
    ensures IndexFilter(xs, opts, start) == AtLeast(Cap(xs, Some(opts.maxFiles.value - start)), opts.minScore)
    decreases |xs|
  {
    var m := opts.maxFiles.value - start;
    if xs == [] {
    } else if m == 0 {
      IndexFilterPastCap(xs, opts, start);
    } else {
      IndexFilterCap(xs[1..], opts, start + 1);
      var c := Cap(xs, Some(m));
      assert c == [xs[0]] + Cap(xs[1..], Some(m - 1)) by {
        if m < |xs| {
          assert xs[..m] == [xs[0]] + xs[1..][..m - 1];
        }
      }
      assert c[0] == xs[0] && c[1..] == Cap(xs[1..], Some(m - 1));
    }
  }

  lemma {:induction false} IndexFilterPastCap(xs: seq<RetrievedFile>, opts: RankOptions, start: int)
    requires opts.maxFiles.Some? && start >= opts.maxFiles.value
    ensures IndexFilter(xs, opts, start) == []
    decreases |xs|
  {
    if xs != [] {
      IndexFilterPastCap(xs[1..], opts, start + 1);
    }
  }

  lemma {:induction false} IndexFilterNoCap(xs: seq<RetrievedFile>, opts: RankOptions, start: int)
    requires opts.maxFiles.None?
    ensures IndexFilter(xs, opts, start) == AtLeast(xs, opts.minScore)
    decreases |xs|
  {
    if xs != [] {
      IndexFilterNoCap(xs[1..], opts, start + 1);
    }
  }

  /** The index-based filter caps first and then drops low scores. */
  lemma CapBeforeFilter(xs: seq<RetrievedFile>, opts: RankOptions)
    ensures IndexFilter(xs, opts, 0) == AtLeast(Cap(xs, opts.maxFiles), opts.minScore)
  {
    if opts.maxFiles.None? {
      IndexFilterNoCap(xs, opts, 0);
    } else if opts.maxFiles.value < 0 {
      IndexFilterPastCap(xs, opts, 0);
    } else {
      IndexFilterCap(xs, opts, 0);
    }
  }

  lemma {:induction false} AtLeastFacts(xs: seq<RetrievedFile>, minScore: Option<int>)
    ensures IsSubsequence(AtLeast(xs, minScore), xs)
    ensures |AtLeast(xs, minScore)| <= |xs|
    ensures minScore.Some? ==> forall i :: 0 <= i < |AtLeast(xs, minScore)| ==> AtLeast(xs, minScore)[i].score >= minScore.value
    ensures minScore.None? ==> AtLeast(xs, minScore) == xs
    ensures forall x :: x in AtLeast(xs, minScore) ==> x in xs
    decreases |xs|
  {
    if xs != [] {
      var tail := AtLeast(xs[1..], minScore);
      AtLeastFacts(xs[1..], minScore);
      assert xs == [xs[0]] + xs[1..];
      if minScore.None? || xs[0].score >= minScore.value {
        assert AtLeast(xs, minScore) == [xs[0]] + tail;
        assert ([xs[0]] + tail)[1..] == tail;
      } else {
        assert AtLeast(xs, minScore) == tail;
        SubsequenceSkip(tail, xs);
      }
    }
  }

  lemma {:induction false} SubsequenceTrans<T>(xs: seq<T>, ys: seq<T>, zs: seq<T>)
    requires IsSubsequence(xs, ys) && IsSubsequence(ys, zs)
    ensures IsSubsequence(xs, zs)
    decreases |zs|
  {
    if xs != [] && zs != [] {
      if ys[0] == zs[0] {
        if xs[0] == ys[0] {
          SubsequenceTrans(xs[1..], ys[1..], zs[1..]);
        } else {
          SubsequenceTrans(xs, ys[1..], zs[1..]);
          SubsequenceSkip(xs, zs);
        }
      } else {
        SubsequenceTrans(xs, ys, zs[1..]);
        SubsequenceSkip(xs, zs);
      }
    }
  }

  lemma {:induction false} PrefixSubsequence<T>(xs: seq<T>, ys: seq<T>)
    requires xs <= ys
    ensures IsSubsequence(xs, ys)
    decreases |ys|
  {
    if xs != [] {
      assert xs[1..] <= ys[1..];
      PrefixSubsequence(xs[1..], ys[1..]);
    }
  }

  lemma {:induction false} SubsequenceOrder(xs: seq<RetrievedFile>, ys: seq<RetrievedFile>)
    requires IsSubsequence(xs, ys) && NonIncreasing(ys)
    ensures NonIncreasing(xs)
    ensures forall x :: x in xs ==> x in ys
    decreases |ys|
  {
    if xs != [] {
      if xs[0] == ys[0] {
        SubsequenceOrder(xs[1..], ys[1..]);
        forall i, j | 0 <= i < j < |xs| ensures xs[i].score >= xs[j].score {
          assert xs[j] == xs[1..][j - 1];
          if i == 0 {
            assert xs[j] in ys[1..];
            var k :| 0 <= k < |ys[1..]| && ys[1..][k] == xs[j];
            assert ys[k + 1] == xs[j];
          } else {
            assert xs[i] == xs[1..][i - 1];
          }
        }
        forall x | x in xs ensures x in ys {
          if x != xs[0] {
            assert x in xs[1..];
          }
        }
      } else {
        SubsequenceOrder(xs, ys[1..]);
      }
    }
  }

  /**
   * The ranked list is non-increasing in score, holds at most `maxFiles` entries, only scores of
   * at least `minScore`, and is a subsequence of the sorted list.
   */
  lemma RankFacts(files: seq<RetrievedFile>, opts: RankOptions)
    ensures var r := Rank(files, opts);
      && NonIncreasing(r)
      && IsSubsequence(r, SortByScore(files))
      && (opts.maxFiles.Some? ==> |r| <= if opts.maxFiles.value < 0 then 0 else opts.maxFiles.value)
      && (opts.minScore.Some? ==> forall i :: 0 <= i < |r| ==> r[i].score >= opts.minScore.value)
      && (forall x :: x in r ==> x in files)
  {
    var sorted := SortByScore(files);
    SortFacts(files);
    CapBeforeFilter(sorted, opts);
    var capped := Cap(sorted, opts.maxFiles);
    AtLeastFacts(capped, opts.minScore);
    PrefixSubsequence(capped, sorted);
    SubsequenceTrans(AtLeast(capped, opts.minScore), capped, sorted);
    SubsequenceOrder(Rank(files, opts), sorted);
    forall x | x in Rank(files, opts) ensures x in files {
      assert x in multiset(sorted);
    }
  }

  /** Without a minimum score the ranking is the first `maxFiles` of the sorted list. */
  lemma RankCapOnly(files: seq<RetrievedFile>, maxFiles: Option<int>)
    ensures Rank(files, RankOptions(None, maxFiles)) == Cap(SortByScore(files), maxFiles)
  {
    CapBeforeFilter(SortByScore(files), RankOptions(None, maxFiles));
    AtLeastFacts(Cap(SortByScore(files), maxFiles), None);
  }
}
