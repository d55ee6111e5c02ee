/** `_backfill_chunks`: packing neighbouring chunks into as few pages as possible. */
module PagePacking {
  import opened TextUnits

  const BLANK_LINE := "\n\n"

  function Page(group: seq<string>): (s: string) { Join(BLANK_LINE, group) }

  function PagesOf(groups: seq<seq<string>>): (pages: seq<string>)
    ensures |pages| == |groups|
    ensures forall i :: 0 <= i < |groups| ==> pages[i] == Page(groups[i])
  {
    if groups == [] then [] else [Page(groups[0])] + PagesOf(groups[1..])
  }

  /** One way to put `chunks`, in order, on pages that fit. */
  predicate Packs(groups: seq<seq<string>>, chunks: seq<string>, u: Unit, limit: int)
  {
    && Flatten(groups) == chunks
    && (forall i :: 0 <= i < |groups| ==> groups[i] != [] && Measure(u, Page(groups[i])) <= limit)
  }

  /** How many leading chunks go on the page that already holds `n` of them. */
  function Fill(chunks: seq<string>, n: nat, u: Unit, limit: int): (m: nat)
    requires 0 < n <= |chunks|
    ensures n <= m <= |chunks|
    ensures forall k :: n < k <= m ==> Measure(u, Page(chunks[..k])) <= limit
    ensures m < |chunks| ==> Measure(u, Page(chunks[..m + 1])) > limit
    decreases |chunks| - n
  {
    if n < |chunks| && Measure(u, Page(chunks[..n + 1])) <= limit then Fill(chunks, n + 1, u, limit) else n
  }

  function Greedy(chunks: seq<string>, u: Unit, limit: int): (groups: seq<seq<string>>)
    decreases |chunks|
  {
    if chunks == [] then []
    else
      var n := Fill(chunks, 1, u, limit);
      [chunks[..n]] + Greedy(chunks[n..], u, limit)
  }

  lemma PageOfSlice(group: seq<string>, i: nat, j: nat, u: Unit)
    requires i < j <= |group|
    ensures Measure(u, Page(group[i..j])) <= Measure(u, Page(group))
    ensures (i > 0 || j < |group|) ==> Measure(u, Page(group[i..j])) < Measure(u, Page(group))
  {
    MeasureAtLeastLength(u, BLANK_LINE);
    if j < |group| {
      assert group == group[..j] + group[j..];
      MeasureJoinAppend(u, BLANK_LINE, group[..j], group[j..]);
    } else {
      assert group[..j] == group;
    }
    if i > 0 {
      assert group[..j] == group[..i] + group[i..j];
      MeasureJoinAppend(u, BLANK_LINE, group[..i], group[i..j]);
    } else {
      assert group[i..j] == group[..j];
    }
  }

  lemma {:induction false} GreedyPacks(chunks: seq<string>, u: Unit, limit: int)
    requires AllFit(u, chunks, limit)
    ensures Packs(Greedy(chunks, u, limit), chunks, u, limit)
    decreases |chunks|
  {
    if chunks != [] {
      var n := Fill(chunks, 1, u, limit);
      GreedyPacks(chunks[n..], u, limit);
      var groups := Greedy(chunks, u, limit);
      assert groups[1..] == Greedy(chunks[n..], u, limit);
      assert chunks[..n] + chunks[n..] == chunks;
      assert n == 1 ==> chunks[..n] == [chunks[0]];
      forall i | 0 <= i < |groups| ensures groups[i] != [] && Measure(u, Page(groups[i])) <= limit {
        assert i > 0 ==> groups[i] == groups[1..][i - 1];
      }
    }
  }

  /** A page that fits and reaches `m` chunks ahead is not ahead of the greedy page. */
  lemma GreedyFillsFurthest(behind: seq<string>, chunks: seq<string>, m: nat, u: Unit, limit: int)
    requires 0 < m <= |chunks| && Measure(u, Page(behind + chunks[..m])) <= limit
    ensures m <= Fill(chunks, 1, u, limit)
  {
    var n := Fill(chunks, 1, u, limit);
    var first := behind + chunks[..m];
    if m > n {
      assert first[|behind|..|behind| + n + 1] == chunks[..n + 1];
      PageOfSlice(first, |behind|, |behind| + n + 1, u);
    }
  }

  lemma {:induction false} PacksTail(other: seq<seq<string>>, all: seq<string>, u: Unit, limit: int)
    requires Packs(other, all, u, limit) && all != []
    ensures other != [] && 0 < |other[0]| <= |all|
    ensures all[..|other[0]|] == other[0] && Packs(other[1..], all[|other[0]|..], u, limit)
  {
    assert all == other[0] + Flatten(other[1..]);
    forall i | 0 <= i < |other[1..]| ensures other[1..][i] != [] && Measure(u, Page(other[1..][i])) <= limit {
      assert other[1..][i] == other[i + 1];
    }
  }

  /** Behind any other packing of the text so far, greedy still needs no more pages. */
  lemma {:induction false} GreedyStaysAhead(behind: seq<string>, chunks: seq<string>,
                                            other: seq<seq<string>>, u: Unit, limit: int)
    requires Packs(other, behind + chunks, u, limit)
    ensures |Greedy(chunks, u, limit)| <= |other|
    decreases |other|
  {
    hide Flatten, Measure, Page;
    if chunks == [] {
      return;
    }
    var all := behind + chunks;
    PacksTail(other, all, u, limit);
    var k := |other[0]|;
    if k <= |behind| {
      TailOfBehind(behind, chunks, k);
      GreedyStaysAhead(behind[k..], chunks, other[1..], u, limit);
    } else {
      var m := k - |behind|;
      HeadOfAhead(behind, chunks, m);
      GreedyFillsFurthest(behind, chunks, m, u, limit);
      var n := Fill(chunks, 1, u, limit);
      TailOfAhead(behind, chunks, m, n);
      GreedyStaysAhead(chunks[m..n], chunks[n..], other[1..], u, limit);
    }
  }

  lemma TailOfBehind(behind: seq<string>, chunks: seq<string>, k: nat)
    requires k <= |behind|
    ensures (behind + chunks)[k..] == behind[k..] + chunks
  {
  }

  lemma HeadOfAhead(behind: seq<string>, chunks: seq<string>, m: nat)
    requires m <= |chunks|
    ensures (behind + chunks)[..|behind| + m] == behind + chunks[..m]
  {
  }

  lemma TailOfAhead(behind: seq<string>, chunks: seq<string>, m: nat, n: nat)
    requires m <= n <= |chunks|
    ensures (behind + chunks)[|behind| + m..] == chunks[m..n] + chunks[n..]
  {
  }

  /** No way of grouping the chunks in order into pages that fit uses fewer pages. */
  lemma GreedyIsOptimal(chunks: seq<string>, other: seq<seq<string>>, u: Unit, limit: int)
    requires Packs(other, chunks, u, limit)
    ensures |Greedy(chunks, u, limit)| <= |other|
  {
    assert [] + chunks == chunks;
    GreedyStaysAhead([], chunks, other, u, limit);
  }

  /** No two neighbouring pages of the result could have been one page. */
  lemma {:induction false} NeighboursDoNotFit(chunks: seq<string>, i: nat, u: Unit, limit: int)
    requires i + 1 < |Greedy(chunks, u, limit)|
    ensures var pages := PagesOf(Greedy(chunks, u, limit));
            Measure(u, pages[i] + BLANK_LINE + pages[i + 1]) > limit
    decreases |chunks|
  {
    hide Measure, Join;
    var groups := Greedy(chunks, u, limit);
    var n := Fill(chunks, 1, u, limit);
    assert groups[1..] == Greedy(chunks[n..], u, limit);
    if i > 0 {
      NeighboursDoNotFit(chunks[n..], i - 1, u, limit);
      assert groups[i] == groups[1..][i - 1] && groups[i + 1] == groups[1..][i];
    } else {
      var next := groups[1];
      var k := Fill(chunks[n..], 1, u, limit);
      assert next == chunks[n..][..k];
      var both := groups[0] + next;
      JoinAppend(BLANK_LINE, groups[0], next);
      assert both[0..n + 1] == chunks[..n + 1];
      PageOfSlice(both, 0, n + 1, u);
    }
  }

  /** `merged` holds `chunks[..i]`; its last page, opened at `start`, may still grow. */
  ghost predicate Packing(chunks: seq<string>, u: Unit, limit: int, i: nat, start: nat,
                          done: seq<seq<string>>, merged: seq<string>)
  {
    && start < i <= |chunks|
    && Greedy(chunks, u, limit) == done + Greedy(chunks[start..], u, limit)
    && merged == PagesOf(done) + [Page(chunks[start..i])]
    && Fill(chunks[start..], 1, u, limit) == Fill(chunks[start..], i - start, u, limit)
  }

  lemma ClosePage(chunks: seq<string>, u: Unit, limit: int, i: nat, start: nat,
                  done: seq<seq<string>>, merged: seq<string>)
    requires Packing(chunks, u, limit, i, start, done, merged)
    requires Fill(chunks[start..], i - start, u, limit) == i - start
    ensures Greedy(chunks, u, limit) == done + [chunks[start..i]] + Greedy(chunks[i..], u, limit)
    ensures merged == PagesOf(done + [chunks[start..i]])
  {
    hide Measure, Join;
    var rest := chunks[start..];
    assert rest[..i - start] == chunks[start..i] && rest[i - start..] == chunks[i..];
    assert Greedy(rest, u, limit) == [chunks[start..i]] + Greedy(chunks[i..], u, limit);
    PagesOfAppend(done, chunks[start..i]);
  }

  lemma NextChunk(chunks: seq<string>, u: Unit, limit: int, i: nat, start: nat,
                  done: seq<seq<string>>, merged: seq<string>)
    requires Packing(chunks, u, limit, i, start, done, merged) && i < |chunks|
    ensures var candidate := merged[|merged| - 1] + BLANK_LINE + chunks[i];
            if Measure(u, candidate) <= limit then
              Packing(chunks, u, limit, i + 1, start, done, merged[|merged| - 1 := candidate])
            else
              Packing(chunks, u, limit, i + 1, i, done + [chunks[start..i]], merged + [chunks[i]])
  {
    hide Measure, Greedy;
    var candidate := merged[|merged| - 1] + BLANK_LINE + chunks[i];
    assert chunks[start..i + 1] == chunks[start..i] + [chunks[i]];
    JoinAppend(BLANK_LINE, chunks[start..i], [chunks[i]]);
    assert chunks[start..][..i + 1 - start] == chunks[start..i + 1];
    if Measure(u, candidate) > limit {
      ClosePage(chunks, u, limit, i, start, done, merged);
      assert chunks[i..i + 1] == [chunks[i]];
    }
  }

  lemma FirstChunk(chunks: seq<string>, u: Unit, limit: int)
    requires chunks != []
    ensures Packing(chunks, u, limit, 1, 0, [], [chunks[0]])
  {
    assert chunks[0..] == chunks && chunks[0..1] == [chunks[0]];
    assert [] + Greedy(chunks, u, limit) == Greedy(chunks, u, limit);
  }

  lemma LastPage(chunks: seq<string>, u: Unit, limit: int, start: nat,
                 done: seq<seq<string>>, merged: seq<string>)
    requires Packing(chunks, u, limit, |chunks|, start, done, merged)
    ensures merged == PagesOf(Greedy(chunks, u, limit))
  {
    ClosePage(chunks, u, limit, |chunks|, start, done, merged);
    assert chunks[|chunks|..] == [];
    assert Greedy(chunks, u, limit) == done + [chunks[start..|chunks|]];
  }

  method BackfillChunks(chunks: seq<string>, limit: int, u: Unit) returns (merged: seq<string>)
    ensures merged == PagesOf(Greedy(chunks, u, limit))
  {
    if |chunks| <= 1 {
      if chunks != [] {
        FirstChunk(chunks, u, limit);
        LastPage(chunks, u, limit, 0, [], [chunks[0]]);
      }
      return chunks;
    }
    merged := [];
    ghost var done: seq<seq<string>>, start := [], 0;
    for i := 0 to |chunks|
      invariant i == 0 ==> merged == []
      invariant i > 0 ==> Packing(chunks, u, limit, i, start, done, merged)
    {
      var chunk := chunks[i];
      if merged == [] {
        FirstChunk(chunks, u, limit);
        merged, done, start := [chunk], [], 0;
        continue;
      }
      NextChunk(chunks, u, limit, i, start, done, merged);
      var candidate := merged[|merged| - 1] + BLANK_LINE + chunk;
      if Measure(u, candidate) <= limit {
        merged := merged[|merged| - 1 := candidate];
        continue;
      }
      merged, done, start := merged + [chunk], done + [chunks[start..i]], i;
    }
    LastPage(chunks, u, limit, start, done, merged);
  }

  lemma {:induction false} PagesOfAppend(done: seq<seq<string>>, group: seq<string>)
    ensures PagesOf(done + [group]) == PagesOf(done) + [Page(group)]
  {
    var a, b := PagesOf(done + [group]), PagesOf(done) + [Page(group)];
    assert forall i :: 0 <= i < |a| ==> a[i] == b[i];
  }
}
