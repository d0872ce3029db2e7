/**
 How the importer cuts a session into AddMemoriesBatch requests: the vector
 path's `split_chunks` and the streaming path's `ChunkBuilder`.
 */
module Batching {

  /** The caps of one request: a count of entries and a count of encoded bytes. */
  datatype Limits = Limits(maxEntries: nat, maxBytes: nat)

  const CHUNK_MAX_ENTRIES: nat := 500
  const CHUNK_MAX_BYTES: nat := 12 * 1024 * 1024
  const DEFAULT_LIMITS := Limits(CHUNK_MAX_ENTRIES, CHUNK_MAX_BYTES)

  /** The half-open range of entries that travels in one request. */
  datatype Range = Range(lo: nat, hi: nat)

  ghost function Sum(sizes: seq<nat>, lo: nat, hi: nat): nat
    requires lo <= hi <= |sizes|
  {
    if lo == hi then 0 else Sum(sizes, lo, hi - 1) + sizes[hi - 1]
  }

  /** `lo..hi` may travel in one request: alone, or within both caps. */
  ghost predicate Fits(sizes: seq<nat>, lo: nat, hi: nat, limits: Limits) {
    && lo < hi <= |sizes|
    && (hi - lo == 1 || (hi - lo <= limits.maxEntries && Sum(sizes, lo, hi) <= limits.maxBytes))
  }

  /** The ranges are non-empty, contiguous, cover `start..|sizes|`, and each fits. */
  ghost predicate ValidSplit(sizes: seq<nat>, start: nat, ranges: seq<Range>, limits: Limits) {
    && (ranges == [] ==> start == |sizes|)
    && (ranges != [] ==> ranges[0].lo == start && ranges[|ranges| - 1].hi == |sizes|)
    && (forall k :: 0 <= k < |ranges| ==> Fits(sizes, ranges[k].lo, ranges[k].hi, limits))
    && (forall k :: 0 < k < |ranges| ==> ranges[k].lo == ranges[k - 1].hi)
  }

  /** Every range but the last was closed because its next entry did not fit. */
  ghost predicate Greedy(sizes: seq<nat>, ranges: seq<Range>, limits: Limits) {
    forall k :: 0 <= k < |ranges| - 1 ==> !Fits(sizes, ranges[k].lo, ranges[k].hi + 1, limits)
  }

  /** The ranges cut from `i` on, with `start..i` still open. */
  ghost function Cut(sizes: seq<nat>, start: nat, i: nat, limits: Limits): (ranges: seq<Range>)
    requires start <= i <= |sizes|
    decreases |sizes| - i
  {
    if i == |sizes| then
      if start < i then [Range(start, i)] else []
    else if start < i && !Fits(sizes, start, i + 1, limits) then
      [Range(start, i)] + Cut(sizes, i, i + 1, limits)
    else
      Cut(sizes, start, i + 1, limits)
  }

  lemma {:induction false} CutInBounds(sizes: seq<nat>, start: nat, i: nat, limits: Limits)
    requires start <= i <= |sizes|
    ensures forall k :: 0 <= k < |Cut(sizes, start, i, limits)| ==>
      Cut(sizes, start, i, limits)[k].lo <= Cut(sizes, start, i, limits)[k].hi <= |sizes|
    ensures start < |sizes| ==> Cut(sizes, start, i, limits) != []
    decreases |sizes| - i
  {
    if i < |sizes| {
      if start < i && !Fits(sizes, start, i + 1, limits) {
        CutInBounds(sizes, i, i + 1, limits);
      } else {
        CutInBounds(sizes, start, i + 1, limits);
      }
    }
  }

  lemma {:induction false} SumMonotone(sizes: seq<nat>, lo: nat, lo': nat, hi: nat)
    requires lo <= lo' <= hi <= |sizes|
    ensures Sum(sizes, lo', hi) <= Sum(sizes, lo, hi)
    decreases hi
  {
    if lo' < hi {
      SumMonotone(sizes, lo, lo', hi - 1);
    }
  }

  lemma {:induction false} SumShorter(sizes: seq<nat>, lo: nat, hi: nat, hi': nat)
    requires lo <= hi <= hi' <= |sizes|
    ensures Sum(sizes, lo, hi) <= Sum(sizes, lo, hi')
    decreases hi'
  {
    if hi < hi' {
      SumShorter(sizes, lo, hi, hi' - 1);
    }
  }

  /** Any part of a range that fits also fits. */
  lemma FitsShrinks(sizes: seq<nat>, lo: nat, lo': nat, hi: nat, hi': nat, limits: Limits)
    requires Fits(sizes, lo, hi, limits) && lo <= lo' < hi' <= hi
    ensures Fits(sizes, lo', hi', limits)
  {
    SumMonotone(sizes, lo, lo', hi);
    SumShorter(sizes, lo', hi', hi);
  }

  lemma PrependRange(sizes: seq<nat>, start: nat, i: nat, rest: seq<Range>, limits: Limits)
    requires Fits(sizes, start, i, limits) && i < |sizes| && !Fits(sizes, start, i + 1, limits)
    requires ValidSplit(sizes, i, rest, limits) && Greedy(sizes, rest, limits)
    ensures ValidSplit(sizes, start, [Range(start, i)] + rest, limits)
    ensures Greedy(sizes, [Range(start, i)] + rest, limits)
  {
    var all := [Range(start, i)] + rest;
    assert forall k :: 0 < k < |all| ==> all[k] == rest[k - 1];
  }

  lemma {:induction false} CutIsGreedySplit(sizes: seq<nat>, start: nat, i: nat, limits: Limits)
    requires start <= i <= |sizes| && (start < i ==> Fits(sizes, start, i, limits))
    requires start == i ==> i == |sizes| || i == 0
    ensures ValidSplit(sizes, start, Cut(sizes, start, i, limits), limits)
    ensures Greedy(sizes, Cut(sizes, start, i, limits), limits)
    decreases |sizes| - i
  {
    if i < |sizes| {
      if start < i && !Fits(sizes, start, i + 1, limits) {
        CutIsGreedySplit(sizes, i, i + 1, limits);
        PrependRange(sizes, start, i, Cut(sizes, i, i + 1, limits), limits);
      } else {
        CutIsGreedySplit(sizes, start, i + 1, limits);
      }
    }
  }

  /** The greedy cut stays ahead of every other split, range by range. */
  lemma {:induction false} GreedyStaysAhead(
      sizes: seq<nat>, greedy: seq<Range>, other: seq<Range>, limits: Limits, k: nat)
    requires ValidSplit(sizes, 0, greedy, limits) && Greedy(sizes, greedy, limits)
    requires ValidSplit(sizes, 0, other, limits)
    requires k < |greedy| && k < |other|
    ensures other[k].hi <= greedy[k].hi
  {
    if k > 0 {
      GreedyStaysAhead(sizes, greedy, other, limits, k - 1);
    }
    if greedy[k].hi < other[k].hi {
      LastReachesEnd(sizes, greedy, limits, k);
      FitsShrinks(sizes, other[k].lo, greedy[k].lo, other[k].hi, greedy[k].hi + 1, limits);
      assert false;
    }
  }

  /** Only the last range of a split can reach the end. */
  lemma {:induction false} LastReachesEnd(sizes: seq<nat>, ranges: seq<Range>, limits: Limits, k: nat)
    requires ValidSplit(sizes, 0, ranges, limits) && k < |ranges|
    ensures ranges[k].hi == |sizes| <==> k == |ranges| - 1
    decreases |ranges| - k
  {
    if k < |ranges| - 1 {
      LastReachesEnd(sizes, ranges, limits, k + 1);
      assert ranges[k + 1].lo == ranges[k].hi;
    }
  }

  /** Nothing within the caps uses fewer requests than the greedy cut. */
  lemma GreedyIsOptimal(sizes: seq<nat>, greedy: seq<Range>, other: seq<Range>, limits: Limits)
    requires ValidSplit(sizes, 0, greedy, limits) && Greedy(sizes, greedy, limits)
    requires ValidSplit(sizes, 0, other, limits)
    ensures |greedy| <= |other|
  {
    if |other| < |greedy| {
      if |other| > 0 {
        GreedyStaysAhead(sizes, greedy, other, limits, |other| - 1);
        LastReachesEnd(sizes, greedy, limits, |other| - 1);
      }
      assert false;
    }
  }

  /** The cut under any limits: what the builder's flush points amount to. */
  lemma CutIsOptimal(sizes: seq<nat>, limits: Limits, other: seq<Range>)
    requires ValidSplit(sizes, 0, other, limits)
    ensures ValidSplit(sizes, 0, Cut(sizes, 0, 0, limits), limits)
    ensures |Cut(sizes, 0, 0, limits)| <= |other|
  {
    CutIsGreedySplit(sizes, 0, 0, limits);
    GreedyIsOptimal(sizes, Cut(sizes, 0, 0, limits), other, limits);
  }

  lemma CutIsBest(sizes: seq<nat>, limits: Limits)
    ensures ValidSplit(sizes, 0, Cut(sizes, 0, 0, limits), limits)
    ensures forall other :: ValidSplit(sizes, 0, other, limits) ==> |Cut(sizes, 0, 0, limits)| <= |other|
  {
    hide ValidSplit, Cut;
    CutIsGreedySplit(sizes, 0, 0, limits);
    forall other | ValidSplit(sizes, 0, other, limits) {
      CutIsOptimal(sizes, limits, other);
    }
  }

  /** The vector path's splitter, over the encoded sizes of the entries. */
  method SplitChunks(sizes: seq<nat>) returns (chunks: seq<Range>)
    ensures chunks == Cut(sizes, 0, 0, DEFAULT_LIMITS)
    ensures ValidSplit(sizes, 0, chunks, DEFAULT_LIMITS)
    ensures forall other :: ValidSplit(sizes, 0, other, DEFAULT_LIMITS) ==> |chunks| <= |other|
  {
    chunks := [];
    var start, accBytes, accCount := 0, 0, 0;
    for i := 0 to |sizes|
      invariant start <= i && accCount == i - start && accBytes == Sum(sizes, start, i)
      invariant start < i ==> Fits(sizes, start, i, DEFAULT_LIMITS)
      invariant start == i ==> i == 0
      invariant chunks + Cut(sizes, start, i, DEFAULT_LIMITS) == Cut(sizes, 0, 0, DEFAULT_LIMITS)
    {
      var size := sizes[i];
      var exceedsCount := accCount + 1 > CHUNK_MAX_ENTRIES;
      var exceedsBytes := accCount > 0 && accBytes + size > CHUNK_MAX_BYTES;
      assert Sum(sizes, start, i + 1) == accBytes + size;
      if exceedsCount || exceedsBytes {
        assert !Fits(sizes, start, i + 1, DEFAULT_LIMITS);
        assert chunks + ([Range(start, i)] + Cut(sizes, i, i + 1, DEFAULT_LIMITS))
            == chunks + [Range(start, i)] + Cut(sizes, i, i + 1, DEFAULT_LIMITS);
        chunks := chunks + [Range(start, i)];
        start, accBytes, accCount := i, 0, 0;
      } else {
        assert Fits(sizes, start, i + 1, DEFAULT_LIMITS);
      }
      accBytes := accBytes + size;
      accCount := accCount + 1;
    }
    if start < |sizes| {
      chunks := chunks + [Range(start, |sizes|)];
    }
    CutIsBest(sizes, DEFAULT_LIMITS);
  }

  /** One entry waiting in the builder, with the bytes its input encodes to. */
  datatype Sized<+T> = Sized(item: T, size: nat)

  ghost function Sizes<T>(items: seq<Sized<T>>): (sizes: seq<nat>)
    ensures |sizes| == |items|
    ensures forall k :: 0 <= k < |items| ==> sizes[k] == items[k].size
  {
    seq(|items|, k requires 0 <= k < |items| => items[k].size)
  }

  function TotalSize<T>(items: seq<Sized<T>>): nat {
    if items == [] then 0 else TotalSize(items[..|items| - 1]) + items[|items| - 1].size
  }

  /** The next record would push a non-empty chunk past one of the caps. */
  function Overflows<T>(pending: seq<Sized<T>>, nextSize: nat, limits: Limits): bool {
    && pending != []
    && (|pending| + 1 > limits.maxEntries || TotalSize(pending) + nextSize > limits.maxBytes)
  }

  lemma {:induction false} TotalIsSum<T>(items: seq<Sized<T>>, lo: nat, hi: nat)
    requires lo <= hi <= |items|
    ensures TotalSize(items[lo..hi]) == Sum(Sizes(items), lo, hi)
    decreases hi
  {
    if lo < hi {
      assert items[lo..hi][..hi - lo - 1] == items[lo..hi - 1];
      TotalIsSum(items, lo, hi - 1);
    }
  }

  /** The builder flushes exactly where the vector splitter cuts. */
  lemma OverflowIsCut<T>(items: seq<Sized<T>>, start: nat, i: nat, limits: Limits)
    requires start <= i < |items|
    ensures Overflows(items[start..i], items[i].size, limits)
       <==> start < i && !Fits(Sizes(items), start, i + 1, limits)
  {
    TotalIsSum(items, start, i);
    assert Sum(Sizes(items), start, i + 1) == Sum(Sizes(items), start, i) + items[i].size;
  }

  /** The streaming path's accumulator; `Take` empties it for reuse. */
  class ChunkBuilder<T> {
    var items: seq<Sized<T>>
    var accBytes: nat
    const limits: Limits

    ghost predicate Valid()
      reads this
    {
      accBytes == TotalSize(items)
    }

    constructor (limits: Limits)
      ensures Valid() && items == [] && this.limits == limits
    {
      items, accBytes := [], 0;
      this.limits := limits;
    }

    predicate IsEmpty()
      reads this
    {
      items == []
    }

    method WouldOverflow(nextSize: nat) returns (overflow: bool)
      requires Valid()
      ensures overflow == Overflows(items, nextSize, limits)
    {
      if IsEmpty() {
        return false;
      }
      var exceedsCount := |items| + 1 > limits.maxEntries;
      var exceedsBytes := accBytes + nextSize > limits.maxBytes;
      return exceedsCount || exceedsBytes;
    }

    method Push(item: T, size: nat)
      requires Valid()
      modifies this
      ensures Valid() && items == old(items) + [Sized(item, size)]
    {
      items := items + [Sized(item, size)];
      accBytes := accBytes + size;
      assert items[..|items| - 1] == old(items);
    }

    method Take() returns (taken: seq<Sized<T>>)
      requires Valid()
      modifies this
      ensures Valid() && items == [] && taken == old(items)
    {
      taken := items;
      items, accBytes := [], 0;
    }
  }
}
