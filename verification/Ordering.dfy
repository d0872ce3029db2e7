/**
 The order entries are sent in, for sessions read in any order.
 */
module Ordering {
  import opened Canonical
  import opened Batching
  import opened Network
  import opened ImportRun
  import opened Refinement
  import opened Protocol

  /** The elements with the given key, in their order. */
  ghost function Having<T>(xs: seq<T>, key: T -> Key, k: Key): seq<T> {
    if xs == [] then []
    else Having(xs[..|xs| - 1], key, k) + if key(xs[|xs| - 1]) == k then [xs[|xs| - 1]] else []
  }

  lemma HavingSnoc<T>(xs: seq<T>, x: T, key: T -> Key, k: Key)
    ensures Having(xs + [x], key, k) == Having(xs, key, k) + if key(x) == k then [x] else []
  {
    assert (xs + [x])[..|xs|] == xs;
  }

  lemma {:induction false} PlaceKeeps<T>(xs: seq<T>, x: T, key: T -> Key, k: Key)
    ensures Having(StablePlace(xs, x, key), key, k) == Having(xs, key, k) + if key(x) == k then [x] else []
  {
    if xs == [] || KeyLe(key(xs[|xs| - 1]), key(x)) {
      HavingSnoc(xs, x, key, k);
    } else {
      hide Having;
      var n := |xs| - 1;
      PlaceKeeps(xs[..n], x, key, k);
      HavingSnoc(StablePlace(xs[..n], x, key), xs[n], key, k);
      HavingSnoc(xs[..n], xs[n], key, k);
      assert xs[..n] + [xs[n]] == xs;
    }
  }

  lemma {:induction false} PlaceOrders<T>(xs: seq<T>, x: T, key: T -> Key)
    requires InOrder(xs, key)
    ensures InOrder(StablePlace(xs, x, key), key)
  {
    if xs != [] && !KeyLe(key(xs[|xs| - 1]), key(x)) {
      var n := |xs| - 1;
      PlaceOrders(xs[..n], x, key);
      var r := StablePlace(xs[..n], x, key);
      forall i | 0 <= i < |r| ensures KeyLe(key(r[i]), key(xs[n])) {
        assert r[i] in multiset(r);
        assert r[i] in xs[..n] || r[i] == x;
      }
    }
  }

  /** Sorting puts the elements in order, and those with equal keys stay in theirs. */
  lemma {:induction false} SortOrders<T>(xs: seq<T>, key: T -> Key, k: Key)
    ensures InOrder(StableSort(xs, key), key)
    ensures Having(StableSort(xs, key), key, k) == Having(xs, key, k)
  {
    if xs != [] {
      hide StablePlace;
      var n := |xs| - 1;
      SortOrders(xs[..n], key, k);
      PlaceOrders(StableSort(xs[..n], key), xs[n], key);
      PlaceKeeps(StableSort(xs[..n], key), xs[n], key, k);
    }
  }

  /** Import order first, and time where that is the same. */
  ghost predicate NotAfter(a: Entry, b: Entry) {
    a.importOrder <= b.importOrder && (a.importOrder == b.importOrder ==> a.timestampMs <= b.timestampMs)
  }

  ghost predicate PreparedInTurn(ps: seq<Prepared>) {
    forall i, j :: 0 <= i < j < |ps| ==> NotAfter(ps[i].entry, ps[j].entry)
  }

  ghost predicate InTurn(es: seq<Entry>) {
    forall i, j :: 0 <= i < j < |es| ==> NotAfter(es[i], es[j])
  }

  lemma SortsPrepared(chunk: seq<Prepared>)
    ensures multiset(StableSort(chunk, PreparedKey)) == multiset(chunk)
    ensures PreparedInTurn(StableSort(chunk, PreparedKey))
  {
    SortOrders(chunk, PreparedKey, Key(0, 0));
    hide StableSort;
    var ps := StableSort(chunk, PreparedKey);
    forall i, j | 0 <= i < j < |ps| ensures NotAfter(ps[i].entry, ps[j].entry) {
      assert KeyLe(PreparedKey(ps[i]), PreparedKey(ps[j]));
    }
  }

  lemma SortsEntries(es: seq<Entry>)
    ensures multiset(StableSort(es, EntryKey)) == multiset(es)
    ensures InTurn(StableSort(es, EntryKey))
    ensures InOrder(StableSort(es, EntryKey), EntryKey)
  {
    SortOrders(es, EntryKey, Key(0, 0));
    hide StableSort;
    var sorted := StableSort(es, EntryKey);
    forall i, j | 0 <= i < j < |sorted| ensures NotAfter(sorted[i], sorted[j]) {
      assert KeyLe(EntryKey(sorted[i]), EntryKey(sorted[j]));
    }
  }

  /** A streamed chunk is sent in its turn, whatever order it was read in, and nothing of it is lost. */
  lemma FlushSendsInTurn(cfg: Config, st: State, chunk: seq<Prepared>, isLast: bool)
    returns (ps: seq<Prepared>, x: Exchange)
    requires !Stopped(st.result)
    ensures multiset(ps) == multiset(chunk) && PreparedInTurn(ps)
    ensures BatchesOf(Flush(cfg, st, chunk, isLast).log) == BatchesOf(st.log) + [x]
    ensures x.request.AddMemoriesBatch? && x.request.batch.memories == InputsOf(ps)
  {
    hide StableSort, Flush, BatchesOf, PreparedInTurn, Named, OutcomesWith;
    ps := StableSort(chunk, PreparedKey);
    SortsPrepared(chunk);
    FlushSends(cfg, st, chunk, isLast);
    x := Sent(cfg, st, chunk, isLast);
  }

  lemma {:induction false} EntryItemsHold(es: seq<Entry>)
    ensures EntriesOf(EntryItems(es)) == es
  {
    if es != [] {
      var n := |es| - 1;
      assert EntryItems(es)[..n] == EntryItems(es[..n]);
      EntryItemsHold(es[..n]);
    }
  }

  lemma SortedRunsAlike(cfg: Config, w: World, es: seq<Entry>, sorted: seq<Entry>, filtered: nat)
    requires |sorted| == |es| && StableSort(sorted, EntryKey) == sorted == StableSort(es, EntryKey)
    ensures RunVector(cfg, w, es, filtered) == RunVector(cfg, w, sorted, filtered)
  {
    hide StableSort, SendVector, Importable, PrepareAll;
  }

  /** So the vector import of any session at all is the streaming import of that session put in order. */
  lemma VectorStreamsInTurn(cfg: Config, w: World, entries: seq<Entry>, filtered: nat, k: Key)
    returns (sorted: seq<Entry>)
    requires !IsOpenCode(cfg) && cfg.limits == DEFAULT_LIMITS
    ensures multiset(sorted) == multiset(entries) && InTurn(sorted)
    ensures Having(sorted, EntryKey, k) == Having(entries, EntryKey, k)
    ensures var streamed := RunStreaming(cfg, w, EntryItems(sorted), filtered);
      var vector := RunVector(cfg, w, entries, filtered);
      && SameButFiltered(streamed, vector)
      && (!Stopped(streamed.result) ==> streamed == vector)
  {
    hide StableSort, RunStreaming, RunVector, Having, InTurn, InOrder, SameButFiltered;
    sorted := StableSort(entries, EntryKey);
    SortsEntries(entries);
    SortOrders(entries, EntryKey, k);
    SortOfOrdered(sorted, EntryKey);
    SortedRunsAlike(cfg, w, entries, sorted, filtered);
    EntryItemsHold(sorted);
    StreamingRefinesVector(cfg, w, EntryItems(sorted), filtered);
  }
}
