/**
 The streaming importer sends what the vector importer would send. Its builder
 flushes where the splitter cuts, and re-sorting a chunk of an ordered session
 changes nothing.
 */
module Refinement {
  import opened Wrappers
  import opened Canonical
  import opened Batching
  import opened Store
  import opened Network
  import opened ImportRun

  /** A state with its filter counter blanked: everything else there is to observe. */
  ghost function Unfiltered(st: State): State {
    st.(result := st.result.(filtered := 0))
  }

  /** The entries of a stream that are sent, prepared, in stream order. */
  ghost function ToSend(cfg: Config, items: seq<StreamItem>): (ps: seq<Prepared>)
    ensures |ps| <= |items|
  {
    if items == [] then []
    else
      var last := items[|items| - 1];
      ToSend(cfg, items[..|items| - 1]) + SentOf(cfg, last)
  }

  ghost function SentOf(cfg: Config, item: StreamItem): (ps: seq<Prepared>)
    ensures |ps| <= 1
  {
    if item.EntryItem? && IsEntryImportable(Prepare(cfg, item.entry).entry, cfg.since)
    then [Prepare(cfg, item.entry)] else []
  }

  /** Preparing an entry keeps what it is ordered and filtered by. */
  lemma PrepareKeepsKey(cfg: Config, entry: Entry)
    ensures PreparedKey(Prepare(cfg, entry)) == EntryKey(entry)
    ensures IsEntryImportable(Prepare(cfg, entry).entry, cfg.since) == IsEntryImportable(entry, cfg.since)
  {
  }

  lemma {:induction false} ToSendFront(cfg: Config, items: seq<StreamItem>)
    requires items != []
    ensures ToSend(cfg, items) == SentOf(cfg, items[0]) + ToSend(cfg, items[1..])
  {
    hide SentOf;
    if |items| > 1 {
      var n := |items| - 1;
      ToSendFront(cfg, items[..n]);
      assert items[..n][1..] == items[1..][..n - 1];
      assert items[1..][n - 1] == items[n];
    } else {
      assert items[..0] == [] && items[1..] == [];
    }
  }

  lemma ImportableStep(es: seq<Entry>, e: Entry, since: Option<int>)
    ensures Importable(es + [e], since) == Importable(es, since) + if IsEntryImportable(e, since) then [e] else []
  {
    assert (es + [e])[..|es|] == es;
  }

  lemma PrepareAllStep(cfg: Config, es: seq<Entry>, e: Entry)
    ensures PrepareAll(cfg, es + [e]) == PrepareAll(cfg, es) + [Prepare(cfg, e)]
    ensures PrepareAll(cfg, es + []) == PrepareAll(cfg, es)
  {
    hide Prepare;
    assert es + [] == es;
  }

  lemma {:induction false} ToSendIsPreparedImportable(cfg: Config, items: seq<StreamItem>)
    ensures ToSend(cfg, items) == PrepareAll(cfg, Importable(EntriesOf(items), cfg.since))
  {
    if items != [] {
      hide Prepare, Importable, PrepareAll;
      var n := |items| - 1;
      ToSendIsPreparedImportable(cfg, items[..n]);
      if items[n].EntryItem? {
        PrepareKeepsKey(cfg, items[n].entry);
        ImportableStep(EntriesOf(items[..n]), items[n].entry, cfg.since);
        PrepareAllStep(cfg, Importable(EntriesOf(items[..n]), cfg.since), items[n].entry);
      } else {
        assert EntriesOf(items) == EntriesOf(items[..n]);
      }
    } else {
      assert Importable([], cfg.since) == [];
    }
  }

  /** Each chunk re-sorted and sent, until one stops the run. */
  ghost function SendAll(cfg: Config, st: State, ps: seq<Prepared>, ranges: seq<Range>): State
    requires forall k :: 0 <= k < |ranges| ==> ranges[k].lo <= ranges[k].hi <= |ps|
    decreases |ranges|
  {
    if ranges == [] then st
    else
      var sent := Flush(cfg, st, ps[ranges[0].lo..ranges[0].hi], |ranges| == 1);
      if Stopped(sent.result) then sent else SendAll(cfg, sent, ps, ranges[1..])
  }

  /** What follows the last chunk. */
  ghost function AfterSend(cfg: Config, st: State, duplicates: seq<Duplicate>): State {
    if Stopped(st.result) then st
    else
      var recorded := Finalize(cfg, st);
      if Stopped(recorded.result) || !IsOpenCode(cfg) || recorded.current.None? then recorded
      else RewireDuplicates(cfg, recorded, duplicates, recorded.current.value)
  }

  // Nothing a run does depends on the filter counter, or changes it.

  ghost predicate SameButFiltered(a: State, b: State) {
    Unfiltered(a) == Unfiltered(b)
  }

  lemma {:induction false} RunJobsIgnoresFiltered(cfg: Config, a: State, b: State, jobs: seq<Request>, order: seq<nat>)
    requires SameButFiltered(a, b) && forall k :: 0 <= k < |order| ==> order[k] < |jobs|
    ensures SameButFiltered(RunJobs(cfg, a, jobs, order), RunJobs(cfg, b, jobs, order))
  {
    if order != [] {
      RunJobsIgnoresFiltered(cfg, a, b, jobs, order[..|order| - 1]);
    }
  }

  lemma RewirePassIgnoresFiltered(cfg: Config, a: State, b: State, outcomes: seq<Outcome>, id: nat)
    requires SameButFiltered(a, b)
    ensures SameButFiltered(RewirePass(cfg, a, outcomes, id), RewirePass(cfg, b, outcomes, id))
    ensures RewirePass(cfg, a, outcomes, id).result.filtered == a.result.filtered
  {
    hide JobsOf, CountCreated, NextSchedule, RunJobs, Settle;
    var jobs := JobsOf(id, outcomes);
    var (schedule, world) := NextSchedule(a.world, |jobs|);
    var a', b' := CountOutcomes(a, outcomes).(world := world), CountOutcomes(b, outcomes).(world := world);
    RunJobsIgnoresFiltered(cfg, a', b', jobs, schedule.exec);
    SettleIgnoresFiltered(RunJobs(cfg, a', jobs, schedule.exec), RunJobs(cfg, b', jobs, schedule.exec),
                          |a.log|, schedule.done);
  }

  lemma SettleIgnoresFiltered(a: State, b: State, from: nat, done: seq<nat>)
    requires SameButFiltered(a, b) && forall k :: 0 <= k < |done| ==> from + done[k] < |a.log|
    ensures SameButFiltered(Settle(a, from, done), Settle(b, from, done))
    ensures Settle(a, from, done).result.filtered == a.result.filtered
  {
  }

  lemma FlushIgnoresFiltered(cfg: Config, a: State, b: State, chunk: seq<Prepared>, isLast: bool)
    requires SameButFiltered(a, b)
    ensures SameButFiltered(Flush(cfg, a, chunk, isLast), Flush(cfg, b, chunk, isLast))
    ensures Flush(cfg, a, chunk, isLast).result.filtered == a.result.filtered
  {
    var batch := BatchOf(cfg, a.current, InputsOf(StableSort(chunk, PreparedKey)), isLast);
    var (a', reply) := Invoke(cfg, a, AddMemoriesBatch(batch));
    var (b', _) := Invoke(cfg, b, AddMemoriesBatch(batch));
    if reply.Ok? {
      ReceiveIgnoresFiltered(cfg, a', b', |chunk|, reply.value.reply);
    }
  }

  lemma ReceiveIgnoresFiltered(cfg: Config, a: State, b: State, sent: nat, reply: BatchReply)
    requires SameButFiltered(a, b)
    ensures SameButFiltered(Receive(cfg, a, sent, reply), Receive(cfg, b, sent, reply))
    ensures Receive(cfg, a, sent, reply).result.filtered == a.result.filtered
  {
    if !reply.suppressed && reply.threadId.Some? {
      var id := reply.threadId.value;
      var (a', fine) := Announce(cfg, a, id, reply.threadCreated);
      var (b', _) := Announce(cfg, b, id, reply.threadCreated);
      assert SameButFiltered(a', b') && a'.result.filtered == a.result.filtered;
      RewirePassIgnoresFiltered(cfg, a'.(current := Some(id)), b'.(current := Some(id)), reply.outcomes, id);
    }
  }

  lemma {:induction false} SendAllIgnoresFiltered(
      cfg: Config, a: State, b: State, ps: seq<Prepared>, ranges: seq<Range>)
    requires SameButFiltered(a, b)
    requires forall k :: 0 <= k < |ranges| ==> ranges[k].lo <= ranges[k].hi <= |ps|
    ensures SameButFiltered(SendAll(cfg, a, ps, ranges), SendAll(cfg, b, ps, ranges))
    ensures SendAll(cfg, a, ps, ranges).result.filtered == a.result.filtered
    decreases |ranges|
  {
    if ranges != [] {
      var chunk := ps[ranges[0].lo..ranges[0].hi];
      FlushIgnoresFiltered(cfg, a, b, chunk, |ranges| == 1);
      var a', b' := Flush(cfg, a, chunk, |ranges| == 1), Flush(cfg, b, chunk, |ranges| == 1);
      assert Stopped(a'.result) == Stopped(Unfiltered(a').result) == Stopped(b'.result);
      if !Stopped(a'.result) {
        SendAllIgnoresFiltered(cfg, a', b', ps, ranges[1..]);
      }
    }
  }

  lemma {:induction false} ParentLookupsIgnoresFiltered(cfg: Config, a: State, b: State, parents: seq<string>, id: nat)
    requires SameButFiltered(a, b)
    ensures SameButFiltered(ParentLookups(cfg, a, parents, id).0, ParentLookups(cfg, b, parents, id).0)
    ensures ParentLookups(cfg, a, parents, id).1 == ParentLookups(cfg, b, parents, id).1
    ensures ParentLookups(cfg, a, parents, id).0.result == a.result
  {
    if parents != [] {
      ParentLookupsIgnoresFiltered(cfg, a, b, parents[..|parents| - 1], id);
    }
  }

  lemma RewireOneIgnoresFiltered(cfg: Config, a: State, b: State, d: Duplicate, id: nat)
    requires SameButFiltered(a, b)
    ensures SameButFiltered(RewireOne(cfg, a, d, id), RewireOne(cfg, b, d, id))
    ensures RewireOne(cfg, a, d, id).result.filtered == a.result.filtered
  {
    hide ParentLookups;
    ParentLookupsIgnoresFiltered(cfg, a, b, d.entry.parentExternalIds, id);
    ParentLookupsIgnoresFiltered(cfg, b, a, d.entry.parentExternalIds, id);
  }

  lemma {:induction false} RewireDuplicatesIgnoresFiltered(
      cfg: Config, a: State, b: State, duplicates: seq<Duplicate>, id: nat)
    requires SameButFiltered(a, b)
    ensures SameButFiltered(RewireDuplicates(cfg, a, duplicates, id), RewireDuplicates(cfg, b, duplicates, id))
    ensures RewireDuplicates(cfg, a, duplicates, id).result.filtered == a.result.filtered
    decreases |duplicates|
  {
    if duplicates != [] {
      RewireOneIgnoresFiltered(cfg, a, b, duplicates[0], id);
      var a', b' := RewireOne(cfg, a, duplicates[0], id), RewireOne(cfg, b, duplicates[0], id);
      assert Stopped(a'.result) == Stopped(Unfiltered(a').result) == Stopped(b'.result);
      if !Stopped(a'.result) {
        RewireDuplicatesIgnoresFiltered(cfg, a', b', duplicates[1..], id);
      }
    }
  }

  lemma AfterSendIgnoresFiltered(cfg: Config, a: State, b: State, duplicates: seq<Duplicate>)
    requires SameButFiltered(a, b)
    ensures SameButFiltered(AfterSend(cfg, a, duplicates), AfterSend(cfg, b, duplicates))
    ensures AfterSend(cfg, a, duplicates).result.filtered == a.result.filtered
  {
    assert Stopped(a.result) == Stopped(Unfiltered(a).result) == Stopped(b.result);
    if !Stopped(a.result) {
      var a', b' := Finalize(cfg, a), Finalize(cfg, b);
      assert SameButFiltered(a', b') && a'.result.filtered == a.result.filtered;
      assert Stopped(a'.result) == Stopped(Unfiltered(a').result) == Stopped(b'.result);
      if a'.current.Some? {
        RewireDuplicatesIgnoresFiltered(cfg, a', b', duplicates, a'.current.value);
      }
    }
  }

  /** The next cut, read off the builder. */
  lemma CutStep(cfg: Config, ps: seq<Prepared>, start: nat, i: nat)
    requires start <= i < |ps|
    ensures CutsOf(cfg, cfg.limits, ps, start, i)
         == if Overflows(MeasureAll(cfg, ps)[start..i], Measure(cfg, ps[i]).size, cfg.limits)
            then [Range(start, i)] + CutsOf(cfg, cfg.limits, ps, i, i + 1)
            else CutsOf(cfg, cfg.limits, ps, start, i + 1)
  {
    OverflowIsCut(MeasureAll(cfg, ps), start, i, cfg.limits);
  }

  /**
   The streaming loop, with `ps[start..i]` in the builder and the rest still in
   the stream, sends exactly the chunks cut from there on.
   */
  lemma {:induction false} StreamSendsCuts(
      cfg: Config, st: State, items: seq<StreamItem>, duplicates: seq<Duplicate>,
      ps: seq<Prepared>, start: nat, i: nat)
    requires !Stopped(st.result) && ps != [] && start <= i <= |ps| && (start == i ==> i == 0)
    requires ToSend(cfg, items) == ps[i..]
    ensures var r := StreamFrom(cfg, st, items, MeasureAll(cfg, ps)[start..i], duplicates);
      && SameButFiltered(r, AfterSend(cfg, SendAll(cfg, st, ps, CutsOf(cfg, cfg.limits, ps, start, i)), duplicates))
      && (!Stopped(r.result) ==> r.result.filtered == st.result.filtered + |items| - |ToSend(cfg, items)|)
      && r.result.filtered <= st.result.filtered + |items| - |ToSend(cfg, items)|
    decreases |items|
  {
    hide StreamFrom, SendAll, AfterSend, CutsOf, Overflows, Flush, SentOf, Measure, ToSend, IsOpenCode;
    var sized := MeasureAll(cfg, ps);
    var pending := sized[start..i];
    if items == [] {
      StreamEnd(cfg, st, pending, duplicates);
      CloseSends(cfg, st, ps, start, duplicates);
    } else {
      ToSendFront(cfg, items);
      StreamStep(cfg, st, items, pending, duplicates);
      if SentOf(cfg, items[0]) == [] {
        assert ToSend(cfg, items[1..]) == ps[i..];
        var counted, cuts := CountFiltered(st), CutsOf(cfg, cfg.limits, ps, start, i);
        StreamSendsCuts(cfg, counted, items[1..], duplicates, ps, start, i);
        SendAllIgnoresFiltered(cfg, counted, st, ps, cuts);
        AfterSendIgnoresFiltered(cfg, SendAll(cfg, counted, ps, cuts), SendAll(cfg, st, ps, cuts), duplicates);
      } else {
        assert SentOf(cfg, items[0])[0] == ps[i..][0] == ps[i];
        assert ToSend(cfg, items[1..]) == ps[i + 1..];
        CutStep(cfg, ps, start, i);
        if Overflows(pending, Measure(cfg, ps[i]).size, cfg.limits) {
          assert ItemsOf(pending) == ps[start..i];
          assert sized[i..i + 1] == [Measure(cfg, ps[i])];
          FlushIgnoresFiltered(cfg, st, st, ps[start..i], false);
          SendAllUnfold(cfg, st, ps, start, i);
          var flushed := Flush(cfg, st, ps[start..i], false);
          if Stopped(flushed.result) {
            AfterSendStopped(cfg, flushed, duplicates);
          } else {
            StreamSendsCuts(cfg, flushed, items[1..], duplicates, ps, i, i + 1);
          }
        } else {
          assert sized[start..i + 1] == pending + [Measure(cfg, ps[i])];
          StreamSendsCuts(cfg, st, items[1..], duplicates, ps, start, i + 1);
        }
      }
    }
  }

  lemma AfterSendStopped(cfg: Config, st: State, duplicates: seq<Duplicate>)
    requires Stopped(st.result)
    ensures AfterSend(cfg, st, duplicates) == st
  {
  }

  lemma StreamEnd(cfg: Config, st: State, pending: seq<Sized<Prepared>>, duplicates: seq<Duplicate>)
    ensures StreamFrom(cfg, st, [], pending, duplicates) == Close(cfg, st, pending, duplicates)
  {
  }

  /** One turn of the streaming loop, in terms of what the item contributes. */
  lemma StreamStep(
      cfg: Config, st: State, items: seq<StreamItem>, pending: seq<Sized<Prepared>>, duplicates: seq<Duplicate>)
    requires items != []
    ensures StreamFrom(cfg, st, items, pending, duplicates) ==
      if SentOf(cfg, items[0]) == [] then StreamFrom(cfg, CountFiltered(st), items[1..], pending, duplicates)
      else
        var next := Measure(cfg, SentOf(cfg, items[0])[0]);
        if Overflows(pending, next.size, cfg.limits) then
          var flushed := Flush(cfg, st, ItemsOf(pending), false);
          if Stopped(flushed.result) then flushed
          else StreamFrom(cfg, flushed, items[1..], [next], duplicates)
        else StreamFrom(cfg, st, items[1..], pending + [next], duplicates)
  {
    hide Prepare, Flush, Overflows, Measure, Close;
  }

  lemma CloseSends(cfg: Config, st: State, ps: seq<Prepared>, start: nat, duplicates: seq<Duplicate>)
    requires start < |ps|
    ensures var r := Close(cfg, st, MeasureAll(cfg, ps)[start..|ps|], duplicates);
      && r == AfterSend(cfg, SendAll(cfg, st, ps, CutsOf(cfg, cfg.limits, ps, start, |ps|)), duplicates)
      && r.result.filtered == st.result.filtered
  {
    hide Flush, Finalize, RewireDuplicates;
    var pending := MeasureAll(cfg, ps)[start..|ps|];
    assert ItemsOf(pending) == ps[start..|ps|];
    var flushed := Flush(cfg, st, ps[start..|ps|], true);
    FlushIgnoresFiltered(cfg, st, st, ps[start..|ps|], true);
    assert CutsOf(cfg, cfg.limits, ps, start, |ps|) == [Range(start, |ps|)];
    assert SendAll(cfg, st, ps, [Range(start, |ps|)]) == flushed;
    AfterSendIgnoresFiltered(cfg, flushed, flushed, duplicates);
  }

  lemma {:induction false} FlushUnfold(cfg: Config, st: State, chunk: seq<Prepared>, isLast: bool, batch: Batch)
    requires batch == BatchOf(cfg, st.current, InputsOf(StableSort(chunk, PreparedKey)), isLast)
    ensures var (sent, reply) := Invoke(cfg, st, AddMemoriesBatch(batch));
      Flush(cfg, st, chunk, isLast) == if reply.Err? then Failed(sent, BatchFailed)
        else Receive(cfg, sent, |chunk|, reply.value.reply)
  {
    hide StableSort, BatchOf, InputsOf, Invoke, Receive;
  }

  lemma SendAllUnfold(cfg: Config, st: State, ps: seq<Prepared>, start: nat, i: nat)
    requires start <= i < |ps|
    requires CutsOf(cfg, cfg.limits, ps, start, i) == [Range(start, i)] + CutsOf(cfg, cfg.limits, ps, i, i + 1)
    ensures var flushed := Flush(cfg, st, ps[start..i], false);
      SendAll(cfg, st, ps, CutsOf(cfg, cfg.limits, ps, start, i))
      == if Stopped(flushed.result) then flushed else SendAll(cfg, flushed, ps, CutsOf(cfg, cfg.limits, ps, i, i + 1))
  {
    var ranges := CutsOf(cfg, cfg.limits, ps, start, i);
    assert ranges[1..] == CutsOf(cfg, cfg.limits, ps, i, i + 1);
  }

  // An ordered session is already in the order every sort would give it.

  lemma {:induction false} SortOfOrdered<T>(xs: seq<T>, key: T -> Key)
    requires InOrder(xs, key)
    ensures StableSort(xs, key) == xs
  {
    if xs != [] {
      SortOfOrdered(xs[..|xs| - 1], key);
    }
  }

  lemma {:induction false} ImportableKeepsOrder(es: seq<Entry>, since: Option<int>)
    requires InOrder(es, EntryKey)
    ensures InOrder(Importable(es, since), EntryKey)
    ensures forall e :: e in Importable(es, since) ==> e in es
  {
    if es != [] {
      var n := |es| - 1;
      ImportableKeepsOrder(es[..n], since);
      forall e | e in Importable(es[..n], since) ensures KeyLe(EntryKey(e), EntryKey(es[n])) {
        var k :| 0 <= k < n && es[k] == e;
      }
    }
  }

  lemma PreparedInOrder(cfg: Config, es: seq<Entry>)
    requires InOrder(es, EntryKey)
    ensures InOrder(PrepareAll(cfg, es), PreparedKey)
  {
    hide Prepare;
    var ps := PrepareAll(cfg, es);
    forall i, j | 0 <= i < j < |ps| ensures KeyLe(PreparedKey(ps[i]), PreparedKey(ps[j])) {
      PrepareKeepsKey(cfg, es[i]);
      PrepareKeepsKey(cfg, es[j]);
    }
  }

  lemma FlushOfOrdered(cfg: Config, st: State, chunk: seq<Prepared>, isLast: bool)
    requires InOrder(chunk, PreparedKey)
    ensures Flush(cfg, st, chunk, isLast) == FlushSorted(cfg, st, chunk, isLast)
  {
    hide Receive;
    SortOfOrdered(chunk, PreparedKey);
  }

  lemma {:induction false} SendAllOfOrdered(cfg: Config, st: State, ps: seq<Prepared>, ranges: seq<Range>)
    requires InOrder(ps, PreparedKey)
    requires forall k :: 0 <= k < |ranges| ==> ranges[k].lo <= ranges[k].hi <= |ps|
    ensures SendAll(cfg, st, ps, ranges) == SendChunks(cfg, st, ps, ranges)
    decreases |ranges|
  {
    if ranges != [] {
      hide Flush, FlushSorted;
      var chunk := ps[ranges[0].lo..ranges[0].hi];
      FlushOfOrdered(cfg, st, chunk, |ranges| == 1);
      var sent := Flush(cfg, st, chunk, |ranges| == 1);
      if !Stopped(sent.result) {
        SendAllOfOrdered(cfg, sent, ps, ranges[1..]);
      }
    }
  }

  /** A stream nothing of which is importable sends nothing. */
  lemma {:induction false} StreamOfNothing(cfg: Config, st: State, items: seq<StreamItem>)
    requires ToSend(cfg, items) == [] && !IsOpenCode(cfg) && st.result.threadId.None?
    ensures StreamFrom(cfg, st, items, [], []) == st.(result := st.result.(filtered := st.result.filtered + |items|))
    decreases |items|
  {
    hide Prepare, Flush, Overflows, Measure, SentOf;
    if items != [] {
      ToSendFront(cfg, items);
      StreamStep(cfg, st, items, [], []);
      StreamOfNothing(cfg, CountFiltered(st), items[1..]);
    }
  }

  lemma {:induction false} EntriesBound(items: seq<StreamItem>)
    ensures |EntriesOf(items)| <= |items|
  {
    if items != [] {
      EntriesBound(items[..|items| - 1]);
    }
  }

  /** The chunks of an ordered session, sent by either path. */
  lemma {:induction false} VectorSends(cfg: Config, st: State, es: seq<Entry>)
    requires !IsOpenCode(cfg) && cfg.limits == DEFAULT_LIMITS && InOrder(es, EntryKey)
    ensures var ps := PrepareAll(cfg, es);
      SendVector(cfg, st, ps) == AfterSend(cfg, SendAll(cfg, st, ps, CutsOf(cfg, cfg.limits, ps, 0, 0)), [])
  {
    hide SendAll, SendChunks, Finalize, CutsOf, PrepareAll, InOrder, Prepare, RewireDuplicates, IsOpenCode;
    var ps := PrepareAll(cfg, es);
    PreparedInOrder(cfg, es);
    SendAllOfOrdered(cfg, st, ps, CutsOf(cfg, cfg.limits, ps, 0, 0));
  }

  /**
   For an ordered session under the default caps, the streaming run and the
   vector run send the same requests, meet the same answers, attempt the same
   events and count alike, in every world; a failing streaming run may only have
   counted fewer filtered entries by the time it stops.
   */
  lemma StreamingRefinesVector(cfg: Config, w: World, items: seq<StreamItem>, filtered: nat)
    requires !IsOpenCode(cfg) && cfg.limits == DEFAULT_LIMITS
    requires InOrder(EntriesOf(items), EntryKey)
    ensures |EntriesOf(items)| <= |items|
    ensures var streamed := RunStreaming(cfg, w, items, filtered);
      var vector := RunVector(cfg, w, EntriesOf(items), filtered + (|items| - |EntriesOf(items)|));
      && SameButFiltered(streamed, vector)
      && streamed.result.filtered <= vector.result.filtered
      && (!Stopped(streamed.result) ==> streamed == vector)
  {
    hide StreamFrom, SendAll, SendVector, Cut, Prepare, AfterSend, CutsOf, Importable, PrepareAll, InOrder, StableSort;
    EntriesBound(items);
    ToSendIsPreparedImportable(cfg, items);
    var es := EntriesOf(items);
    var ps := ToSend(cfg, items);
    var st := Start(cfg, w, filtered);
    if ps == [] {
      StreamOfNothing(cfg, st, items);
      SortOfOrdered(es, EntryKey);
    } else {
      assert MeasureAll(cfg, ps)[0..0] == [] && ps[0..] == ps;
      StreamSendsCuts(cfg, st, items, [], ps, 0, 0);
      var st' := Start(cfg, w, filtered + (|items| - |ps|));
      SortOfOrdered(es, EntryKey);
      ImportableKeepsOrder(es, cfg.since);
      VectorSends(cfg, st', Importable(es, cfg.since));
      SendAfterIgnoresFiltered(cfg, st, st', ps, CutsOf(cfg, cfg.limits, ps, 0, 0));
    }
  }

  lemma SendAfterIgnoresFiltered(cfg: Config, a: State, b: State, ps: seq<Prepared>, ranges: seq<Range>)
    requires SameButFiltered(a, b)
    requires forall k :: 0 <= k < |ranges| ==> ranges[k].lo <= ranges[k].hi <= |ps|
    ensures SameButFiltered(AfterSend(cfg, SendAll(cfg, a, ps, ranges), []),
                            AfterSend(cfg, SendAll(cfg, b, ps, ranges), []))
    ensures AfterSend(cfg, SendAll(cfg, b, ps, ranges), []).result.filtered == b.result.filtered
  {
    hide SendAll, AfterSend;
    SendAllIgnoresFiltered(cfg, a, b, ps, ranges);
    SendAllIgnoresFiltered(cfg, b, a, ps, ranges);
    AfterSendIgnoresFiltered(cfg, SendAll(cfg, a, ps, ranges), SendAll(cfg, b, ps, ranges), []);
    AfterSendIgnoresFiltered(cfg, SendAll(cfg, b, ps, ranges), SendAll(cfg, a, ps, ranges), []);
  }
}
