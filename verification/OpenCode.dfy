/**
 The OpenCode path only ever appends: what its preflight lets through, which
 requests a run may send at all, and how far the order of its tail can be relied on.
 */
module OpenCode {
  import opened Wrappers
  import opened Canonical
  import opened Batching
  import opened Store
  import opened Network
  import opened ImportRun
  import opened Refinement
  import opened History
  import Rewire
  import Protocol

  // The preflight is a partition of the session.

  /** What an exact lookup says about an existing row. */
  ghost function FactsOf(rows: map<string, Row>, e: string): ExistingMemory
    requires e in rows
  {
    ExistingMemory(e, rows[e].parents == [], rows[e].threads)
  }

  /** The entries without a row, in session order. */
  ghost function Absent(rows: map<string, Row>, entries: seq<Entry>): seq<Entry> {
    if entries == [] then []
    else
      var last := entries[|entries| - 1];
      Absent(rows, entries[..|entries| - 1]) + if last.externalId in rows then [] else [last]
  }

  /** The entries with a row, in session order, each with what is known of it. */
  ghost function Present(rows: map<string, Row>, entries: seq<Entry>): seq<Duplicate> {
    if entries == [] then []
    else
      var last := entries[|entries| - 1];
      Present(rows, entries[..|entries| - 1])
      + if last.externalId in rows then [Duplicate(last, FactsOf(rows, last.externalId))] else []
  }

  /** The entry's row belongs to another user, or is not in the session's thread. */
  ghost predicate Foreign(cfg: Config, rows: map<string, Row>, e: string, target: Option<nat>) {
    && e in rows
    && (rows[e].first.userId != cfg.userId || target.None? || target.value !in rows[e].threads)
  }

  /** The lookups of these entries saw the rows as they are, and none of them is foreign. */
  ghost predicate SawRows(
      cfg: Config, rows: map<string, Row>, entries: seq<Entry>, target: Option<nat>, seen: LookedUp)
  {
    && seen.newEntries == Absent(rows, entries)
    && (forall k :: 0 <= k < |entries| ==>
      && (entries[k].externalId in rows ==> entries[k].externalId in seen.existing)
      && !Foreign(cfg, rows, entries[k].externalId, target))
    && (forall e :: e in seen.existing ==> e in rows && seen.existing[e] == FactsOf(rows, e))
  }

  lemma LookupOneReads(cfg: Config, st: State, seen: LookedUp, entry: Entry, target: Option<nat>)
    requires Live(cfg) && Honest(st.world)
    ensures var (r, seen') := LookupOne(cfg, st, seen, entry, target);
      var rows, e := st.world.store.rows, entry.externalId;
      && r.world.store == st.world.store && Honest(r.world)
      && (seen'.Some? ==>
          && !Foreign(cfg, rows, e, target)
          && if e in rows then seen'.value == seen.(existing := seen.existing[e := FactsOf(rows, e)])
             else seen'.value == seen.(newEntries := seen.newEntries + [entry]))
  {
    hide Live, Honest, Invoke;
    InvokeIdle(cfg, st, FindMemory(entry.externalId));
  }

  lemma {:induction false} LookupOneSees(
      cfg: Config, st: State, before: seq<Entry>, seen: LookedUp, entry: Entry, target: Option<nat>)
    requires Live(cfg) && Honest(st.world) && SawRows(cfg, st.world.store.rows, before, target, seen)
    ensures var (r, seen') := LookupOne(cfg, st, seen, entry, target);
      && r.world.store == st.world.store && Honest(r.world)
      && (seen'.Some? ==> SawRows(cfg, st.world.store.rows, before + [entry], target, seen'.value))
  {
    hide Live, Honest, LookupOne, Foreign, SawRows;
    LookupOneReads(cfg, st, seen, entry, target);
    var seen' := LookupOne(cfg, st, seen, entry, target).1;
    if seen'.Some? {
      SawOneMore(cfg, st.world.store.rows, before, seen, entry, target, seen'.value);
    }
  }

  lemma {:induction false} SawOneMore(
      cfg: Config, rows: map<string, Row>, before: seq<Entry>, seen: LookedUp, entry: Entry, target: Option<nat>,
      seen': LookedUp)
    requires SawRows(cfg, rows, before, target, seen) && !Foreign(cfg, rows, entry.externalId, target)
    requires var e := entry.externalId;
      if e in rows then seen' == seen.(existing := seen.existing[e := FactsOf(rows, e)])
      else seen' == seen.(newEntries := seen.newEntries + [entry])
    ensures SawRows(cfg, rows, before + [entry], target, seen')
  {
    hide Foreign, FactsOf;
    var all := before + [entry];
    assert all[..|before|] == before;
    forall k | 0 <= k < |all|
      ensures !Foreign(cfg, rows, all[k].externalId, target)
      ensures all[k].externalId in rows ==> all[k].externalId in seen'.existing
    {
      assert k < |before| ==> all[k] == before[k];
    }
  }

  lemma {:induction false} LookupAllSees(cfg: Config, st: State, entries: seq<Entry>, target: Option<nat>)
    requires Live(cfg) && Honest(st.world)
    ensures var (r, seen) := LookupAll(cfg, st, entries, target);
      && r.world.store == st.world.store && Honest(r.world)
      && (seen.Some? ==> SawRows(cfg, st.world.store.rows, entries, target, seen.value))
  {
    hide Live, Honest, LookupOne, SawRows;
    if entries == [] {
      SawNothing(cfg, st.world.store.rows, entries, target);
    } else {
      var n := |entries| - 1;
      LookupAllSees(cfg, st, entries[..n], target);
      var (before, seen) := LookupAll(cfg, st, entries[..n], target);
      if seen.Some? {
        LookupOneSees(cfg, before, entries[..n], seen.value, entries[n], target);
        assert entries == entries[..n] + [entries[n]];
      }
    }
  }

  lemma SawNothing(cfg: Config, rows: map<string, Row>, entries: seq<Entry>, target: Option<nat>)
    requires entries == []
    ensures SawRows(cfg, rows, entries, target, LookedUp([], map[]))
  {
  }

  lemma {:induction false} DuplicatesArePresent(
      entries: seq<Entry>, existing: map<string, ExistingMemory>, rows: map<string, Row>)
    requires forall k :: 0 <= k < |entries| && entries[k].externalId in rows ==> entries[k].externalId in existing
    requires forall e :: e in existing ==> e in rows && existing[e] == FactsOf(rows, e)
    ensures DuplicatesIn(entries, existing) == Present(rows, entries)
  {
    if entries != [] {
      DuplicatesArePresent(entries[..|entries| - 1], existing, rows);
    }
  }

  lemma {:induction false} PartitionCounts(rows: map<string, Row>, entries: seq<Entry>)
    ensures |Absent(rows, entries)| + |Present(rows, entries)| == |entries|
    ensures forall e :: e in Absent(rows, entries) <==> e in entries && e.externalId !in rows
  {
    if entries != [] {
      var n := |entries| - 1;
      PartitionCounts(rows, entries[..n]);
      assert entries == entries[..n] + [entries[n]];
    }
  }

  /** The thread the session's channel has, as the preflight finds it. */
  ghost function SessionThread(cfg: Config, s: Store): Option<nat> {
    if cfg.session.channel in cfg.snapshot then Some(cfg.snapshot[cfg.session.channel])
    else
      var ids := ThreadsFor(s.threads, cfg.session.channel, cfg.userId);
      if ids == [] then None else Some(ids[0])
  }

  lemma TargetSees(cfg: Config, st: State, entries: seq<Entry>)
    requires Live(cfg) && Honest(st.world)
    ensures var (r, target) := TargetThread(cfg, st, entries);
      && r.world.store == st.world.store && Honest(r.world)
      && (target.Ok? && entries != [] ==> target.value == SessionThread(cfg, st.world.store))
  {
    hide Live, Honest, Invoke, ThreadsFor;
    InvokeIdle(cfg, st, FindThread(cfg.session.channel, cfg.userId));
  }

  /**
   A preflight that succeeds split the session, in order, into the entries that
   have no row and those that do; and every row it met is the user's own, in the
   session's own thread. It changed nothing.
   */
  lemma PreflightPartitions(cfg: Config, st: State, items: seq<StreamItem>)
    requires Live(cfg) && Honest(st.world)
    ensures var (r, p) := Preflight(cfg, st, items);
      var rows, entries := st.world.store.rows, NamespaceEntries(cfg, EntriesOf(items));
      && r.world.store == st.world.store && Honest(r.world)
      && (p.Ok? ==>
          && p.value.newEntries == Absent(rows, entries)
          && p.value.duplicates == Present(rows, entries)
          && p.value.duplicateCount == |p.value.duplicates|
          && (entries != [] ==> p.value.thread == SessionThread(cfg, st.world.store))
          && forall k :: 0 <= k < |entries| ==>
               !Foreign(cfg, rows, entries[k].externalId, SessionThread(cfg, st.world.store)))
  {
    hide Live, Honest, LookupAll, TargetThread, DuplicatesIn, Present, Absent, SessionThread, FactsOf, Foreign,
         NamespaceEntries;
    var entries := NamespaceEntries(cfg, EntriesOf(items));
    TargetSees(cfg, st, entries);
    var (asked, target) := TargetThread(cfg, st, entries);
    if target.Ok? {
      LookupAllSees(cfg, asked, entries, target.value);
      var (looked, seen) := LookupAll(cfg, asked, entries, target.value);
      if seen.Some? {
        DuplicatesArePresent(entries, seen.value.existing, st.world.store.rows);
        PartitionCounts(st.world.store.rows, entries);
      }
    }
  }

  // One collision and nothing at all is written.

  ghost predicate ReadsOnly(log: seq<Exchange>) {
    forall k :: 0 <= k < |log| ==> !IsWrite(log[k].request)
  }

  lemma {:induction false} LookupAllReads(cfg: Config, st: State, entries: seq<Entry>, target: Option<nat>)
    requires ReadsOnly(st.log)
    ensures ReadsOnly(LookupAll(cfg, st, entries, target).0.log)
  {
    if entries != [] {
      hide Invoke, CheckFound;
      LookupAllReads(cfg, st, entries[..|entries| - 1], target);
    }
  }

  lemma PreflightReads(cfg: Config, st: State, items: seq<StreamItem>)
    requires ReadsOnly(st.log)
    ensures ReadsOnly(Preflight(cfg, st, items).0.log)
  {
    hide LookupAll, DuplicatesIn, Invoke, ReadsOnly;
    var entries := NamespaceEntries(cfg, EntriesOf(items));
    var (asked, target) := TargetThread(cfg, st, entries);
    assert ReadsOnly(asked.log) by {
      OneMoreRead(st.log, Exchange(FindThread(cfg.session.channel, cfg.userId),
                                   Invoke(cfg, st, FindThread(cfg.session.channel, cfg.userId)).1));
    }
    if target.Ok? {
      LookupAllReads(cfg, asked, entries, target.value);
    }
  }

  lemma OneMoreRead(log: seq<Exchange>, x: Exchange)
    requires ReadsOnly(log) && !IsWrite(x.request)
    ensures ReadsOnly(log + [x])
  {
  }

  /**
   If any entry's row is another user's, or outside the session's thread, the run
   fails before its first write: it only ever reads, and the store is as it was.
   */
  lemma CollisionWritesNothing(cfg: Config, w: World, items: seq<StreamItem>, filtered: nat, k: nat)
    requires Live(cfg) && Honest(w) && IsOpenCode(cfg)
    requires k < |EntriesOf(items)|
    requires Foreign(cfg, w.store.rows, Namespaced(cfg, EntriesOf(items)[k]).externalId, SessionThread(cfg, w.store))
    ensures var r := RunStreaming(cfg, w, items, filtered);
      && r.result.error.Some? && r.result.imported == 0
      && ReadsOnly(r.log)
      && r.world.store == w.store
  {
    hide Preflight, StreamFrom, Live, Honest, Foreign, SessionThread, Namespaced;
    var st := Start(cfg, w, filtered);
    PreflightPartitions(cfg, st, items);
    PreflightReads(cfg, st, items);
    Protocol.PreflightQuiet(cfg, st, items);
    assert NamespaceEntries(cfg, EntriesOf(items))[k] == Namespaced(cfg, EntriesOf(items)[k]);
  }

  // What a run may send.

  /**
   A batch only carries inputs of the pool, for ids without a row; an update only goes to a lonely, parentless
   row of the user.
   */
  ghost predicate Appends(cfg: Config, rows: map<string, Row>, pool: set<Input>, request: Request) {
    match request
    case AddMemoriesBatch(batch) =>
      && !batch.upsertByExternalId
      && forall k :: 0 <= k < |batch.memories| ==> Fresh(rows, pool, batch.memories[k])
    case UpdateMemoryParents(id, e, parents) =>
      && e in rows && rows[e].parents == [] && rows[e].threads == {id}
      && rows[e].first.userId == cfg.userId && parents != []
    case _ => true
  }

  ghost predicate Fresh(rows: map<string, Row>, pool: set<Input>, input: Input) {
    Id(input) !in rows && input in pool
  }

  ghost predicate AllAppend(cfg: Config, rows: map<string, Row>, pool: set<Input>, log: seq<Exchange>) {
    forall k :: 0 <= k < |log| ==> Appends(cfg, rows, pool, log[k].request)
  }

  /** The duplicates are rows of the user in thread `id`, as the lookup saw them. */
  ghost predicate Genuine(cfg: Config, rows: map<string, Row>, duplicates: seq<Duplicate>, id: nat) {
    forall k :: 0 <= k < |duplicates| ==> GenuineOne(cfg, rows, duplicates[k], id)
  }

  ghost predicate GenuineOne(cfg: Config, rows: map<string, Row>, d: Duplicate, id: nat) {
    var e := d.entry.externalId;
    && e in rows && d.existing == FactsOf(rows, e)
    && rows[e].first.userId == cfg.userId && id in rows[e].threads
  }

  lemma OneMore(cfg: Config, rows: map<string, Row>, pool: set<Input>, log: seq<Exchange>, x: Exchange)
    requires AllAppend(cfg, rows, pool, log) && Appends(cfg, rows, pool, x.request)
    ensures AllAppend(cfg, rows, pool, log + [x])
  {
  }

  lemma InvokeAppends(cfg: Config, rows: map<string, Row>, pool: set<Input>, st: State, request: Request)
    requires AllAppend(cfg, rows, pool, st.log) && Appends(cfg, rows, pool, request)
    ensures AllAppend(cfg, rows, pool, Invoke(cfg, st, request).0.log)
  {
    hide Appends;
    OneMore(cfg, rows, pool, st.log, Exchange(request, Invoke(cfg, st, request).1));
  }

  lemma {:induction false} ParentLookupsAppend(
      cfg: Config, rows: map<string, Row>, pool: set<Input>, st: State, parents: seq<string>, id: nat)
    requires AllAppend(cfg, rows, pool, st.log)
    ensures AllAppend(cfg, rows, pool, ParentLookups(cfg, st, parents, id).0.log)
  {
    if parents != [] {
      hide AllAppend, Invoke, CheckParent;
      var n := |parents| - 1;
      ParentLookupsAppend(cfg, rows, pool, st, parents[..n], id);
      InvokeAppends(cfg, rows, pool, ParentLookups(cfg, st, parents[..n], id).0, FindMemory(parents[n]));
    }
  }

  lemma OnlyThread(threads: set<nat>, id: nat)
    requires |threads| == 1 && id in threads
    ensures threads == {id}
  {
    assert |threads - {id}| == 0;
    assert threads == {id} + (threads - {id});
  }

  lemma RewireOneAppends(cfg: Config, rows: map<string, Row>, pool: set<Input>, st: State, d: Duplicate, id: nat)
    requires AllAppend(cfg, rows, pool, st.log) && GenuineOne(cfg, rows, d, id)
    ensures AllAppend(cfg, rows, pool, RewireOne(cfg, st, d, id).log)
  {
    hide AllAppend, Invoke, ParentLookups;
    if Rewritable(d) {
      ParentLookupsAppend(cfg, rows, pool, st, d.entry.parentExternalIds, id);
      var (asked, found) := ParentLookups(cfg, st, d.entry.parentExternalIds, id);
      if found.Ok? && found.value != [] {
        OnlyThread(rows[d.entry.externalId].threads, id);
        InvokeAppends(cfg, rows, pool, asked, UpdateMemoryParents(id, d.existing.memoryId, found.value));
      }
    }
  }

  lemma {:induction false} RewireDuplicatesAppend(
      cfg: Config, rows: map<string, Row>, pool: set<Input>, st: State, duplicates: seq<Duplicate>, id: nat)
    requires AllAppend(cfg, rows, pool, st.log) && Genuine(cfg, rows, duplicates, id)
    ensures AllAppend(cfg, rows, pool, RewireDuplicates(cfg, st, duplicates, id).log)
    decreases |duplicates|
  {
    if duplicates != [] {
      hide AllAppend, RewireOne, GenuineOne;
      RewireOneAppends(cfg, rows, pool, st, duplicates[0], id);
      RewireDuplicatesAppend(cfg, rows, pool, RewireOne(cfg, st, duplicates[0], id), duplicates[1..], id);
    }
  }

  lemma {:induction false} AllCreatedNoJobs(id: nat, outcomes: seq<Outcome>)
    requires forall k :: 0 <= k < |outcomes| ==> outcomes[k].created
    ensures JobsOf(id, outcomes) == []
  {
    if outcomes != [] {
      AllCreatedNoJobs(id, outcomes[..|outcomes| - 1]);
    }
  }

  /** An insert-only batch that is taken inserts everything, and leaves nothing to rewire. */
  lemma InsertOnlyCreates(s: Store, batch: Batch)
    requires !batch.upsertByExternalId
    requires AddBatch(s, batch).1.Ok? && !AddBatch(s, batch).1.value.reply.suppressed
    ensures var reply := AddBatch(s, batch).1.value.reply;
      reply.threadId.Some? && JobsOf(reply.threadId.value, reply.outcomes) == []
  {
    hide AddAll, Outcomes, ResolveTarget, JobsOf, Rewire.Ready;
    Rewire.GenuineAnswer(s, batch);
    var reply := AddBatch(s, batch).1.value.reply;
    forall k | 0 <= k < |batch.memories| ensures Id(batch.memories[k]) !in s.rows {
      assert RowCollision(s.rows, Admit(s, batch).value.1, false, batch.memories[k]).None?;
    }
    AllCreatedNoJobs(reply.threadId.value, reply.outcomes);
  }

  lemma {:induction false} FlushAppends(
      cfg: Config, rows: map<string, Row>, pool: set<Input>, st: State, chunk: seq<Prepared>, isLast: bool)
    requires Live(cfg) && Honest(st.world) && IsOpenCode(cfg) && AllAppend(cfg, rows, pool, st.log)
    requires forall k :: 0 <= k < |chunk| ==> Fresh(rows, pool, chunk[k].input)
    ensures AllAppend(cfg, rows, pool, Flush(cfg, st, chunk, isLast).log)
  {
    hide AllAppend, StableSort, BuildLabels, Invoke, Receive, Live, Honest, IsOpenCode;
    var sorted := StableSort(chunk, PreparedKey);
    forall k | 0 <= k < |sorted| ensures Fresh(rows, pool, sorted[k].input) {
      SortedElement(chunk, k);
    }
    var batch := BatchOf(cfg, st.current, InputsOf(sorted), isLast);
    InvokeAppends(cfg, rows, pool, st, AddMemoriesBatch(batch));
    FlushUnfold(cfg, st, chunk, isLast, batch);
    var (sent, reply) := Invoke(cfg, st, AddMemoriesBatch(batch));
    if reply.Ok? {
      InsertedAtOnce(cfg, st, batch);
      ReceiveQuiet(cfg, sent, |chunk|, reply.value.reply);
    }
  }

  lemma {:induction false} SortedElement(chunk: seq<Prepared>, k: nat)
    requires k < |chunk|
    ensures StableSort(chunk, PreparedKey)[k] in chunk
  {
    hide StableSort;
    assert StableSort(chunk, PreparedKey)[k] in multiset(StableSort(chunk, PreparedKey));
  }

  lemma InsertedAtOnce(cfg: Config, st: State, batch: Batch)
    requires Live(cfg) && Honest(st.world) && !batch.upsertByExternalId
    ensures var reply := Invoke(cfg, st, AddMemoriesBatch(batch)).1;
      reply.Ok? && !reply.value.reply.suppressed ==>
        reply.value.reply.threadId.Some? && JobsOf(reply.value.reply.threadId.value, reply.value.reply.outcomes) == []
  {
    hide Rpc, AddBatch, JobsOf, Honest, BeforeLast;
    var policy :| cfg.client == LiveClient(policy);
    var request := AddMemoriesBatch(batch);
    RpcHonest(policy, st.world, request);
    if Rpc(policy, st.world, request).1.Ok? {
      assert Serve(BeforeLast(policy, st.world, request), request)
        == AddBatch(BeforeLast(policy, st.world, request), batch);
      if !Rpc(policy, st.world, request).1.value.reply.suppressed {
        InsertOnlyCreates(BeforeLast(policy, st.world, request), batch);
      }
    }
  }

  lemma ReceiveQuiet(cfg: Config, st: State, sent: nat, reply: BatchReply)
    requires !reply.suppressed && reply.threadId.Some? ==> JobsOf(reply.threadId.value, reply.outcomes) == []
    ensures Receive(cfg, st, sent, reply).log == st.log
  {
    hide JobsOf, CountRewired, CountCreated;
  }

  /** The run so far only appended, and its duplicates are in the thread it is pinned to. */
  ghost predicate Appending(
      cfg: Config, rows: map<string, Row>, pool: set<Input>, st: State, duplicates: seq<Duplicate>) {
    && Honest(st.world)
    && AllAppend(cfg, rows, pool, st.log)
    && (duplicates != [] ==> st.current.Some? && Genuine(cfg, rows, duplicates, st.current.value))
  }

  lemma {:induction false} FlushKeepsThread(cfg: Config, st: State, chunk: seq<Prepared>, isLast: bool)
    requires Live(cfg) && Honest(st.world) && st.current.Some?
    ensures var r := Flush(cfg, st, chunk, isLast); !Stopped(r.result) ==> r.current == st.current
  {
    hide Rpc, AddBatch, Receive, StableSort, BuildLabels, BeforeLast;
    var batch := BatchOf(cfg, st.current, InputsOf(StableSort(chunk, PreparedKey)), isLast);
    var policy :| cfg.client == LiveClient(policy);
    var request := AddMemoriesBatch(batch);
    FlushUnfold(cfg, st, chunk, isLast, batch);
    RpcHonest(policy, st.world, request);
    var (sent, reply) := Invoke(cfg, st, request);
    if reply.Ok? {
      assert Serve(BeforeLast(policy, st.world, request), request)
        == AddBatch(BeforeLast(policy, st.world, request), batch);
      NamesTarget(BeforeLast(policy, st.world, request), batch, st.current.value);
      ReceivePins(cfg, sent, |chunk|, reply.value.reply);
    }
  }

  lemma NamesTarget(s: Store, batch: Batch, id: nat)
    requires batch.target == ExistingThread(id)
    ensures var reply := AddBatch(s, batch).1;
      reply.Ok? && !reply.value.reply.suppressed ==> reply.value.reply.threadId == Some(id)
  {
    hide AddAll, Outcomes, Commit;
  }

  lemma ReceivePins(cfg: Config, st: State, sent: nat, reply: BatchReply)
    ensures var r := Receive(cfg, st, sent, reply);
      !Stopped(r.result) ==> !reply.suppressed && r.current == reply.threadId
  {
    hide RewirePass;
    if !reply.suppressed && reply.threadId.Some? {
      var (announced, fine) := Announce(cfg, st, reply.threadId.value, reply.threadCreated);
      RewirePassPins(cfg, announced.(current := reply.threadId), reply.outcomes, reply.threadId.value);
    }
  }

  lemma RewirePassPins(cfg: Config, st: State, outcomes: seq<Outcome>, id: nat)
    ensures RewirePass(cfg, st, outcomes, id).current == st.current
  {
    hide JobsOf, RunJobs, CountRewired, NextSchedule;
  }

  lemma {:induction false} FlushKeepsAppending(
      cfg: Config, rows: map<string, Row>, pool: set<Input>, st: State, chunk: seq<Prepared>, isLast: bool,
      duplicates: seq<Duplicate>)
    requires Live(cfg) && IsOpenCode(cfg) && Appending(cfg, rows, pool, st, duplicates)
    requires forall k :: 0 <= k < |chunk| ==> Fresh(rows, pool, chunk[k].input)
    ensures var r := Flush(cfg, st, chunk, isLast);
      && AllAppend(cfg, rows, pool, r.log)
      && (!Stopped(r.result) ==> Appending(cfg, rows, pool, r, duplicates))
  {
    hide Flush, Live, IsOpenCode, AllAppend, Evolves, ContentKept, Genuine, Honest;
    FlushAppends(cfg, rows, pool, st, chunk, isLast);
    FlushGrows(cfg, st, chunk, isLast);
    if duplicates != [] {
      FlushKeepsThread(cfg, st, chunk, isLast);
    }
  }

  lemma FinalizeAppends(cfg: Config, rows: map<string, Row>, pool: set<Input>, st: State)
    requires AllAppend(cfg, rows, pool, st.log)
    ensures AllAppend(cfg, rows, pool, Finalize(cfg, st).log) && Finalize(cfg, st).current == st.current
  {
    hide AllAppend, Invoke;
    if Recordable(cfg) && cfg.writesEnabled && !Stopped(st.result) && st.result.threadId.Some? {
      var subject := Endpoint(CanonicalSourceIdentity(cfg.session).value, cfg.userId);
      InvokeAppends(cfg, rows, pool, st, RecordObservations(st.result.threadId.value, subject));
    }
  }

  lemma ApplyLabelsAppends(cfg: Config, rows: map<string, Row>, pool: set<Input>, st: State, id: nat)
    requires AllAppend(cfg, rows, pool, st.log)
    ensures AllAppend(cfg, rows, pool, ApplyOpenCodeLabels(cfg, st, id).log)
  {
    hide AllAppend, Invoke, BuildLabels;
    InvokeAppends(cfg, rows, pool, st, AddLabels(id, BuildLabels(cfg.session, cfg.extraLabels)));
  }

  lemma {:induction false} CloseAppends(
      cfg: Config, rows: map<string, Row>, pool: set<Input>, st: State, pending: seq<Sized<Prepared>>,
      duplicates: seq<Duplicate>)
    requires Live(cfg) && IsOpenCode(cfg) && Appending(cfg, rows, pool, st, duplicates)
    requires forall k :: 0 <= k < |pending| ==> Fresh(rows, pool, pending[k].item.input)
    ensures AllAppend(cfg, rows, pool, Close(cfg, st, pending, duplicates).log)
  {
    hide Flush, Finalize, RewireDuplicates, ApplyOpenCodeLabels, AllAppend, Live, GenuineOne, Honest;
    var last := if pending == [] then st else Flush(cfg, st, ItemsOf(pending), true);
    if pending != [] {
      FlushKeepsAppending(cfg, rows, pool, st, ItemsOf(pending), true, duplicates);
    }
    if pending == [] || !Stopped(last.result) {
      FinalizeAppends(cfg, rows, pool, last);
      var recorded := Finalize(cfg, last);
      if recorded.current.Some? {
        var id := recorded.current.value;
        assert duplicates == [] ==> Genuine(cfg, rows, duplicates, id);
        ApplyLabelsAppends(cfg, rows, pool, recorded, id);
        RewireDuplicatesAppend(cfg, rows, pool, ApplyOpenCodeLabels(cfg, recorded, id), duplicates, id);
        RewireDuplicatesAppend(cfg, rows, pool, recorded, duplicates, id);
      }
    }
  }

  lemma {:induction false} StreamAppends(
      cfg: Config, rows: map<string, Row>, pool: set<Input>, st: State, items: seq<StreamItem>,
      pending: seq<Sized<Prepared>>,
      duplicates: seq<Duplicate>)
    requires Live(cfg) && IsOpenCode(cfg) && Appending(cfg, rows, pool, st, duplicates)
    requires forall k :: 0 <= k < |pending| ==> Fresh(rows, pool, pending[k].item.input)
    requires forall k :: 0 <= k < |items| && SentOf(cfg, items[k]) != [] ==>
      Fresh(rows, pool, SentOf(cfg, items[k])[0].input)
    ensures AllAppend(cfg, rows, pool, StreamFrom(cfg, st, items, pending, duplicates).log)
    decreases |items|
  {
    hide StreamFrom, Flush, Close, SentOf, Measure, Overflows, AllAppend, Live, Genuine, Honest, IsOpenCode;
    if items == [] {
      StreamEnd(cfg, st, pending, duplicates);
      CloseAppends(cfg, rows, pool, st, pending, duplicates);
    } else {
      StreamStep(cfg, st, items, pending, duplicates);
      if SentOf(cfg, items[0]) == [] {
        StreamAppends(cfg, rows, pool, CountFiltered(st), items[1..], pending, duplicates);
      } else {
        var next := Measure(cfg, SentOf(cfg, items[0])[0]);
        if Overflows(pending, next.size, cfg.limits) {
          FlushKeepsAppending(cfg, rows, pool, st, ItemsOf(pending), false, duplicates);
          var flushed := Flush(cfg, st, ItemsOf(pending), false);
          if !Stopped(flushed.result) {
            StreamAppends(cfg, rows, pool, flushed, items[1..], [next], duplicates);
          }
        } else {
          StreamAppends(cfg, rows, pool, st, items[1..], pending + [next], duplicates);
        }
      }
    }
  }

  /** The inputs of the entries that are to be imported. */
  ghost function Pool(cfg: Config, entries: seq<Entry>): (pool: set<Input>)
    ensures forall k :: 0 <= k < |entries| && IsEntryImportable(entries[k], cfg.since) ==>
      InputOf(cfg, entries[k]) in pool
    ensures forall input :: input in pool ==>
      exists k :: 0 <= k < |entries| && IsEntryImportable(entries[k], cfg.since) && input == InputOf(cfg, entries[k])
  {
    set k | 0 <= k < |entries| && IsEntryImportable(entries[k], cfg.since) :: InputOf(cfg, entries[k])
  }

  /** What an OpenCode session sends keeps the id the preflight gave it. */
  lemma SentIsFresh(cfg: Config, rows: map<string, Row>, entries: seq<Entry>, missing: seq<Entry>, k: nat)
    requires IsOpenCode(cfg) && k < |missing| && missing[k] in entries && missing[k].externalId !in rows
    ensures var item := EntryItems(missing)[k];
      SentOf(cfg, item) != [] ==> Fresh(rows, Pool(cfg, entries), SentOf(cfg, item)[0].input)
  {
    var i :| 0 <= i < |entries| && entries[i] == missing[k];
    assert IsEntryImportable(entries[i], cfg.since) ==> InputOf(cfg, entries[i]) in Pool(cfg, entries);
  }

  lemma {:induction false} PresentIsGenuine(
      cfg: Config, rows: map<string, Row>, entries: seq<Entry>, target: Option<nat>)
    requires forall k :: 0 <= k < |entries| ==> !Foreign(cfg, rows, entries[k].externalId, target)
    ensures Present(rows, entries) != [] ==> target.Some? && Genuine(cfg, rows, Present(rows, entries), target.value)
  {
    if entries != [] {
      PresentIsGenuine(cfg, rows, entries[..|entries| - 1], target);
    }
  }

  /**
   An OpenCode run inserts what has no row and links what is nobody else's: a batch
   carries inputs of importable entries whose ids had no row, and an update only goes
   to a row of the user that had no parents and no other thread, whatever the network
   loses.
   */
  lemma RunAppends(cfg: Config, w: World, items: seq<StreamItem>, filtered: nat)
    requires Live(cfg) && Honest(w) && IsOpenCode(cfg)
    ensures var pool := Pool(cfg, NamespaceEntries(cfg, EntriesOf(items)));
      AllAppend(cfg, w.store.rows, pool, RunStreaming(cfg, w, items, filtered).log)
  {
    hide StreamFrom, Preflight, Live, Honest, AllAppend, Genuine, Present, Absent, Foreign, SessionThread, IsOpenCode,
         NamespaceEntries;
    var st, rows := Start(cfg, w, filtered), w.store.rows;
    var entries := NamespaceEntries(cfg, EntriesOf(items));
    var pool := Pool(cfg, entries);
    PreflightPartitions(cfg, st, items);
    PreflightReads(cfg, st, items) by { assert st.log == []; }
    var (asked, found) := Preflight(cfg, st, items);
    ReadsAppend(cfg, rows, pool, asked.log);
    match found {
      case Ok(p) =>
        PresentIsGenuine(cfg, rows, entries, SessionThread(cfg, w.store));
        PartitionCounts(rows, entries);
        forall k | 0 <= k < |p.newEntries| && SentOf(cfg, EntryItems(p.newEntries)[k]) != []
          ensures Fresh(rows, pool, SentOf(cfg, EntryItems(p.newEntries)[k])[0].input)
        {
          assert p.newEntries[k] in Absent(rows, entries);
          SentIsFresh(cfg, rows, entries, p.newEntries, k);
        }
        StreamAppends(cfg, rows, pool, AfterPreflight(asked, p), EntryItems(p.newEntries), [], p.duplicates);
      case Err(_) =>
    }
  }

  lemma ReadsAppend(cfg: Config, rows: map<string, Row>, pool: set<Input>, log: seq<Exchange>)
    requires ReadsOnly(log)
    ensures AllAppend(cfg, rows, pool, log)
  {
  }
}
