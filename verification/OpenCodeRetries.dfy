/**
 At-least-once delivery without upserts: a resent OpenCode batch is refused, so a
 run fails where others go on; the run that completes, however many failed before
 it, has brought in the rows one completing run brings in.
 */
module OpenCodeRetries {
  import opened Canonical
  import opened Batching
  import opened Store
  import opened Network
  import opened ImportRun
  import opened Refinement
  import opened History
  import opened Path
  import opened Resend
  import opened Convergence
  import opened OpenCode

  /** The row is as one of these inputs inserts it. */
  ghost predicate Stems(pool: set<Input>, e: string, row: Row) {
    exists input :: input in pool && Id(input) == e && row.first == input.memory && row.content == input.memory.content
  }

  /** Rows that were there are as they were; the others stem from the pool. */
  ghost predicate Inserts(pool: set<Input>, s: Store, s': Store) {
    && (forall e :: e in s.rows ==>
      e in s'.rows && s'.rows[e].first == s.rows[e].first && s'.rows[e].content == s.rows[e].content)
    && (forall e :: e in s'.rows && e !in s.rows ==> Stems(pool, e, s'.rows[e]))
  }

  lemma InsertsTransitive(pool: set<Input>, a: Store, b: Store, c: Store)
    requires Inserts(pool, a, b) && Inserts(pool, b, c)
    ensures Inserts(pool, a, c)
  {
    forall e | e in c.rows && e !in a.rows ensures Stems(pool, e, c.rows[e]) {
      if e in b.rows {
        var input :| input in pool && Id(input) == e && b.rows[e].first == input.memory
                     && b.rows[e].content == input.memory.content;
      }
    }
  }

  lemma InsertsNothing(pool: set<Input>, s: Store)
    ensures Inserts(pool, s, s)
  {
  }

  lemma AddOneInserts(pool: set<Input>, s: Store, id: nat, known: set<string>, batch: set<string>, input: Input)
    requires id < |s.threads| && input in pool && Id(input) !in s.rows
    ensures Inserts(pool, s, AddOne(s, id, known, batch, input))
  {
    hide ParentsOf;
  }

  lemma {:induction false} AddAllFresh(
      pool: set<Input>, s: Store, id: nat, attached: set<string>, batch: set<string>, memories: seq<Input>)
    requires id < |s.threads| && Distinct(memories)
    requires forall k :: 0 <= k < |memories| ==> memories[k] in pool && Id(memories[k]) !in s.rows
    ensures Inserts(pool, s, AddAll(s, id, attached, batch, memories))
  {
    hide AddOne, Inserts;
    if memories == [] {
      InsertsNothing(pool, s);
    } else {
      var n := |memories| - 1;
      var before := AddAll(s, id, attached, batch, memories[..n]);
      assert forall k :: 0 <= k < n ==> memories[..n][k] == memories[k];
      AddAllFresh(pool, s, id, attached, batch, memories[..n]);
      AddAllKeys(s, id, attached, batch, memories[..n]);
      NotBefore(memories);
      AddOneInserts(pool, before, id, attached + Ids(memories[..n]), batch, memories[n]);
      InsertsTransitive(pool, s, before, AddAll(s, id, attached, batch, memories));
    }
  }

  lemma {:induction false} AttachAllKeys(s: Store, id: nat, es: seq<string>)
    requires id < |s.threads|
    ensures AttachAll(s, id, es).rows.Keys == s.rows.Keys
  {
    if es != [] {
      AttachAllKeys(s, id, es[..|es| - 1]);
    }
  }

  /** What any request an OpenCode run sends does to the rows. */
  lemma ServeInserts(cfg: Config, rows: map<string, Row>, pool: set<Input>, s: Store, request: Request)
    requires Appends(cfg, rows, pool, request)
    ensures Inserts(pool, s, Serve(s, request).0)
  {
    hide AddAll, AttachAll, Evolves, ResolveTarget;
    InsertsNothing(pool, s);
    match request {
      case AddMemoriesBatch(batch) => BatchInserts(rows, pool, s, batch);
      case _ =>
        ServeEvolves(s, request);
        KeepsFirst(s, Serve(s, request).0);
        SameKeys(s, request);
    }
  }

  lemma KeepsFirst(s: Store, s': Store)
    requires Evolves(s, s')
    ensures forall e :: e in s.rows ==> e in s'.rows && s'.rows[e].first == s.rows[e].first
  {
    forall e | e in s.rows ensures e in s'.rows && s'.rows[e].first == s.rows[e].first {
      assert RowEvolves(s.rows[e], s'.rows[e]);
    }
  }

  lemma SameKeys(s: Store, request: Request)
    requires !request.AddMemoriesBatch?
    ensures Serve(s, request).0.rows.Keys == s.rows.Keys
  {
    hide AttachAll, Existing;
    match request {
      case UpdateMemoryParents(id, e, parents) =>
        if id < |s.threads| && e in s.rows {
          var valid := Existing(s.rows, parents);
          AttachAllKeys(s.(rows := s.rows[e := s.rows[e].(parents := valid)]), id, valid);
        }
      case _ =>
    }
  }

  lemma BatchInserts(rows: map<string, Row>, pool: set<Input>, s: Store, batch: Batch)
    requires !batch.upsertByExternalId
    requires forall k :: 0 <= k < |batch.memories| ==> Fresh(rows, pool, batch.memories[k])
    ensures Inserts(pool, s, AddBatch(s, batch).0)
  {
    hide AddAll, Inserts, Fresh;
    InsertsNothing(pool, s);
    if !Malformed(batch.memories) && !Suppressed(s, batch) && Admit(s, batch).Ok? {
      var (ready, id, _) := Admit(s, batch).value;
      var known := Attached(ready.rows, id);
      forall k | 0 <= k < |batch.memories| ensures batch.memories[k] in pool && Id(batch.memories[k]) !in ready.rows {
        assert RowCollision(s.rows, id, false, batch.memories[k]).None?;
        IsFresh(rows, pool, batch.memories[k]);
      }
      AddAllFresh(pool, ready, id, known, Ids(batch.memories), batch.memories);
      SameRows(pool, ready, s, AddAll(ready, id, known, Ids(batch.memories), batch.memories), Commit(ready, id, batch));
    }
  }

  lemma IsFresh(rows: map<string, Row>, pool: set<Input>, input: Input)
    requires Fresh(rows, pool, input)
    ensures input in pool
  {
  }

  lemma SameRows(pool: set<Input>, a: Store, a': Store, b: Store, b': Store)
    requires Inserts(pool, a, b) && a.rows == a'.rows && b.rows == b'.rows
    ensures Inserts(pool, a', b')
  {
  }

  lemma {:induction false} TakenInserts(
      cfg: Config, rows: map<string, Row>, pool: set<Input>, s: Store, request: Request, times: nat)
    requires Appends(cfg, rows, pool, request)
    ensures Inserts(pool, s, Taken(s, request, times))
  {
    hide Inserts, Serve, Appends;
    if times == 0 {
      InsertsNothing(pool, s);
    } else {
      var before := Taken(s, request, times - 1);
      TakenInserts(cfg, rows, pool, s, request, times - 1);
      ServeInserts(cfg, rows, pool, before, request);
      InsertsTransitive(pool, s, before, Serve(before, request).0);
    }
  }

  /** What the server makes of requests that only append. */
  lemma {:induction false} ReplayInserts(
      cfg: Config, rows: map<string, Row>, pool: set<Input>, s: Store, log: seq<Exchange>, s': Store)
    requires AllAppend(cfg, rows, pool, log) && Replays(s, log, s')
    ensures Inserts(pool, s, s')
    decreases |log|
  {
    hide Inserts, Appends;
    if log == [] {
      InsertsNothing(pool, s);
    } else {
      var n := |log| - 1;
      var before :| Replays(s, log[..n], before) && TakesTo(before, log[n].request, s');
      var times :| Taken(before, log[n].request, times) == s';
      assert forall k :: 0 <= k < n ==> log[..n][k] == log[k];
      ReplayInserts(cfg, rows, pool, s, log[..n], before);
      TakenInserts(cfg, rows, pool, before, log[n].request, times);
      InsertsTransitive(pool, s, before, s');
    }
  }

  ghost function SessionPool(cfg: Config, items: seq<StreamItem>): set<Input> {
    Pool(cfg, NamespaceEntries(cfg, EntriesOf(items)))
  }

  /** A run, whatever becomes of it, inserts rows of the session and touches no other. */
  lemma RunInserts(cfg: Config, w: World, items: seq<StreamItem>, filtered: nat)
    requires Live(cfg) && Honest(w) && IsOpenCode(cfg)
    ensures Inserts(SessionPool(cfg, items), w.store, RunStreaming(cfg, w, items, filtered).world.store)
  {
    hide RunStreaming, AllAppend, Replays, Inserts, Live, Honest, Evolves;
    var r := RunStreaming(cfg, w, items, filtered);
    RunAppends(cfg, w, items, filtered);
    RunEvolves(cfg, w, items, filtered);
    ReplayInserts(cfg, w.store.rows, SessionPool(cfg, items), w.store, r.log, r.world.store);
  }

  lemma {:induction false} RerunsInsert(cfg: Config, s: Store, items: seq<StreamItem>, networks: seq<World>)
    requires Live(cfg) && AllHonest(networks) && IsOpenCode(cfg)
    ensures Inserts(SessionPool(cfg, items), s, Reruns(cfg, s, items, networks))
  {
    hide RunStreaming, Inserts, Live, SessionPool;
    var pool := SessionPool(cfg, items);
    if networks == [] {
      InsertsNothing(pool, s);
    } else {
      var n := |networks| - 1;
      var before := Reruns(cfg, s, items, networks[..n]);
      assert Honest(networks[n]);
      RerunsInsert(cfg, s, items, networks[..n]);
      RunInserts(cfg, networks[n].(store := before), items, 0);
      InsertsTransitive(pool, s, before, Reruns(cfg, s, items, networks));
    }
  }

  // A run that completes has everything in.

  ghost predicate HasRow(s: Store, input: Input) {
    Id(input) in s.rows
  }

  lemma RowsStay(cfg: Config, a: State, b: State, input: Input)
    requires Grows(cfg, a, b) && HasRow(a.world.store, input)
    ensures HasRow(b.world.store, input)
  {
  }

  lemma {:induction false} FlushTakes(cfg: Config, st: State, chunk: seq<Prepared>, isLast: bool, k: nat)
    requires Live(cfg) && Honest(st.world) && k < |chunk|
    ensures var r := Flush(cfg, st, chunk, isLast); !Stopped(r.result) ==> HasRow(r.world.store, chunk[k].input)
  {
    hide Rpc, AddBatch, Receive, StableSort, BuildLabels, BeforeLast, Live, Grows, HasRow, Honest;
    var sorted := StableSort(chunk, PreparedKey);
    var batch := BatchOf(cfg, st.current, InputsOf(sorted), isLast);
    var request := AddMemoriesBatch(batch);
    FlushUnfold(cfg, st, chunk, isLast, batch);
    var (sent, reply) := Invoke(cfg, st, request);
    if reply.Ok? && !Stopped(Flush(cfg, st, chunk, isLast).result) {
      TakenHasRows(cfg, st, batch);
      SuppressedStopsRun(cfg, sent, |chunk|, reply.value.reply);
      assert chunk[k] in multiset(chunk);
      assert chunk[k] in multiset(sorted);
      var i :| 0 <= i < |sorted| && sorted[i] == chunk[k];
      assert batch.memories[i] == chunk[k].input;
      ReceiveGrows(cfg, sent, |chunk|, reply.value.reply);
      RowsStay(cfg, sent, Receive(cfg, sent, |chunk|, reply.value.reply), chunk[k].input);
    }
  }

  lemma SuppressedStopsRun(cfg: Config, st: State, sent: nat, reply: BatchReply)
    ensures reply.suppressed ==> Stopped(Receive(cfg, st, sent, reply).result)
  {
  }

  lemma TakenHasRows(cfg: Config, st: State, batch: Batch)
    requires Live(cfg) && Honest(st.world)
    ensures var (r, reply) := Invoke(cfg, st, AddMemoriesBatch(batch));
      reply.Ok? && !reply.value.reply.suppressed ==>
        forall i :: 0 <= i < |batch.memories| ==> HasRow(r.world.store, batch.memories[i])
  {
    hide Rpc, AddBatch, BeforeLast, Honest;
    var policy :| cfg.client == LiveClient(policy);
    var request := AddMemoriesBatch(batch);
    RpcHonest(policy, st.world, request);
    if Rpc(policy, st.world, request).1.Ok? {
      var before := BeforeLast(policy, st.world, request);
      assert Serve(before, request) == AddBatch(before, batch);
      if !Rpc(policy, st.world, request).1.value.reply.suppressed {
        AcceptedHasRows(before, batch);
      }
    }
  }

  lemma AcceptedHasRows(s: Store, batch: Batch)
    requires AddBatch(s, batch).1.Ok? && !AddBatch(s, batch).1.value.reply.suppressed
    ensures forall i :: 0 <= i < |batch.memories| ==> HasRow(AddBatch(s, batch).0, batch.memories[i])
  {
    hide Admit, Outcomes, Commit;
    var (ready, id, _) := Admit(s, batch).value;
    CommitKeys(ready, id, batch);
  }

  /** What is pending, and what is still to come, is in once the run completes. */
  lemma {:induction false} StreamTakes(
      cfg: Config, st: State, items: seq<StreamItem>, pending: seq<Sized<Prepared>>, duplicates: seq<Duplicate>)
    requires Live(cfg) && Honest(st.world)
    ensures var r := StreamFrom(cfg, st, items, pending, duplicates);
      !Stopped(r.result) ==>
        && (forall k :: 0 <= k < |pending| ==> HasRow(r.world.store, pending[k].item.input))
        && (forall k :: 0 <= k < |items| && SentOf(cfg, items[k]) != [] ==>
             HasRow(r.world.store, SentOf(cfg, items[k])[0].input))
    decreases |items|
  {
    hide StreamFrom, Flush, Close, SentOf, Measure, Overflows, Grows, Live, Honest, HasRow;
    var r := StreamFrom(cfg, st, items, pending, duplicates);
    if items == [] {
      StreamEnd(cfg, st, pending, duplicates);
      CloseTakes(cfg, st, pending, duplicates);
    } else if !Stopped(r.result) {
      StreamStep(cfg, st, items, pending, duplicates);
      if SentOf(cfg, items[0]) == [] {
        StreamTakes(cfg, CountFiltered(st), items[1..], pending, duplicates);
      } else {
        var next := Measure(cfg, SentOf(cfg, items[0])[0]);
        if Overflows(pending, next.size, cfg.limits) {
          var flushed := Flush(cfg, st, ItemsOf(pending), false);
          FlushGrows(cfg, st, ItemsOf(pending), false);
          GrowsHonest(cfg, st, flushed);
          StreamTakes(cfg, flushed, items[1..], [next], duplicates);
          StreamGrows(cfg, flushed, items[1..], [next], duplicates);
          assert [next][0].item == SentOf(cfg, items[0])[0];
          forall k | 0 <= k < |pending| ensures HasRow(r.world.store, pending[k].item.input) {
            FlushTakes(cfg, st, ItemsOf(pending), false, k);
            RowsStay(cfg, flushed, r, pending[k].item.input);
          }
        } else {
          var grown := pending + [next];
          StreamTakes(cfg, st, items[1..], grown, duplicates);
          assert grown[|pending|].item == SentOf(cfg, items[0])[0];
          assert forall k :: 0 <= k < |pending| ==> grown[k] == pending[k];
        }
      }
      assert forall k :: 0 < k < |items| ==> items[k] == items[1..][k - 1];
    }
  }

  lemma GrowsHonest(cfg: Config, a: State, b: State)
    requires Grows(cfg, a, b) && Honest(a.world)
    ensures Honest(b.world)
  {
  }

  lemma {:induction false} CloseTakes(
      cfg: Config, st: State, pending: seq<Sized<Prepared>>, duplicates: seq<Duplicate>)
    requires Live(cfg) && Honest(st.world)
    ensures var r := Close(cfg, st, pending, duplicates);
      !Stopped(r.result) ==> forall k :: 0 <= k < |pending| ==> HasRow(r.world.store, pending[k].item.input)
  {
    hide Flush, Finalize, RewireDuplicates, ApplyOpenCodeLabels, Live, Honest, Grows, HasRow;
    var r := Close(cfg, st, pending, duplicates);
    if pending != [] && !Stopped(r.result) {
      var flushed := Flush(cfg, st, ItemsOf(pending), true);
      var recorded := Finalize(cfg, flushed);
      FinalizeGrows(cfg, flushed);
      if recorded.current.Some? {
        RewireDuplicatesGrows(cfg, recorded, duplicates, recorded.current.value);
      }
      forall k | 0 <= k < |pending| ensures HasRow(r.world.store, pending[k].item.input) {
        FlushTakes(cfg, st, ItemsOf(pending), true, k);
        RowsStay(cfg, flushed, recorded, pending[k].item.input);
        if r != recorded {
          RowsStay(cfg, recorded, r, pending[k].item.input);
        }
      }
    }
  }

  /** A run that completes leaves a row for every entry that is to be imported. */
  lemma CompletedHoldsAll(cfg: Config, w: World, items: seq<StreamItem>, filtered: nat)
    requires Live(cfg) && Honest(w) && IsOpenCode(cfg)
    ensures var r := RunStreaming(cfg, w, items, filtered);
      !Stopped(r.result) ==> forall input :: input in SessionPool(cfg, items) ==> HasRow(r.world.store, input)
  {
    hide StreamFrom, Preflight, Live, Honest, Present, Absent, Foreign, SessionThread, NamespaceEntries, Grows, HasRow,
         Pool, SentOf, EntryItems, IsOpenCode;
    var st, r := Start(cfg, w, filtered), RunStreaming(cfg, w, items, filtered);
    PreflightPartitions(cfg, st, items);
    PreflightGrows(cfg, st, items);
    var (asked, found) := Preflight(cfg, st, items);
    if !Stopped(r.result) {
      var p, entries := found.value, NamespaceEntries(cfg, EntriesOf(items));
      var ready := AfterPreflight(asked, p);
      PartitionCounts(w.store.rows, entries);
      StreamTakes(cfg, ready, EntryItems(p.newEntries), [], p.duplicates);
      StreamGrows(cfg, ready, EntryItems(p.newEntries), [], p.duplicates);
      forall input | input in SessionPool(cfg, items) ensures HasRow(r.world.store, input) {
        PoolHeld(cfg, entries, p.newEntries, ready, r, input);
      }
    }
  }

  /** An entry to be imported had a row, or was among those sent. */
  lemma PoolHeld(cfg: Config, entries: seq<Entry>, missing: seq<Entry>, ready: State, r: State, input: Input)
    requires IsOpenCode(cfg) && input in Pool(cfg, entries) && Grows(cfg, ready, r)
    requires forall e :: e in missing <==> e in entries && e.externalId !in ready.world.store.rows
    requires forall k :: 0 <= k < |missing| && SentOf(cfg, EntryItems(missing)[k]) != [] ==>
      HasRow(r.world.store, SentOf(cfg, EntryItems(missing)[k])[0].input)
    ensures HasRow(r.world.store, input)
  {
    hide Grows, Pool, SentOf, EntryItems, InputOf, IsOpenCode, HasRow;
    var k :| 0 <= k < |entries| && IsEntryImportable(entries[k], cfg.since) && input == InputOf(cfg, entries[k]);
    if entries[k].externalId in ready.world.store.rows {
      HadRow(cfg, ready.world.store, entries[k]);
      RowsStay(cfg, ready, r, input);
    } else {
      assert entries[k] in missing;
      var i :| 0 <= i < |missing| && missing[i] == entries[k];
      SentOfMissing(cfg, missing, i);
    }
  }

  lemma HadRow(cfg: Config, s: Store, entry: Entry)
    requires entry.externalId in s.rows
    ensures HasRow(s, InputOf(cfg, entry))
  {
  }

  lemma SentOfMissing(cfg: Config, missing: seq<Entry>, i: nat)
    requires IsOpenCode(cfg) && i < |missing| && IsEntryImportable(missing[i], cfg.since)
    ensures var sent := SentOf(cfg, EntryItems(missing)[i]); sent != [] && sent[0].input == InputOf(cfg, missing[i])
  {
  }

  /** All the session has for id `e` is one row's data. */
  ghost predicate OneVoice(pool: set<Input>, e: string) {
    forall a, b :: a in pool && b in pool && Id(a) == e && Id(b) == e ==> a.memory == b.memory
  }

  /**
   Any number of runs of an OpenCode session over networks that may lose requests and
   answers at will, and then one that completes: the rows are those a single completing
   run leaves; those that were there hold what they held, and of a new one the data and
   the content are the session's, so the same where the session has one version of it.
   */
  lemma {:induction false} AppendOnlyRetriesConverge(
      cfg: Config, s: Store, items: seq<StreamItem>, networks: seq<World>, last: World, once: World)
    requires Live(cfg) && IsOpenCode(cfg)
    requires AllHonest(networks) && Honest(last) && Honest(once)
    ensures var a := RunStreaming(cfg, last.(store := Reruns(cfg, s, items, networks)), items, 0);
      var b := RunStreaming(cfg, once.(store := s), items, 0);
      var pool := SessionPool(cfg, items);
      !Stopped(a.result) && !Stopped(b.result) ==>
        && a.world.store.rows.Keys == b.world.store.rows.Keys == s.rows.Keys + (set input | input in pool :: Id(input))
        && Inserts(pool, s, a.world.store) && Inserts(pool, s, b.world.store)
        && forall e :: e in a.world.store.rows && (e in s.rows || OneVoice(pool, e)) ==>
             && a.world.store.rows[e].first == b.world.store.rows[e].first
             && a.world.store.rows[e].content == b.world.store.rows[e].content
  {
    hide RunStreaming, Live, Honest, SessionPool, IsOpenCode, AllHonest;
    var pool, met := SessionPool(cfg, items), Reruns(cfg, s, items, networks);
    var w, w' := last.(store := met), once.(store := s);
    var a, b := RunStreaming(cfg, w, items, 0).world.store, RunStreaming(cfg, w', items, 0).world.store;
    RerunsInsert(cfg, s, items, networks);
    assert Honest(w) && Honest(w') by {
      StoreAside(last, met);
      StoreAside(once, s);
    }
    RunInserts(cfg, w, items, 0);
    RunInserts(cfg, w', items, 0);
    InsertsTransitive(pool, s, met, a);
    CompletedHoldsAll(cfg, w, items, 0);
    CompletedHoldsAll(cfg, w', items, 0);
    if !Stopped(RunStreaming(cfg, w, items, 0).result) && !Stopped(RunStreaming(cfg, w', items, 0).result) {
      InsertedKeys(pool, s, a);
      InsertedKeys(pool, s, b);
      InsertedAlike(pool, s, a, b);
    }
  }

  lemma StoreAside(w: World, s: Store)
    requires Honest(w)
    ensures Honest(w.(store := s))
  {
  }

  lemma InsertedKeys(pool: set<Input>, s: Store, s': Store)
    requires Inserts(pool, s, s') && forall input :: input in pool ==> HasRow(s', input)
    ensures s'.rows.Keys == s.rows.Keys + (set input | input in pool :: Id(input))
  {
    forall e | e in s'.rows && e !in s.rows ensures exists input :: input in pool && Id(input) == e {
      assert Stems(pool, e, s'.rows[e]);
    }
  }

  lemma InsertedAlike(pool: set<Input>, s: Store, a: Store, b: Store)
    requires Inserts(pool, s, a) && Inserts(pool, s, b) && a.rows.Keys == b.rows.Keys
    ensures forall e :: e in a.rows && (e in s.rows || OneVoice(pool, e)) ==>
      a.rows[e].first == b.rows[e].first && a.rows[e].content == b.rows[e].content
  {
    forall e | e in a.rows && (e in s.rows || OneVoice(pool, e))
      ensures a.rows[e].first == b.rows[e].first && a.rows[e].content == b.rows[e].content
    {
      if e !in s.rows {
        assert Stems(pool, e, a.rows[e]) && Stems(pool, e, b.rows[e]);
      }
    }
  }
}
