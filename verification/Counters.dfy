/**
 What a run's counters and events say about the service, when the network loses
 nothing: imported rows are rows gained, and a creation is announced exactly for a
 thread that the service did not have before.
 */
module Counters {
  import opened Wrappers
  import opened Store
  import opened Network
  import opened ImportRun
  import opened Rewire
  import opened History
  import opened Path
  import opened Protocol

  lemma OneMoreKey(keys: set<string>, e: string)
    ensures |keys + {e}| == |keys| + if e in keys then 0 else 1
  {
    if e in keys {
      assert keys + {e} == keys;
    }
  }

  /** One more item: a new key if it was answered as created, and a known one if not. */
  lemma NewRow(keys: set<string>, before: set<string>, e: string, outcomes: seq<Outcome>, n: nat)
    requires n < |outcomes| && e !in before && outcomes[n].created == (e !in keys)
    requires |keys + before| == |keys| + OutcomesWith(outcomes[..n], true)
    ensures |keys + (before + {e})| == |keys| + OutcomesWith(outcomes[..n + 1], true)
  {
    hide OutcomesWith;
    OutcomesSnoc(outcomes[..n], outcomes[n], true);
    assert outcomes[..n] + [outcomes[n]] == outcomes[..n + 1];
    OneMoreKey(keys + before, e);
    assert keys + (before + {e}) == keys + before + {e};
  }

  lemma {:induction false} NewRows(keys: set<string>, memories: seq<Input>, outcomes: seq<Outcome>, n: nat)
    requires Distinct(memories) && |outcomes| == |memories| && n <= |memories|
    requires forall k :: 0 <= k < |memories| ==> outcomes[k].created == (Id(memories[k]) !in keys)
    ensures |keys + Ids(memories[..n])| == |keys| + OutcomesWith(outcomes[..n], true)
    decreases n
  {
    if n == 0 {
      NoRows(keys, memories[..n], outcomes[..n]);
    } else {
      hide OutcomesWith, Distinct, Ids;
      var e := Id(memories[n - 1]);
      NewRows(keys, memories, outcomes, n - 1);
      assert memories[..n][..n - 1] == memories[..n - 1];
      IdsSnoc(memories[..n]);
      NotAmong(memories, n - 1);
      NewRow(keys, Ids(memories[..n - 1]), e, outcomes, n - 1);
    }
  }

  lemma NoRows(keys: set<string>, memories: seq<Input>, outcomes: seq<Outcome>)
    requires memories == [] && outcomes == []
    ensures |keys + Ids(memories)| == |keys| + OutcomesWith(outcomes, true)
  {
    assert Ids(memories) == {} && keys + {} == keys;
  }

  lemma NotAmong(memories: seq<Input>, n: nat)
    requires Distinct(memories) && n < |memories|
    ensures Id(memories[n]) !in Ids(memories[..n])
  {
  }

  lemma CommitGains(s: Store, batch: Batch, ready: Store, id: nat, created: bool)
    requires Admit(s, batch) == Ok((ready, id, created))
    ensures Commit(ready, id, batch).rows.Keys == s.rows.Keys + Ids(batch.memories)
    ensures |Commit(ready, id, batch).threads| == |s.threads| + if created then 1 else 0
    ensures created ==> batch.target.Upsert?
  {
    hide AddAll, ThreadsFor, FirstCollision;
    AddAllKeys(ready, id, Attached(ready.rows, id), Ids(batch.memories), batch.memories);
  }

  /** A taken batch adds a row for each outcome answered as created, and a thread if it says so. */
  lemma BatchGains(s: Store, batch: Batch)
    requires AddBatch(s, batch).1.Ok? && !AddBatch(s, batch).1.value.reply.suppressed
    ensures var (s', reply) := (AddBatch(s, batch).0, AddBatch(s, batch).1.value.reply);
      && |reply.outcomes| == |batch.memories|
      && |s'.rows.Keys| == |s.rows.Keys| + OutcomesWith(reply.outcomes, true)
      && |s'.threads| == |s.threads| + (if reply.threadCreated then 1 else 0)
      && (reply.threadCreated ==> batch.target.Upsert?)
  {
    hide Outcomes, Ready, JobsOf, OutcomesWith, Admit, Commit, Ids;
    GenuineAnswer(s, batch);
    var (ready, id, created) := Admit(s, batch).value;
    CommitGains(s, batch, ready, id, created);
    var outcomes := AddBatch(s, batch).1.value.reply.outcomes;
    NewRows(s.rows.Keys, batch.memories, outcomes, |outcomes|);
    assert batch.memories[..|outcomes|] == batch.memories && outcomes[..|outcomes|] == outcomes;
  }

  lemma {:induction false} AttachAllKeeps(s: Store, id: nat, es: seq<string>)
    requires id < |s.threads|
    ensures AttachAll(s, id, es).rows.Keys == s.rows.Keys
  {
    if es != [] {
      AttachAllKeeps(s, id, es[..|es| - 1]);
    }
  }

  /** Nothing but a taken batch adds rows or threads. */
  lemma OthersGainNothing(s: Store, request: Request)
    requires request.AddMemoriesBatch? ==>
      AddBatch(s, request.batch).1.Err? || AddBatch(s, request.batch).1.value.reply.suppressed
    ensures Serve(s, request).0.rows.Keys == s.rows.Keys
    ensures |Serve(s, request).0.threads| == |s.threads|
  {
    hide AttachAll, Existing, Commit, Outcomes, Admit, Malformed;
    match request {
      case UpdateMemoryParents(id, e, parents) =>
        if id < |s.threads| && e in s.rows {
          var valid := Existing(s.rows, parents);
          AttachAllKeeps(s.(rows := s.rows[e := s.rows[e].(parents := valid)]), id, valid);
        }
      case _ =>
    }
  }

  /** How many batches were answered as having created their thread. */
  ghost function Creations(b: seq<Exchange>): nat {
    if b == [] then 0
    else
      var last := b[|b| - 1];
      Creations(b[..|b| - 1]) + if Named(last).Some? && last.reply.value.reply.threadCreated then 1 else 0
  }

  /** One request served: rows and threads gained, and what its answer adds to the counts. */
  lemma ServeGains(s: Store, b: seq<Exchange>, x: Exchange)
    requires x.reply == Serve(s, x.request).1
    ensures var s', b' := Serve(s, x.request).0, if x.request.AddMemoriesBatch? then b + [x] else b;
      && |s'.rows.Keys| - |s.rows.Keys| == Tally(b', true) - Tally(b, true)
      && |s'.threads| - |s.threads| == Creations(b') - Creations(b)
  {
    hide AddBatch, OutcomesWith;
    OneMoreBatch(b, x, true);
    assert (b + [x])[..|b|] == b;
    if x.request.AddMemoriesBatch? && Named(x).Some? {
      BatchGains(s, x.request.batch);
    } else {
      if x.request.AddMemoriesBatch? {
        TakenNamesThread(s, x.request.batch);
      }
      OthersGainNothing(s, x.request);
    }
  }

  lemma TakenNamesThread(s: Store, batch: Batch)
    ensures var reply := AddBatch(s, batch).1;
      reply.Ok? ==> reply.value.reply.suppressed || reply.value.reply.threadId.Some?
  {
    hide Malformed, Suppressed, Admit, Commit, Outcomes;
  }

  lemma {:induction false} LogGains(s: Store, log: seq<Exchange>, s': Store)
    requires Delivered(s, log, s')
    ensures |s'.rows.Keys| == |s.rows.Keys| + Tally(BatchesOf(log), true)
    ensures |s'.threads| == |s.threads| + Creations(BatchesOf(log))
    decreases |log|
  {
    hide Serve, Tally, Creations, BatchesOf;
    if log == [] {
      NoBatches(log);
    } else {
      var n := |log| - 1;
      BatchesSnoc(log);
      var before := ServedStore(s, log[..n]);
      assert forall k :: 0 <= k < n ==> log[..n][k] == log[k] && log[..n][..k] == log[..k];
      LogGains(s, log[..n], before);
      ServeGains(before, BatchesOf(log[..n]), log[n]);
    }
  }

  lemma NoBatches(log: seq<Exchange>)
    requires log == []
    ensures Tally(BatchesOf(log), true) == 0 && Creations(BatchesOf(log)) == 0
  {
  }

  lemma BatchesSnoc(log: seq<Exchange>)
    requires log != []
    ensures var n := |log| - 1;
      BatchesOf(log)
      == if log[n].request.AddMemoriesBatch? then BatchesOf(log[..n]) + [log[n]] else BatchesOf(log[..n])
  {
    assert BatchesOf(log[..|log| - 1]) + [] == BatchesOf(log[..|log| - 1]);
  }

  /** One more request: it creates the thread only if none is known. */
  lemma CreatesIfUnknown(cfg: Config, before: seq<Exchange>, x: Exchange, known: Option<nat>)
    requires ChainedAt(cfg, x, before, known) && GenuineReply(x)
    ensures Named(x).Some? && x.reply.value.reply.threadCreated ==> before == [] && known.None?
    ensures before != [] ==> FirstNaming(before).Some?
  {
    hide CarriesIdentity, BuildLabels;
  }

  lemma CreationsSnoc(b: seq<Exchange>)
    requires b != []
    ensures var n := |b| - 1;
      && Creations(b)
         == Creations(b[..n]) + (if Named(b[n]).Some? && b[n].reply.value.reply.threadCreated then 1 else 0)
      && FirstNaming(b) == if FirstNaming(b[..n]).Some? then FirstNaming(b[..n])
           else if Named(b[n]).Some? then Some(b[n].reply.value.reply) else None
  {
  }

  /** Only the first batch of a run that knows no thread can create it. */
  lemma {:induction false} CreatesAtMostFirst(cfg: Config, known: Option<nat>, b: seq<Exchange>)
    requires forall k :: 0 <= k < |b| ==> ChainedAt(cfg, b[k], b[..k], known)
    requires forall k :: 0 <= k < |b| ==> GenuineReply(b[k])
    ensures var first := if known.Some? then None else FirstNaming(b);
      Creations(b) == if first.Some? && first.value.threadCreated then 1 else 0
    decreases |b|
  {
    if b != [] {
      hide ChainedAt, GenuineReply, Creations, FirstNaming, Named;
      var n := |b| - 1;
      assert forall k :: 0 <= k < n ==> b[..n][k] == b[k] && b[..n][..k] == b[..k];
      CreatesAtMostFirst(cfg, known, b[..n]);
      CreatesIfUnknown(cfg, b[..n], b[n], known);
      CreationsSnoc(b);
    }
  }

  /** Only a batch that upserts its thread is answered as having created it. */
  ghost predicate GenuineReply(x: Exchange) {
    x.request.AddMemoriesBatch? && Named(x).Some? && x.reply.value.reply.threadCreated ==>
      x.request.batch.target.Upsert?
  }

  lemma {:induction false} DeliveredIsGenuine(s: Store, log: seq<Exchange>)
    requires forall k :: 0 <= k < |log| ==> log[k].reply == Serve(ServedStore(s, log[..k]), log[k].request).1
    ensures forall k :: 0 <= k < |BatchesOf(log)| ==> GenuineReply(BatchesOf(log)[k])
    decreases |log|
  {
    hide Serve, ServedStore, GenuineReply;
    if log != [] {
      var n := |log| - 1;
      assert forall k :: 0 <= k < n ==> log[..n][k] == log[k] && log[..n][..k] == log[..k];
      DeliveredIsGenuine(s, log[..n]);
      ServedIsGenuine(ServedStore(s, log[..n]), log[n]);
    }
  }

  lemma ServedIsGenuine(s: Store, x: Exchange)
    requires x.reply == Serve(s, x.request).1
    ensures GenuineReply(x)
  {
    hide AddBatch, OutcomesWith;
    if x.request.AddMemoriesBatch? && Named(x).Some? {
      BatchGains(s, x.request.batch);
    }
  }

  ghost function CreationEvents(cfg: Config, result: SessionResult): seq<Event> {
    if result.threadCreated && result.threadId.Some? && cfg.sinkOn
    then [ThreadCreated(cfg.session.channel, result.threadId.value)] else []
  }

  /**
   On a network that loses nothing, a run that no sink refusal stopped has imported as
   many rows as the service gained, and its thread is reported as new, and announced
   if there is a sink, exactly if the service gained a thread.
   */
  lemma GainsAreReported(cfg: Config, w: World, items: seq<StreamItem>, filtered: nat)
    requires Live(cfg) && w.fates == []
    ensures var r := RunStreaming(cfg, w, items, filtered);
      && (r.result.error != Some(SinkFailed) ==> r.result.imported == |r.world.store.rows| - |w.store.rows|)
      && (r.result.threadCreated <==> |r.world.store.threads| > |w.store.threads|)
      && |r.world.store.threads| <= |w.store.threads| + 1
      && (r.result.threadCreated ==> r.result.threadId.Some?)
      && r.events == CreationEvents(cfg, r.result)
  {
    hide RunStreaming, KnownBefore, ChainedAt, LabelledLast, Delivered, Live, Evolves, Tally, Creations, FirstNaming,
         BatchesOf;
    var r := RunStreaming(cfg, w, items, filtered);
    var (known, base) := KnownBefore(cfg, w, items, filtered);
    StreamingProtocol(cfg, w, items, filtered);
    RunEvolves(cfg, w, items, filtered);
    LogGains(w.store, r.log, r.world.store);
    GenuineLog(w.store, r.log, r.world.store);
    CreatesAtMostFirst(cfg, known, BatchesOf(r.log));
    assert |r.world.store.rows| == |r.world.store.rows.Keys| && |w.store.rows| == |w.store.rows.Keys|;
  }

  lemma GenuineLog(s: Store, log: seq<Exchange>, s': Store)
    requires Delivered(s, log, s')
    ensures forall k :: 0 <= k < |BatchesOf(log)| ==> GenuineReply(BatchesOf(log)[k])
  {
    hide Serve, ServedStore, GenuineReply, BatchesOf;
    DeliveredIsGenuine(s, log);
  }
}
