/**
 A session that completes at all completes on a clean network, from wherever its
 earlier runs left the store: what the server accepted from one run at one point
 of the session's path, it accepts at every other. So the store that retries
 converge to is one a single clean run reaches, and no failed run is in the way of
 a later one.
 */
module CleanRun {
  import opened Wrappers
  import opened Text
  import opened Retry
  import opened Batching
  import opened Store
  import opened Network
  import opened ImportRun
  import opened Refinement
  import opened Rewire
  import opened History
  import opened Path
  import opened SessionRuns
  import opened Convergence

  lemma {:induction false} AddAllKeepsRows(
      s: Store, id: nat, known: set<string>, batch: set<string>, memories: seq<Input>)
    requires id < |s.threads|
    ensures var r := AddAll(s, id, known, batch, memories);
      forall e :: e in s.rows ==>
        e in r.rows && r.rows[e].first == s.rows[e].first && r.rows[e].threads == s.rows[e].threads
  {
    if memories != [] {
      AddAllKeepsRows(s, id, known, batch, memories[..|memories| - 1]);
    }
  }

  /** What is in a row at one point of the path is in it from there on. */
  lemma {:induction false} PathKeepsRows(plan: Plan, q: nat, p: nat)
    requires q <= p <= |plan.inputs|
    ensures var a, b := plan.At(q).rows, plan.At(p).rows;
      forall e :: e in a ==> e in b && b[e].first == a[e].first && b[e].threads == a[e].threads
  {
    hide AddAll, ThreadsFor;
    var ready, id := plan.Ready(), plan.Home();
    AddAllKeepsRows(ready, id, {}, {}, plan.inputs[..p]);
    if q > 0 {
      AddInTwo(ready, id, plan.inputs[..q], plan.inputs[q..p]);
      assert plan.inputs[..q] + plan.inputs[q..p] == plan.inputs[..p];
      AddAllKeepsRows(AddAll(ready, id, {}, {}, plan.inputs[..q]), id, {}, {}, plan.inputs[q..p]);
    }
  }

  /** The markers, and the owner of the session's thread, are the same all along. */
  lemma PathOwner(plan: Plan, s: Store, p: nat, ready: Store)
    requires plan.Unambiguous() && Reached(plan, s, p)
    requires Alike(AddAll(plan.Ready(), plan.Home(), {}, {}, plan.inputs[..p]), ready)
    ensures s.markers == plan.base.markers
    ensures plan.Home() < |ready.threads| && ready.threads[plan.Home()].userId == plan.userId
  {
    hide AddAll, ThreadsFor, LabelsFit, KeptOutside;
    ReadyHasHome(plan);
    AddAllThreads(plan.Ready(), plan.Home(), {}, {}, plan.inputs[..p]);
  }

  /** The session's thread is open, or opens, for a batch of the session. */
  lemma TargetOpen(plan: Plan, s: Store, p: nat, batch: Batch, a: nat, b: nat)
    requires plan.Unambiguous() && Reached(plan, s, p) && Ours(plan, batch, a, b) && a <= p
    requires batch.target.Upsert? ==> batch.target.userId != 0 && batch.target.channel != ""
    ensures ResolveTarget(s, batch.target).Ok?
  {
    hide AddAll, LabelsFit, KeptOutside, ThreadsFor;
    PathThreads(plan, s, p);
  }

  lemma Admitted(s: Store, batch: Batch)
    requires AddBatch(s, batch).1.Ok? && !AddBatch(s, batch).1.value.reply.suppressed
    ensures !Malformed(batch.memories) && !Suppressed(s, batch) && Admit(s, batch).Ok?
  {
    hide Malformed, Admit, Outcomes, Commit;
  }

  /** A batch accepted somewhere on the path is accepted at any earlier point it may be sent from. */
  lemma AcceptedEarlier(plan: Plan, s: Store, p: nat, s': Store, q: nat, batch: Batch, a: nat, b: nat)
    requires plan.Unambiguous() && Reached(plan, s, p) && Reached(plan, s', q) && a <= q <= p
    requires Ours(plan, batch, a, b)
    requires AddBatch(s, batch).1.Ok? && !AddBatch(s, batch).1.value.reply.suppressed
    ensures AddBatch(s', batch).1.Ok? && !AddBatch(s', batch).1.value.reply.suppressed
  {
    hide AddAll, LabelsFit, KeptOutside, ThreadsFor, Malformed, Outcomes, Commit, Reached, Alike, LabelSet;
    Admitted(s, batch);
    Resolves(plan, s, p, batch, a, b);
    PathOwner(plan, s, p, Admit(s, batch).value.0);
    TargetOpen(plan, s', q, batch, a, b);
    Resolves(plan, s', q, batch, a, b);
    PathOwner(plan, s', q, ResolveTarget(s', batch.target).value.0);
    NoCollision(plan, s, p, s', q, batch.memories);
  }

  lemma NoCollision(plan: Plan, s: Store, p: nat, s': Store, q: nat, memories: seq<Input>)
    requires Reached(plan, s, p) && Reached(plan, s', q) && q <= p
    requires FirstCollision(s.rows, plan.Home(), true, memories) == None
    ensures FirstCollision(s'.rows, plan.Home(), true, memories) == None
  {
    hide AddAll, LabelsFit, KeptOutside, ThreadsFor;
    PathKeepsRows(plan, q, p);
    forall k | 0 <= k < |memories| ensures RowCollision(s'.rows, plan.Home(), true, memories[k]).None? {
      assert RowCollision(s.rows, plan.Home(), true, memories[k]).None?;
    }
  }

  /** Everything the session sends is the session's user's. */
  ghost predicate Owned(userId: I64, memories: seq<Input>) {
    forall k :: 0 <= k < |memories| ==> memories[k].memory.userId == userId
  }

  lemma {:induction false} FlatOwned(cfg: Config, ps: seq<Prepared>, ranges: seq<Range>)
    requires forall k :: 0 <= k < |ranges| ==> ranges[k].lo <= ranges[k].hi <= |ps|
    requires forall k :: 0 <= k < |ps| ==> ps[k].input.memory.userId == cfg.userId
    ensures Owned(cfg.userId, Flat(ps, ranges))
    decreases |ranges|
  {
    if ranges != [] {
      hide StableSort;
      var chunk := ps[ranges[0].lo..ranges[0].hi];
      FlatOwned(cfg, ps, ranges[1..]);
      forall k | 0 <= k < |chunk| ensures StableSort(chunk, PreparedKey)[k].input.memory.userId == cfg.userId {
        assert StableSort(chunk, PreparedKey)[k] in multiset(StableSort(chunk, PreparedKey));
        assert StableSort(chunk, PreparedKey)[k] in chunk;
      }
    }
  }

  lemma {:induction false} ToSendOwned(cfg: Config, items: seq<StreamItem>)
    ensures forall k :: 0 <= k < |ToSend(cfg, items)| ==> ToSend(cfg, items)[k].input.memory.userId == cfg.userId
  {
    if items != [] {
      ToSendOwned(cfg, items[..|items| - 1]);
    }
  }

  lemma PlanOwned(cfg: Config, base: Store, items: seq<StreamItem>)
    ensures Owned(cfg.userId, PlanOf(cfg, base, items).inputs)
  {
    hide Flat, ToSend, CutsOf, Owned;
    ToSendOwned(cfg, items);
    FlatOwned(cfg, ToSend(cfg, items), CutsOf(cfg, cfg.limits, ToSend(cfg, items), 0, 0));
  }

  lemma {:induction false} AddAllNewRows(
      s: Store, id: nat, known: set<string>, batch: set<string>, memories: seq<Input>, userId: I64)
    requires id < |s.threads| && Owned(userId, memories)
    ensures var rows := AddAll(s, id, known, batch, memories).rows;
      forall e :: e in rows && e !in s.rows ==> rows[e].first.userId == userId && rows[e].threads == {id}
  {
    if memories != [] {
      hide ParentsOf;
      AddAllNewRows(s, id, known, batch, memories[..|memories| - 1], userId);
    }
  }

  /** What comes to be on the path is the user's, and in the session's thread. */
  lemma {:induction false} PathNewRows(plan: Plan, q: nat, p: nat)
    requires q <= p <= |plan.inputs| && Owned(plan.userId, plan.inputs)
    ensures var a, b := plan.At(q).rows, plan.At(p).rows;
      forall e :: e in b && e !in a ==> b[e].first.userId == plan.userId && b[e].threads == {plan.Home()}
  {
    hide AddAll, ThreadsFor;
    var ready, id := plan.Ready(), plan.Home();
    AddAllNewRows(ready, id, {}, {}, plan.inputs[..p], plan.userId);
    if q > 0 {
      var at := AddAll(ready, id, {}, {}, plan.inputs[..q]);
      AddInTwo(ready, id, plan.inputs[..q], plan.inputs[q..p]);
      assert plan.inputs[..q] + plan.inputs[q..p] == plan.inputs[..p];
      AddAllNewRows(at, id, {}, {}, plan.inputs[q..p], plan.userId);
    }
  }

  lemma StillNoCollision(plan: Plan, s: Store, q: nat, s': Store, p: nat, memories: seq<Input>)
    requires Reached(plan, s, q) && Reached(plan, s', p) && q <= p
    requires Owned(plan.userId, plan.inputs) && Owned(plan.userId, memories)
    requires FirstCollision(s.rows, plan.Home(), true, memories) == None
    ensures FirstCollision(s'.rows, plan.Home(), true, memories) == None
  {
    hide AddAll, LabelsFit, KeptOutside, ThreadsFor;
    PathKeepsRows(plan, q, p);
    PathNewRows(plan, q, p);
    forall k | 0 <= k < |memories| ensures RowCollision(s'.rows, plan.Home(), true, memories[k]).None? {
      assert RowCollision(s.rows, plan.Home(), true, memories[k]).None?;
    }
  }

  /** A batch accepted somewhere on the path is accepted at any later point too. */
  lemma AcceptedLater(plan: Plan, s: Store, q: nat, s': Store, p: nat, batch: Batch, a: nat, b: nat)
    requires plan.Unambiguous() && Reached(plan, s, q) && Reached(plan, s', p) && a <= q <= p
    requires Ours(plan, batch, a, b) && Owned(plan.userId, plan.inputs)
    requires AddBatch(s, batch).1.Ok? && !AddBatch(s, batch).1.value.reply.suppressed
    ensures AddBatch(s', batch).1.Ok? && !AddBatch(s', batch).1.value.reply.suppressed
  {
    hide AddAll, LabelsFit, KeptOutside, ThreadsFor, Malformed, Outcomes, Commit, Reached, Alike, LabelSet;
    Admitted(s, batch);
    Resolves(plan, s, q, batch, a, b);
    PathOwner(plan, s, q, Admit(s, batch).value.0);
    TargetOpen(plan, s', p, batch, a, b);
    Resolves(plan, s', p, batch, a, b);
    PathOwner(plan, s', p, ResolveTarget(s', batch.target).value.0);
    StillNoCollision(plan, s, q, s', p, batch.memories);
  }

  lemma AcceptedAnywhere(plan: Plan, s: Store, p: nat, s': Store, q: nat, batch: Batch, a: nat, b: nat)
    requires plan.Unambiguous() && Reached(plan, s, p) && Reached(plan, s', q) && a <= p && a <= q
    requires Ours(plan, batch, a, b) && Owned(plan.userId, plan.inputs)
    requires AddBatch(s, batch).1.Ok? && !AddBatch(s, batch).1.value.reply.suppressed
    ensures AddBatch(s', batch).1.Ok? && !AddBatch(s', batch).1.value.reply.suppressed
  {
    hide Reached, Ours, AddBatch, Owned;
    if q <= p {
      AcceptedEarlier(plan, s, p, s', q, batch, a, b);
    } else {
      AcceptedLater(plan, s, p, s', q, batch, a, b);
    }
  }

  /** An answer that took the batch came from a store on the path. */
  lemma TakenSomewhere(plan: Plan, cfg: Config, st: State, batch: Batch, a: nat, b: nat) returns (s: Store, p: nat)
    requires Live(cfg) && plan.Unambiguous()
    requires Honest(st.world) && OnPath(plan, st.world.store, a) && Ours(plan, batch, a, b)
    requires var reply := Invoke(cfg, st, AddMemoriesBatch(batch)).1; reply.Ok? && !reply.value.reply.suppressed
    ensures a <= p && Reached(plan, s, p)
    ensures AddBatch(s, batch).1.Ok? && !AddBatch(s, batch).1.value.reply.suppressed
  {
    hide Reached, AddBatch, Ours, CallsMade, Attempt, KeptOutside;
    var policy :| cfg.client == LiveClient(policy);
    var request := AddMemoriesBatch(batch);
    RpcHonest(policy, st.world, request);
    var n := CallsMade(policy, Answering(st.world.store, st.world.fates, request), 1);
    AttemptsKeepPath(plan, st.world.store, st.world.fates, batch, a, b, n - 1);
    s := BeforeLast(policy, st.world, request);
    assert Serve(s, request) == AddBatch(s, batch);
    p :| a <= p && Reached(plan, s, p);
  }

  /** A clean run that has everything before input `k` taken. */
  ghost predicate CleanAt(plan: Plan, st: State, k: nat) {
    && st.world.fates == [] && st.world.sinkFails == [] && !Stopped(st.result)
    && k <= |plan.inputs| && OnPath(plan, st.world.store, k)
    && st.current == if k == 0 then None else Some(plan.Home())
  }

  /** The accepted batch's answer, dealt with on a clean network. */
  lemma ReceiveClean(plan: Plan, cfg: Config, policy: Policy, st: State, sent: nat, reply: BatchReply, b: nat)
    requires cfg.client == LiveClient(policy) && 0 < b <= |plan.inputs|
    requires st.world.fates == [] && st.world.sinkFails == [] && !Stopped(st.result)
    requires OnPath(plan, st.world.store, b)
    requires !reply.suppressed && reply.threadId == Some(plan.Home()) && |reply.outcomes| == sent
    requires Ready(st.world.store, plan.Home(), JobsOf(plan.Home(), reply.outcomes))
    ensures CleanAt(plan, Receive(cfg, st, sent, reply), b)
  {
    hide OnPath, Ready, JobsOf, RewirePass, LiveClient, Linked, CountIf, Rewires;
    var id := plan.Home();
    var (announced, fine) := Announce(cfg, st, id, reply.threadCreated);
    var pinned := announced.(current := Some(id));
    RewirePassConfluent(cfg, policy, pinned, reply.outcomes, id);
    RewirePassAside(cfg, pinned, reply.outcomes, id);
    CountingKeeps(pinned, reply.outcomes);
    AsideStays(plan, st.world.store, RewirePass(cfg, pinned, reply.outcomes, id).world.store, b, [], {});
  }

  /** One flush of a clean run, of a batch that was taken in some other run. */
  lemma {:induction false} FlushClean(
      plan: Plan, cfg: Config, st: State, chunk: seq<Prepared>, isLast: bool, k: nat, batch: Batch, s: Store, p: nat)
    requires Live(cfg) && plan.Unambiguous() && Owned(plan.userId, plan.inputs)
    requires CleanAt(plan, st, k) && chunk != []
    requires batch == BatchOf(cfg, st.current, InputsOf(StableSort(chunk, PreparedKey)), isLast)
    requires Ours(plan, batch, k, k + |chunk|) && k <= p && Reached(plan, s, p)
    requires AddBatch(s, batch).1.Ok? && !AddBatch(s, batch).1.value.reply.suppressed
    ensures CleanAt(plan, Flush(cfg, st, chunk, isLast), k + |chunk|)
  {
    hide Reached, AddBatch, Ours, Ready, JobsOf, Invoke, Receive, LiveClient, StableSort, BatchOf, Written, KeptOutside,
         Owned;
    var policy :| cfg.client == LiveClient(policy);
    var request, b := AddMemoriesBatch(batch), k + |chunk|;
    var q :| k <= q && Reached(plan, st.world.store, q);
    AcceptedAnywhere(plan, s, p, st.world.store, q, batch, k, b);
    assert Serve(st.world.store, request) == AddBatch(st.world.store, batch);
    InvokeDelivered(cfg, policy, st, request);
    ServeKeepsPath(plan, st.world.store, q, batch, k, b);
    GenuineAnswer(st.world.store, batch);
    OursCounts(plan, batch, k, b);
    var (sent, reply) := Invoke(cfg, st, request);
    FlushUnfold(cfg, st, chunk, isLast, batch);
    ReceiveClean(plan, cfg, policy, sent, |chunk|, reply.value.reply, b);
  }

  lemma OursCounts(plan: Plan, batch: Batch, a: nat, b: nat)
    requires Ours(plan, batch, a, b)
    ensures |batch.memories| == b - a && b <= |plan.inputs|
  {
  }

  /** What one run got through chunk by chunk, a clean run gets through too. */
  lemma {:induction false} SendAllClean(
      plan: Plan, cfg: Config, st: State, st': State, ps: seq<Prepared>, ranges: seq<Range>, k: nat)
    requires Live(cfg) && !IsOpenCode(cfg) && PlanFor(plan, cfg) && plan.Unambiguous()
    requires Owned(plan.userId, plan.inputs)
    requires Honest(st.world) && Progress(plan, st, k) && !Stopped(st.result) && CleanAt(plan, st', k)
    requires forall i :: 0 <= i < |ranges| ==> ranges[i].lo < ranges[i].hi <= |ps|
    requires plan.inputs[k..] == Flat(ps, ranges)
    requires !Stopped(SendAll(cfg, st, ps, ranges).result)
    ensures var r := SendAll(cfg, st', ps, ranges);
      !Stopped(r.result) && r.world.fates == []
    decreases |ranges|
  {
    hide OnPath, Reached, Written, Labelled, Honest, Flush, StableSort, IsOpenCode, PlanFor, Live, InputsOf,
         Owned;
    if ranges != [] {
      var chunk := ps[ranges[0].lo..ranges[0].hi];
      var b := k + |chunk|;
      FlatHead(ps, ranges, plan.inputs[k..]);
      assert plan.inputs[k..][..|chunk|] == plan.inputs[k..b] && plan.inputs[k..][|chunk|..] == plan.inputs[b..];
      FlushProgress(plan, cfg, st, chunk, |ranges| == 1, k);
      FlushBoth(plan, cfg, st, st', chunk, |ranges| == 1, k);
      SendAllClean(plan, cfg, Flush(cfg, st, chunk, |ranges| == 1), Flush(cfg, st', chunk, |ranges| == 1), ps,
                   ranges[1..], b);
    }
  }

  lemma {:induction false} FlushBoth(
      plan: Plan, cfg: Config, st: State, st': State, chunk: seq<Prepared>, isLast: bool, k: nat)
    requires Live(cfg) && !IsOpenCode(cfg) && PlanFor(plan, cfg) && plan.Unambiguous()
    requires Owned(plan.userId, plan.inputs)
    requires Honest(st.world) && Progress(plan, st, k) && CleanAt(plan, st', k) && chunk != []
    requires k + |chunk| <= |plan.inputs|
    requires InputsOf(StableSort(chunk, PreparedKey)) == plan.inputs[k..k + |chunk|]
    requires !Stopped(Flush(cfg, st, chunk, isLast).result)
    ensures CleanAt(plan, Flush(cfg, st', chunk, isLast), k + |chunk|)
  {
    hide OnPath, Reached, Written, Ours, Honest, Invoke, Receive, StableSort, BatchOf, InputsOf, IsOpenCode, PlanFor,
         Live, Flush, Owned;
    var inputs := InputsOf(StableSort(chunk, PreparedKey));
    var batch := BatchOf(cfg, st.current, inputs, isLast);
    BatchIsOurs(plan, cfg, st, inputs, isLast, k);
    FlushUnfold(cfg, st, chunk, isLast, batch);
    var (sent, reply) := Invoke(cfg, st, AddMemoriesBatch(batch));
    SuppressedStops(cfg, sent, |chunk|, reply);
    var s, p := TakenSomewhere(plan, cfg, st, batch, k, k + |chunk|);
    FlushClean(plan, cfg, st', chunk, isLast, k, batch, s, p);
  }

  lemma SuppressedStops(cfg: Config, st: State, sent: nat, reply: Reply)
    ensures reply.Ok? && reply.value.BatchDone? && reply.value.reply.suppressed ==>
      Stopped(Receive(cfg, st, sent, reply.value.reply).result)
  {
  }

  lemma FinalizeClean(cfg: Config, st: State)
    requires Live(cfg) && st.world.fates == [] && !Stopped(st.result)
    ensures !Stopped(Finalize(cfg, st).result)
  {
    hide Invoke, LiveClient;
    if Recordable(cfg) && st.result.threadId.Some? {
      var policy :| cfg.client == LiveClient(policy);
      var subject := Endpoint(CanonicalSourceIdentity(cfg.session).value, cfg.userId);
      InvokeDelivered(cfg, policy, st, RecordObservations(st.result.threadId.value, subject));
    }
  }

  lemma AfterSendClean(cfg: Config, st: State)
    requires Live(cfg) && !IsOpenCode(cfg) && st.world.fates == [] && !Stopped(st.result)
    ensures !Stopped(AfterSend(cfg, st, []).result)
  {
    hide Finalize, Live, IsOpenCode;
    FinalizeClean(cfg, st);
  }

  lemma {:induction false} ThreadsOnlyGrow(a: seq<Thread>, b: seq<Thread>, channel: string, userId: I64)
    requires |a| <= |b|
    requires forall t :: 0 <= t < |a| ==> b[t].channel == a[t].channel && b[t].userId == a[t].userId
    ensures |ThreadsFor(a, channel, userId)| <= |ThreadsFor(b, channel, userId)|
    decreases |b|
  {
    if |a| == |b| {
      SameThreadsFor(a, b, channel, userId);
    } else {
      ThreadsOnlyGrow(a, b[..|b| - 1], channel, userId);
    }
  }

  /** If a run from one store on the path completes, so does a clean run from any other. */
  lemma {:induction false} CompletesClean(
      plan: Plan, cfg: Config, some: World, clean: World, items: seq<StreamItem>)
    requires Live(cfg) && !IsOpenCode(cfg) && Honest(some) && ToSend(cfg, items) != []
    requires plan == PlanOf(cfg, plan.base, items) && plan.Unambiguous()
    requires OnPath(plan, some.store, 0) && OnPath(plan, clean.store, 0)
    requires clean.fates == [] && clean.sinkFails == []
    requires !Stopped(RunStreaming(cfg, some, items, 0).result)
    ensures !Stopped(RunStreaming(cfg, clean, items, 0).result)
  {
    hide OnPath, Reached, Written, Honest, Live, SendAll, AfterSend, CutsOf, RunStreaming, PlanFor, IsOpenCode,
         BuildLabels, Owned;
    var ps := ToSend(cfg, items);
    var ranges := CutsOf(cfg, cfg.limits, ps, 0, 0);
    var st, st' := Start(cfg, some, 0), Start(cfg, clean, 0);
    RunSends(cfg, some, items, 0);
    RunSends(cfg, clean, items, 0);
    CutsNonEmpty(cfg, ps);
    NothingYet(plan, st);
    PlanOwned(cfg, plan.base, items);
    assert plan.inputs[0..] == Flat(ps, ranges);
    SendAllProgress(plan, cfg, st, ps, ranges, 0);
    AfterSendKeepsStore(cfg, SendAll(cfg, st, ps, ranges));
    SendAllClean(plan, cfg, st, st', ps, ranges, 0);
    AfterSendClean(cfg, SendAll(cfg, st', ps, ranges));
    SameStop(RunStreaming(cfg, some, items, 0), AfterSend(cfg, SendAll(cfg, st, ps, ranges), []));
    SameStop(RunStreaming(cfg, clean, items, 0), AfterSend(cfg, SendAll(cfg, st', ps, ranges), []));
  }

  lemma SameStop(a: State, b: State)
    requires SameButFiltered(a, b)
    ensures Stopped(a.result) == Stopped(b.result)
  {
    assert Stopped(a.result) == Stopped(Unfiltered(a).result) == Stopped(b.result);
  }

  /**
   If some run of a session completes after any history of earlier runs, then a run
   over a network that loses nothing completes after every history, and the two
   leave the same store, parent links aside.
   */
  lemma {:induction false} CompletionIsForAll(
      cfg: Config, s: Store, items: seq<StreamItem>, history: seq<World>, some: World,
      other: seq<World>, clean: World)
    requires Live(cfg) && !IsOpenCode(cfg)
    requires AllHonest(history) && Honest(some) && AllHonest(other)
    requires clean.fates == [] && clean.sinkFails == []
    ensures var a := RunStreaming(cfg, some.(store := Reruns(cfg, s, items, history)), items, 0);
      var b := RunStreaming(cfg, clean.(store := Reruns(cfg, s, items, other)), items, 0);
      !Stopped(a.result) ==> !Stopped(b.result) && SameButParents(a.world.store, b.world.store)
  {
    hide OnPath, Live, RunStreaming, IsOpenCode, PlanOf, Reruns, ThreadsFor, SameButParents, ToSend, Written, Labelled,
         AllHonest;
    var w := some.(store := Reruns(cfg, s, items, history));
    var w' := clean.(store := Reruns(cfg, s, items, other));
    if !Stopped(RunStreaming(cfg, w, items, 0).result) {
      if ToSend(cfg, items) == [] {
        NothingToSend(cfg, s, items, history);
        NothingToSend(cfg, s, items, other);
        RunSends(cfg, w, items, 0);
        RunSends(cfg, w', items, 0);
        NothingStops(cfg, w', items);
        SameAsItself(s);
      } else {
        var plan := PlanOf(cfg, s, items);
        if !plan.Unambiguous() {
          RerunsEvolve(cfg, s, items, history);
          ThreadsOnlyGrow(s.threads, w.store.threads, cfg.session.channel, cfg.userId);
          AmbiguousStops(cfg, w, items, 0);
        }
        RerunsOnPath(plan, cfg, items, history);
        RerunsOnPath(plan, cfg, items, other);
        CompletesClean(plan, cfg, w, w', items);
        RunProgress(plan, cfg, w, items, 0);
        RunProgress(plan, cfg, w', items, 0);
        EndIsUnique(plan, RunStreaming(cfg, w, items, 0).world.store, RunStreaming(cfg, w', items, 0).world.store);
      }
    }
  }

  lemma SameAsItself(s: Store)
    ensures SameButParents(s, s)
  {
  }

  /** Whenever a retried run completes, a run of the whole session at once would have, with that store. */
  lemma {:induction false} RetriesReachCleanRun(
      cfg: Config, s: Store, items: seq<StreamItem>, networks: seq<World>, last: World, clean: World)
    requires Live(cfg) && !IsOpenCode(cfg)
    requires AllHonest(networks) && Honest(last)
    requires clean.fates == [] && clean.sinkFails == []
    ensures var retried := RunStreaming(cfg, last.(store := Reruns(cfg, s, items, networks)), items, 0);
      var once := RunStreaming(cfg, clean.(store := s), items, 0);
      !Stopped(retried.result) ==> !Stopped(once.result) && SameButParents(retried.world.store, once.world.store)
  {
    hide RunStreaming, SameButParents, Live, Honest, IsOpenCode;
    CompletionIsForAll(cfg, s, items, networks, last, [], clean);
  }

  /** And no failed run keeps a session from completing that could have: the next run that loses nothing does. */
  lemma {:induction false} FailuresAreNoObstacle(
      cfg: Config, s: Store, items: seq<StreamItem>, networks: seq<World>, once: World, next: World)
    requires Live(cfg) && !IsOpenCode(cfg)
    requires AllHonest(networks) && Honest(once)
    requires next.fates == [] && next.sinkFails == []
    ensures var first := RunStreaming(cfg, once.(store := s), items, 0);
      var later := RunStreaming(cfg, next.(store := Reruns(cfg, s, items, networks)), items, 0);
      !Stopped(first.result) ==> !Stopped(later.result) && SameButParents(first.world.store, later.world.store)
  {
    hide RunStreaming, SameButParents, Live, Honest, IsOpenCode;
    CompletionIsForAll(cfg, s, items, [], once, networks, next);
  }

  lemma {:induction false} NothingStops(cfg: Config, w: World, items: seq<StreamItem>)
    requires !IsOpenCode(cfg) && ToSend(cfg, items) == []
    ensures !Stopped(RunStreaming(cfg, w, items, 0).result)
  {
    hide StreamFrom;
    StreamOfNothing(cfg, Start(cfg, w, 0), items);
  }
}
