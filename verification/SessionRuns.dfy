/**
 One run of a session, followed along the session's path: whatever the network
 does, the run leaves the store on the path, and completing means reaching its end.
 */
module SessionRuns {
  import opened Wrappers
  import opened Batching
  import opened Store
  import opened Network
  import opened ImportRun
  import opened Refinement
  import opened Rewire
  import opened History
  import opened Path

  // One run of the session.

  /** The plan is for this session. */
  ghost predicate PlanFor(plan: Plan, cfg: Config) {
    && plan.channel == cfg.session.channel && plan.userId == cfg.userId
    && plan.labels == LabelSet(BuildLabels(cfg.session, cfg.extraLabels))
  }

  /** The first `k` inputs are in, with their content, and the client knows the thread once there is one. */
  ghost predicate Progress(plan: Plan, st: State, k: nat) {
    && k <= |plan.inputs|
    && OnPath(plan, st.world.store, k)
    && Written(st.world.store.rows, plan.inputs[..k])
    && st.current == if k == 0 then None else Some(plan.Home())
  }

  lemma {:induction false} BatchIsOurs(plan: Plan, cfg: Config, st: State, inputs: seq<Input>, isLast: bool, k: nat)
    requires PlanFor(plan, cfg) && !IsOpenCode(cfg) && Progress(plan, st, k)
    requires k + |inputs| <= |plan.inputs| && inputs == plan.inputs[k..k + |inputs|]
    ensures var batch := BatchOf(cfg, st.current, inputs, isLast);
      && Ours(plan, batch, k, k + |inputs|) && batch.memories == inputs
      && (isLast ==> LabelSet(batch.labels) == plan.labels)
  {
    hide OnPath, Written, BuildLabels;
  }

  /** One flush: whatever happens the store stays on the path, and success moves it along. */
  lemma {:induction false} FlushProgress(plan: Plan, cfg: Config, st: State, chunk: seq<Prepared>, isLast: bool, k: nat)
    requires Live(cfg) && !IsOpenCode(cfg) && PlanFor(plan, cfg) && plan.Unambiguous()
    requires Honest(st.world) && Progress(plan, st, k) && !Stopped(st.result) && chunk != []
    requires k + |chunk| <= |plan.inputs|
    requires InputsOf(StableSort(chunk, PreparedKey)) == plan.inputs[k..k + |chunk|]
    ensures var r := Flush(cfg, st, chunk, isLast);
      && Honest(r.world) && OnPath(plan, r.world.store, 0)
      && (!Stopped(r.result) ==>
          && Progress(plan, r, k + |chunk|)
          && (isLast ==> Labelled(plan, r.world.store, plan.labels)))
  {
    hide OnPath, Written, Labelled, Ours, Honest, Ready, Invoke, Receive, StableSort, BuildLabels, Live, LabelSet,
         BatchOf, KeptOutside, InputsOf, IsOpenCode, PlanFor, Flush, JobsOf;
    var inputs := InputsOf(StableSort(chunk, PreparedKey));
    var batch := BatchOf(cfg, st.current, inputs, isLast);
    var b := k + |chunk|;
    BatchIsOurs(plan, cfg, st, inputs, isLast, k);
    BatchInvoked(plan, cfg, st, batch, k, b);
    var (sent, reply) := Invoke(cfg, st, AddMemoriesBatch(batch));
    FlushUnfold(cfg, st, chunk, isLast, batch);
    if reply.Ok? {
      if !reply.value.reply.suppressed {
        WrittenFurther(plan, st.world.store.rows, sent.world.store.rows, k, b);
      }
      ReceiveProgress(plan, cfg, sent, |chunk|, reply.value.reply, b, LabelSet(batch.labels));
    }
  }

  lemma {:induction false} WrittenFurther(plan: Plan, a: map<string, Row>, b: map<string, Row>, k: nat, n: nat)
    requires k <= n <= |plan.inputs| && Written(a, plan.inputs[..k])
    requires KeptOutside(a, b, plan.inputs[k..n]) && Written(b, plan.inputs[k..n])
    ensures Written(b, plan.inputs[..n])
  {
    hide Written, KeptOutside;
    WrittenOn(a, b, plan.inputs[..k], plan.inputs[k..n]);
    assert plan.inputs[..k] + plan.inputs[k..n] == plan.inputs[..n];
  }

  lemma BatchInvoked(plan: Plan, cfg: Config, st: State, batch: Batch, a: nat, b: nat)
    requires Live(cfg) && plan.Unambiguous()
    requires Honest(st.world) && OnPath(plan, st.world.store, a) && Ours(plan, batch, a, b)
    ensures var (r, reply) := Invoke(cfg, st, AddMemoriesBatch(batch));
      && Honest(r.world) && OnPath(plan, r.world.store, 0)
      && KeptOutside(st.world.store.rows, r.world.store.rows, batch.memories)
      && (reply.Ok? && !reply.value.reply.suppressed ==> Accepted(plan, r.world.store, reply.value.reply, b, batch))
  {
    hide OnPath, Ours, Honest, Accepted, Rpc, KeptOutside;
    var policy :| cfg.client == LiveClient(policy);
    BatchSent(plan, policy, st.world, batch, a, b);
    PathFrom(plan, Rpc(policy, st.world, AddMemoriesBatch(batch)).0.store, a, 0);
  }

  /** The answer dealt with: announcing and rewiring keep what the batch left. */
  lemma {:induction false} ReceiveProgress(
      plan: Plan, cfg: Config, st: State, sent: nat, reply: BatchReply, b: nat, labels: set<string>)
    requires Live(cfg) && Honest(st.world) && OnPath(plan, st.world.store, 0)
    requires 0 < b <= |plan.inputs|
    requires !reply.suppressed ==>
      && reply.threadId == Some(plan.Home())
      && OnPath(plan, st.world.store, b)
      && Written(st.world.store.rows, plan.inputs[..b])
      && Labelled(plan, st.world.store, labels)
      && Ready(st.world.store, plan.Home(), JobsOf(plan.Home(), reply.outcomes))
    ensures var r := Receive(cfg, st, sent, reply);
      && Honest(r.world) && OnPath(plan, r.world.store, 0)
      && (!Stopped(r.result) ==> Progress(plan, r, b) && Labelled(plan, r.world.store, labels))
  {
    hide OnPath, Written, Labelled, Ready, JobsOf, RewirePass;
    if !reply.suppressed {
      var id := plan.Home();
      var (announced, fine) := Announce(cfg, st, id, reply.threadCreated);
      var pinned := announced.(current := Some(id));
      RewirePassAside(cfg, pinned, reply.outcomes, id);
      var rewired := RewirePass(cfg, pinned, reply.outcomes, id);
      AsideStays(plan, st.world.store, rewired.world.store, b, plan.inputs[..b], labels);
      AsideStays(plan, st.world.store, rewired.world.store, 0, plan.inputs[..b], labels);
    }
  }

  /** The inputs of the chunks in the order they are sent: each chunk sorted on its own. */
  ghost function Flat(ps: seq<Prepared>, ranges: seq<Range>): seq<Input>
    requires forall k :: 0 <= k < |ranges| ==> ranges[k].lo <= ranges[k].hi <= |ps|
    decreases |ranges|
  {
    if ranges == [] then []
    else InputsOf(StableSort(ps[ranges[0].lo..ranges[0].hi], PreparedKey)) + Flat(ps, ranges[1..])
  }

  /** The remaining chunks, sent until one stops the run. */
  lemma {:induction false} SendAllProgress(
      plan: Plan, cfg: Config, st: State, ps: seq<Prepared>, ranges: seq<Range>, k: nat)
    requires Live(cfg) && !IsOpenCode(cfg) && PlanFor(plan, cfg) && plan.Unambiguous()
    requires Honest(st.world) && Progress(plan, st, k) && !Stopped(st.result)
    requires forall i :: 0 <= i < |ranges| ==> ranges[i].lo < ranges[i].hi <= |ps|
    requires plan.inputs[k..] == Flat(ps, ranges)
    ensures var r := SendAll(cfg, st, ps, ranges);
      && Honest(r.world) && OnPath(plan, r.world.store, 0)
      && (!Stopped(r.result) ==>
          && Progress(plan, r, |plan.inputs|)
          && (ranges != [] ==> Labelled(plan, r.world.store, plan.labels)))
    decreases |ranges|
  {
    hide OnPath, Written, Labelled, Honest, Flush, StableSort, IsOpenCode, PlanFor, Live, InputsOf;
    PathFrom(plan, st.world.store, k, 0);
    if ranges != [] {
      var chunk := ps[ranges[0].lo..ranges[0].hi];
      var b := k + |chunk|;
      FlatHead(ps, ranges, plan.inputs[k..]);
      assert plan.inputs[k..][..|chunk|] == plan.inputs[k..b] && plan.inputs[k..][|chunk|..] == plan.inputs[b..];
      FlushProgress(plan, cfg, st, chunk, |ranges| == 1, k);
      var sent := Flush(cfg, st, chunk, |ranges| == 1);
      if !Stopped(sent.result) {
        SendAllProgress(plan, cfg, sent, ps, ranges[1..], b);
      }
    }
  }

  lemma {:induction false} FlatHead(ps: seq<Prepared>, ranges: seq<Range>, flat: seq<Input>)
    requires forall i :: 0 <= i < |ranges| ==> ranges[i].lo < ranges[i].hi <= |ps|
    requires ranges != [] && flat == Flat(ps, ranges)
    ensures var chunk := ps[ranges[0].lo..ranges[0].hi];
      && |chunk| <= |flat|
      && flat[..|chunk|] == InputsOf(StableSort(chunk, PreparedKey))
      && flat[|chunk|..] == Flat(ps, ranges[1..])
  {
    hide StableSort;
  }

  /** What a session sends, whatever world it runs in: the chunks of its importable entries. */
  ghost function SessionInputs(cfg: Config, items: seq<StreamItem>): seq<Input> {
    var ps := ToSend(cfg, items);
    Flat(ps, CutsOf(cfg, cfg.limits, ps, 0, 0))
  }

  ghost function PlanOf(cfg: Config, base: Store, items: seq<StreamItem>): (plan: Plan)
    ensures PlanFor(plan, cfg) && plan.base == base
  {
    Plan(base, cfg.session.channel, cfg.userId, SessionInputs(cfg, items),
         LabelSet(BuildLabels(cfg.session, cfg.extraLabels)))
  }

  lemma CutsNonEmpty(cfg: Config, ps: seq<Prepared>)
    ensures var ranges := CutsOf(cfg, cfg.limits, ps, 0, 0);
      && (ps != [] ==> ranges != [])
      && forall i :: 0 <= i < |ranges| ==> ranges[i].lo < ranges[i].hi <= |ps|
  {
    CutIsGreedySplit(Sizes(MeasureAll(cfg, ps)), 0, 0, cfg.limits);
  }

  /** All the session's chunks, sent from the start of a run. */
  ghost function Sends(cfg: Config, w: World, items: seq<StreamItem>, filtered: nat): State {
    var ps := ToSend(cfg, items);
    SendAll(cfg, Start(cfg, w, filtered), ps, CutsOf(cfg, cfg.limits, ps, 0, 0))
  }

  /** A run, as the sends it comes down to. */
  lemma {:induction false} RunSends(cfg: Config, w: World, items: seq<StreamItem>, filtered: nat)
    requires !IsOpenCode(cfg)
    ensures ToSend(cfg, items) == [] ==> RunStreaming(cfg, w, items, filtered).world == w
    ensures ToSend(cfg, items) != [] ==>
      SameButFiltered(RunStreaming(cfg, w, items, filtered), AfterSend(cfg, Sends(cfg, w, items, filtered), []))
  {
    hide StreamFrom, SendAll, AfterSend, CutsOf;
    var ps, st := ToSend(cfg, items), Start(cfg, w, filtered);
    if ps == [] {
      StreamOfNothing(cfg, st, items);
    } else {
      assert MeasureAll(cfg, ps)[0..0] == [] && ps[0..] == ps;
      StreamSendsCuts(cfg, st, items, [], ps, 0, 0);
    }
  }

  lemma FinalizeKeepsStore(cfg: Config, st: State)
    requires Live(cfg) && Honest(st.world)
    ensures Finalize(cfg, st).world.store == st.world.store && Honest(Finalize(cfg, st).world)
  {
    hide Invoke, Live, Honest;
    if Recordable(cfg) && st.result.threadId.Some? {
      var subject := Endpoint(CanonicalSourceIdentity(cfg.session).value, cfg.userId);
      InvokeIdle(cfg, st, RecordObservations(st.result.threadId.value, subject));
    }
  }

  lemma AfterSendKeepsStore(cfg: Config, st: State)
    requires Live(cfg) && !IsOpenCode(cfg) && Honest(st.world)
    ensures var r := AfterSend(cfg, st, []);
      && r.world.store == st.world.store && Honest(r.world)
      && (!Stopped(r.result) ==> !Stopped(st.result))
  {
    hide Finalize, Live, Honest, IsOpenCode;
    FinalizeKeepsStore(cfg, st);
  }

  /** Where a run of the session leaves a store it met on the path. */
  lemma RunProgress(plan: Plan, cfg: Config, w: World, items: seq<StreamItem>, filtered: nat)
    requires Live(cfg) && !IsOpenCode(cfg) && Honest(w)
    requires plan == PlanOf(cfg, plan.base, items) && plan.Unambiguous() && OnPath(plan, w.store, 0)
    ensures var r := RunStreaming(cfg, w, items, filtered);
      && OnPath(plan, r.world.store, 0)
      && (!Stopped(r.result) && ToSend(cfg, items) != [] ==>
          && OnPath(plan, r.world.store, |plan.inputs|)
          && Written(r.world.store.rows, plan.inputs)
          && Labelled(plan, r.world.store, plan.labels))
      && (ToSend(cfg, items) == [] ==> r.world == w)
  {
    hide OnPath, Written, Labelled, Honest, Live, SendAll, AfterSend, CutsOf, RunStreaming, PlanFor, IsOpenCode,
         BuildLabels;
    RunSends(cfg, w, items, filtered);
    var ps := ToSend(cfg, items);
    if ps != [] {
      var ranges, st := CutsOf(cfg, cfg.limits, ps, 0, 0), Start(cfg, w, filtered);
      CutsNonEmpty(cfg, ps);
      NothingYet(plan, st);
      assert plan.inputs[0..] == Flat(ps, ranges);
      SendAllProgress(plan, cfg, st, ps, ranges, 0);
      AfterSendKeepsStore(cfg, SendAll(cfg, st, ps, ranges));
      assert plan.inputs[..|plan.inputs|] == plan.inputs;
    }
  }

  lemma NothingYet(plan: Plan, st: State)
    requires OnPath(plan, st.world.store, 0) && st.current == None
    ensures Progress(plan, st, 0)
  {
    hide OnPath;
    assert Ids(plan.inputs[..0]) == {};
  }

  // A channel with several threads takes nothing.

  lemma AmbiguousRefused(s: Store, batch: Batch)
    requires batch.target.Upsert? && |ThreadsFor(s.threads, batch.target.channel, batch.target.userId)| > 1
    ensures AddBatch(s, batch).0 == s
    ensures AddBatch(s, batch).1.Ok? ==> AddBatch(s, batch).1.value.reply.suppressed
  {
    hide ThreadsFor;
  }

  lemma {:induction false} AmbiguousStops(cfg: Config, w: World, items: seq<StreamItem>, filtered: nat)
    requires Live(cfg) && !IsOpenCode(cfg) && Honest(w)
    requires |ThreadsFor(w.store.threads, cfg.session.channel, cfg.userId)| > 1 && ToSend(cfg, items) != []
    ensures Stopped(RunStreaming(cfg, w, items, filtered).result)
  {
    hide SendAll, CutsOf, Flush, RunStreaming, IsOpenCode, ThreadsFor, Live, Honest;
    RunSends(cfg, w, items, filtered);
    var ps := ToSend(cfg, items);
    var ranges, st := CutsOf(cfg, cfg.limits, ps, 0, 0), Start(cfg, w, filtered);
    CutsNonEmpty(cfg, ps);
    AmbiguousFlush(cfg, st, ps[ranges[0].lo..ranges[0].hi], |ranges| == 1);
    SendAllStops(cfg, st, ps, ranges);
  }

  lemma SendAllStops(cfg: Config, st: State, ps: seq<Prepared>, ranges: seq<Range>)
    requires forall i :: 0 <= i < |ranges| ==> ranges[i].lo < ranges[i].hi <= |ps|
    requires ranges != [] && Stopped(Flush(cfg, st, ps[ranges[0].lo..ranges[0].hi], |ranges| == 1).result)
    ensures Stopped(SendAll(cfg, st, ps, ranges).result)
  {
    hide Flush;
  }

  lemma {:induction false} AmbiguousFlush(cfg: Config, st: State, chunk: seq<Prepared>, isLast: bool)
    requires Live(cfg) && Honest(st.world) && st.current == None
    requires |ThreadsFor(st.world.store.threads, cfg.session.channel, cfg.userId)| > 1
    ensures Stopped(Flush(cfg, st, chunk, isLast).result)
  {
    hide StableSort, BuildLabels, ThreadsFor, RewirePass, Invoke, AddBatch, Honest, Live;
    var batch := BatchOf(cfg, st.current, InputsOf(StableSort(chunk, PreparedKey)), isLast);
    AmbiguousRefused(st.world.store, batch);
    InvokeIdle(cfg, st, AddMemoriesBatch(batch));
    FlushUnfold(cfg, st, chunk, isLast, batch);
    var (sent, reply) := Invoke(cfg, st, AddMemoriesBatch(batch));
  }
}
