/**
 At-least-once delivery converges. Runs of one session that fail at any request,
 with the request applied or not and its answer lost and resent, leave the store
 somewhere along one path; the first run to complete takes it to the end of the
 path, which is where an uninterrupted run would have taken it.
 */
module Convergence {
  import opened Store
  import opened Network
  import opened ImportRun
  import opened Refinement
  import opened Path
  import opened SessionRuns
  import Protocol
  import opened History

  /** The runs in turn, each over its own network, each finding the store as the last one left it. */
  ghost function Reruns(cfg: Config, s: Store, items: seq<StreamItem>, networks: seq<World>): Store {
    if networks == [] then s
    else
      var before := Reruns(cfg, s, items, networks[..|networks| - 1]);
      RunStreaming(cfg, networks[|networks| - 1].(store := before), items, 0).world.store
  }

  ghost predicate AllHonest(networks: seq<World>) {
    forall k :: 0 <= k < |networks| ==> Honest(networks[k])
  }

  lemma {:induction false} RerunsOnPath(
      plan: Plan, cfg: Config, items: seq<StreamItem>, networks: seq<World>)
    requires Live(cfg) && !IsOpenCode(cfg) && AllHonest(networks)
    requires plan == PlanOf(cfg, plan.base, items) && plan.Unambiguous()
    ensures OnPath(plan, Reruns(cfg, plan.base, items, networks), 0)
  {
    hide OnPath, Live, RunStreaming, IsOpenCode, PlanOf;
    if networks == [] {
      StartsOnPath(plan);
    } else {
      var n := |networks| - 1;
      RerunsOnPath(plan, cfg, items, networks[..n]);
      assert Honest(networks[n]);
      RunProgress(plan, cfg, networks[n].(store := Reruns(cfg, plan.base, items, networks[..n])), items, 0);
    }
  }

  lemma StartsOnPath(plan: Plan)
    requires plan.Unambiguous()
    ensures Reached(plan, plan.base, 0) && OnPath(plan, plan.base, 0)
  {
    hide AddAll, Latest, ThreadsFor;
    KeptSelf(plan.base.rows, plan.inputs);
    AlikeSelf(plan.base);
    assert Reached(plan, plan.base, 0);
  }

  /** The same rows, owners, content, threads and labels; parent links may differ. */
  ghost predicate SameButParents(a: Store, b: Store) {
    && a.markers == b.markers
    && a.threads == b.threads
    && a.rows.Keys == b.rows.Keys
    && forall e :: e in a.rows ==> a.rows[e].(parents := []) == b.rows[e].(parents := [])
  }

  lemma ContentDetermined(plan: Plan, a: Store, b: Store)
    requires Reached(plan, a, |plan.inputs|) && Written(a.rows, plan.inputs)
    requires Reached(plan, b, |plan.inputs|) && Written(b.rows, plan.inputs)
    ensures a.rows.Keys == b.rows.Keys
    ensures forall e :: e in a.rows ==> a.rows[e].content == b.rows[e].content
  {
    hide AddAll, Latest;
    var n := |plan.inputs|;
    assert plan.inputs[..n] == plan.inputs;
    AddAllKeys(plan.Ready(), plan.Home(), {}, {}, plan.inputs);
    assert n == 0 ==> Ids(plan.inputs) == {};
    forall e | e in a.rows ensures a.rows[e].content == b.rows[e].content {
      assert e in Ids(plan.inputs) || e in plan.base.rows;
    }
  }

  lemma LabelsDetermined(plan: Plan, a: Store, b: Store)
    requires LabelsFit(plan, a) && Labelled(plan, a, plan.labels)
    requires LabelsFit(plan, b) && Labelled(plan, b, plan.labels)
    requires |a.threads| == |b.threads|
    ensures forall t :: 0 <= t < |a.threads| ==> a.threads[t].labels == b.threads[t].labels
  {
  }

  /** The end of the path is one store, parent links aside. */
  lemma EndIsUnique(plan: Plan, a: Store, b: Store)
    requires OnPath(plan, a, |plan.inputs|) && Written(a.rows, plan.inputs) && Labelled(plan, a, plan.labels)
    requires OnPath(plan, b, |plan.inputs|) && Written(b.rows, plan.inputs) && Labelled(plan, b, plan.labels)
    ensures SameButParents(a, b)
  {
    hide AddAll, Latest, ThreadsFor, LabelsFit, KeptOutside, Written;
    var n := |plan.inputs|;
    assert Reached(plan, a, n) && Reached(plan, b, n);
    AlikeFlips(plan.At(n), a);
    AlikeJoins(a, plan.At(n), b);
    ContentDetermined(plan, a, b);
    LabelsDetermined(plan, a, b);
    forall t | 0 <= t < |a.threads| ensures a.threads[t] == b.threads[t] {
    }
  }

  lemma {:induction false} RerunsEvolve(cfg: Config, s: Store, items: seq<StreamItem>, networks: seq<World>)
    requires Live(cfg)
    ensures Evolves(s, Reruns(cfg, s, items, networks))
  {
    if networks != [] {
      hide Live, RunStreaming, Evolves;
      var n := |networks| - 1;
      var before := Reruns(cfg, s, items, networks[..n]);
      RerunsEvolve(cfg, s, items, networks[..n]);
      RunEvolves(cfg, networks[n].(store := before), items, 0);
      EvolvesTransitive(s, before, Reruns(cfg, s, items, networks));
    }
  }

  /**
   Any number of runs of a session, each over a network that may lose requests and
   answers at will, and then one that completes: the store is the one a single
   completing run would have left, parent links aside, and those only ever went
   from empty to filled. The completing run counts every importable entry.
   */
  lemma {:induction false} RetriesConverge(
      cfg: Config, s: Store, items: seq<StreamItem>, networks: seq<World>, last: World, clean: World)
    requires Live(cfg) && !IsOpenCode(cfg)
    requires AllHonest(networks) && Honest(last) && Honest(clean)
    ensures var met := Reruns(cfg, s, items, networks);
      var retried := RunStreaming(cfg, last.(store := met), items, 0);
      var once := RunStreaming(cfg, clean.(store := s), items, 0);
      && Evolves(s, retried.world.store)
      && (!Stopped(retried.result) ==>
          retried.result.imported + retried.result.duplicate == |ToSend(cfg, items)|)
      && (!Stopped(retried.result) && !Stopped(once.result) ==>
          SameButParents(retried.world.store, once.world.store))
  {
    hide OnPath, Live, RunStreaming, IsOpenCode, PlanOf, Reruns, ThreadsFor, Evolves, Written, Labelled;
    var met := Reruns(cfg, s, items, networks);
    var retried := RunStreaming(cfg, last.(store := met), items, 0);
    var once := RunStreaming(cfg, clean.(store := s), items, 0);
    RerunsEvolve(cfg, s, items, networks);
    RunEvolves(cfg, last.(store := met), items, 0);
    EvolvesTransitive(s, met, retried.world.store);
    CompletedCounts(cfg, last.(store := met), items);
    if !Stopped(retried.result) && !Stopped(once.result) {
      if ToSend(cfg, items) == [] {
        NothingToSend(cfg, s, items, networks);
        RunSends(cfg, last.(store := met), items, 0);
        RunSends(cfg, clean.(store := s), items, 0);
      } else {
        var plan := PlanOf(cfg, s, items);
        if !plan.Unambiguous() {
          AmbiguousStops(cfg, clean.(store := s), items, 0);
        }
        RerunsOnPath(plan, cfg, items, networks);
        StartsOnPath(plan);
        RunProgress(plan, cfg, last.(store := met), items, 0);
        RunProgress(plan, cfg, clean.(store := s), items, 0);
        EndIsUnique(plan, retried.world.store, once.world.store);
      }
    }
  }

  lemma {:induction false} NothingToSend(cfg: Config, s: Store, items: seq<StreamItem>, networks: seq<World>)
    requires !IsOpenCode(cfg) && ToSend(cfg, items) == []
    ensures Reruns(cfg, s, items, networks) == s
  {
    hide RunStreaming, IsOpenCode, ToSend;
    if networks != [] {
      var n := |networks| - 1;
      NothingToSend(cfg, s, items, networks[..n]);
      RunSends(cfg, networks[n].(store := s), items, 0);
    }
  }

  /** A run that completes has counted each importable entry once. */
  lemma {:induction false} CompletedCounts(cfg: Config, w: World, items: seq<StreamItem>)
    requires !IsOpenCode(cfg)
    ensures var r := RunStreaming(cfg, w, items, 0);
      !Stopped(r.result) ==> r.result.imported + r.result.duplicate == |ToSend(cfg, items)|
  {
    hide StreamFrom, SendAll, AfterSend, CutsOf, Protocol.Over;
    Protocol.StreamingProtocol(cfg, w, items, 0);
    var ps, st := ToSend(cfg, items), Start(cfg, w, 0);
    if ps == [] {
      StreamOfNothing(cfg, st, items);
    } else {
      assert MeasureAll(cfg, ps)[0..0] == [] && ps[0..] == ps;
      StreamSendsCuts(cfg, st, items, [], ps, 0, 0);
    }
  }
}
