/**
 How the parent links of a retried session compare with those of a run that went
 through at once: nothing but references is linked and no link is lost; the links
 are the same where a row is linked when it is inserted or refers to nothing that
 comes later, and else, for a new row, they may not be.
 */
module LinkConvergence {
  import opened Batching
  import opened Store
  import opened Network
  import opened ImportRun
  import opened Refinement
  import opened History
  import opened Path
  import opened SessionRuns
  import opened Convergence
  import opened CleanRun
  import opened Links

  /** The links input `j` resolves to in its turn: references to what is in the thread before it. */
  ghost function Backward(plan: Plan, j: nat): seq<string>
    requires j < |plan.inputs|
  {
    Known(Grown(plan, j), plan.inputs[j].parentExternalIds)
  }

  lemma {:induction false} KnownAgree(known: set<string>, known': set<string>, refs: seq<string>)
    requires forall r :: r in refs ==> (r in known <==> r in known')
    ensures Known(known, refs) == Known(known', refs)
  {
    if refs != [] {
      KnownAgree(known, known', refs[..|refs| - 1]);
    }
  }

  /** After any runs of the session one more keeps the claim, and fills the row in time if it completes. */
  lemma {:induction false} CompletedLinks(
      plan: Plan, claim: Claim, cfg: Config, items: seq<StreamItem>, networks: seq<World>, last: World)
    requires Live(cfg) && !IsOpenCode(cfg) && AllHonest(networks) && Honest(last) && ToSend(cfg, items) != []
    requires plan == PlanOf(cfg, plan.base, items) && plan.Unambiguous()
    requires claim.together == SessionIds(cfg, items) && Sound(plan, claim) && !claim.exact
    ensures var r := RunStreaming(cfg, last.(store := Reruns(cfg, plan.base, items, networks)), items, 0);
      && LinksFit(plan, claim, r.world.store)
      && (!Stopped(r.result) ==> Filled(claim, r.world.store, |plan.inputs|))
  {
    hide OnPath, Live, RunStreaming, IsOpenCode, PlanOf, LinksFit, Sound, ToSend, SessionIds, Reruns;
    RerunsLinks(plan, claim, cfg, items, networks);
    RerunsOnPath(plan, cfg, items, networks);
    RunLinks(plan, claim, cfg, last.(store := Reruns(cfg, plan.base, items, networks)), items);
  }

  lemma {:induction false} CleanLinks(plan: Plan, claim: Claim, cfg: Config, items: seq<StreamItem>, clean: World)
    requires Live(cfg) && !IsOpenCode(cfg) && clean.fates == [] && ToSend(cfg, items) != []
    requires plan == PlanOf(cfg, plan.base, items) && plan.Unambiguous()
    requires claim.together == SessionIds(cfg, items) && Sound(plan, claim) && claim.exact
    ensures var r := RunStreaming(cfg, clean.(store := plan.base), items, 0);
      !Stopped(r.result) ==>
        LinksFit(plan, claim, r.world.store) && Filled(claim, r.world.store, |plan.inputs|)
  {
    hide Live, RunStreaming, IsOpenCode, PlanOf, LinksFit, Sound, ToSend, SessionIds, Reached;
    StartsOnPath(plan);
    FitsAtFirst(plan, claim);
    RunLinks(plan, claim, cfg, clean.(store := plan.base), items);
  }

  lemma IdsPerInput(cfg: Config, s: Store, items: seq<StreamItem>)
    ensures |SessionIds(cfg, items)| == |PlanOf(cfg, s, items).inputs|
  {
    hide SessionIds;
  }

  // Rows that refer to nothing sent after them.

  /** The session brings `r` in with input `j` or one after it. */
  ghost predicate Later(plan: Plan, j: nat, r: string)
    requires j <= |plan.inputs|
  {
    r in Ids(plan.inputs[j..]) && r !in Ids(plan.inputs[..j]) && r !in plan.base.rows
  }

  /** What this row's inputs refer to is sent before them, or there before the session, or not sent at all. */
  ghost predicate NothingLater(plan: Plan, e: string) {
    forall j, r :: 0 <= j < |plan.inputs| && Id(plan.inputs[j]) == e && r in plan.inputs[j].parentExternalIds ==>
      !Later(plan, j, r)
  }

  lemma AtKeys(plan: Plan, p: nat)
    requires p <= |plan.inputs|
    ensures plan.At(p).rows.Keys == plan.base.rows.Keys + Ids(plan.inputs[..p])
  {
    hide AddAll;
    AtRows(plan, p);
    AddAllKeys(plan.Ready(), plan.Home(), {}, {}, plan.inputs[..p]);
  }

  lemma {:induction false} CutIds(inputs: seq<Input>, j: nat, m: nat)
    requires j <= m <= |inputs|
    ensures Ids(inputs[..m]) <= Ids(inputs[..j]) + Ids(inputs[j..])
  {
    forall e | e in Ids(inputs[..m]) ensures e in Ids(inputs[..j]) + Ids(inputs[j..]) {
      var k :| 0 <= k < m && Id(inputs[..m][k]) == e;
      assert if k < j then inputs[..j][k] == inputs[k] else inputs[j..][k - j] == inputs[k];
    }
  }

  lemma ThereByThen(plan: Plan, j: nat, m: nat, r: string)
    requires j <= m <= |plan.inputs| && r in Grown(plan, m) && !Later(plan, j, r)
    ensures r in Grown(plan, j)
  {
    hide AddAll, Ids, ThreadsFor;
    AtKeys(plan, m);
    AtKeys(plan, j);
    CutIds(plan.inputs, j, m);
    PathKeepsRows(plan, 0, m);
    PathKeepsRows(plan, j, m);
    PathKeepsRows(plan, 0, j);
  }

  lemma SameWhenever(plan: Plan, e: string, j: nat, m: nat)
    requires NothingLater(plan, e) && j <= m <= |plan.inputs| && j < |plan.inputs| && Id(plan.inputs[j]) == e
    ensures Known(Grown(plan, m), plan.inputs[j].parentExternalIds) == Backward(plan, j)
  {
    hide Grown, Known;
    var refs := plan.inputs[j].parentExternalIds;
    GrownGrows(plan, j, m);
    forall r | r in refs ensures r in Grown(plan, m) <==> r in Grown(plan, j) {
      if r in Grown(plan, m) {
        ThereByThen(plan, j, m, r);
      }
    }
    KnownAgree(Grown(plan, m), Grown(plan, j), refs);
  }

  /** The first of the inputs before `n` that links row `e` in its turn, or `n`. */
  ghost function FirstLinking(plan: Plan, e: string, n: nat): (d: nat)
    requires n <= |plan.inputs|
    ensures d <= n && (d < n ==> Id(plan.inputs[d]) == e && Backward(plan, d) != [])
    ensures forall i :: 0 <= i < d && Id(plan.inputs[i]) == e ==> Backward(plan, i) == []
  {
    if n == 0 then 0
    else
      var d := FirstLinking(plan, e, n - 1);
      if d < n - 1 || (Id(plan.inputs[n - 1]) == e && Backward(plan, n - 1) != []) then d else n
  }

  /** Then its links are the first its inputs resolve to. */
  ghost function SettledClaim(plan: Plan, e: string, together: seq<set<string>>): Claim {
    var d := if Open(plan, e) then FirstLinking(plan, e, |plan.inputs|) else |plan.inputs|;
    Claim(e, together, d, if d < |plan.inputs| then iset{Backward(plan, d)} else iset{}, false)
  }

  lemma SettledIsSound(plan: Plan, e: string, together: seq<set<string>>)
    requires NothingLater(plan, e) && |together| == |plan.inputs|
    ensures Sound(plan, SettledClaim(plan, e, together))
  {
    hide Grown, Known, NothingLater, Inserted;
    var claim := SettledClaim(plan, e, together);
    forall j, m | 0 <= j < |plan.inputs| && 0 <= m <= |plan.inputs| && MayFill(plan, claim, j, m) && Open(plan, e)
      ensures Known(Grown(plan, m), plan.inputs[j].parentExternalIds) in claim.ok
    {
      SameWhenever(plan, e, j, m);
    }
  }

  /** A claim kept at the end of two runs, with one list to fill the row with, leaves one list. */
  lemma SettledAlike(plan: Plan, e: string, together: seq<set<string>>, a: Store, b: Store)
    requires |together| == |plan.inputs| && e in a.rows && e in b.rows
    requires var claim := SettledClaim(plan, e, together);
      && LinksFit(plan, claim, a) && Filled(claim, a, |plan.inputs|)
      && LinksFit(plan, claim, b) && Filled(claim, b, |plan.inputs|)
    ensures a.rows[e].parents == b.rows[e].parents
  {
    hide Inserted, Backward, FirstLinking, Open;
  }

  /** What the row is inserted with is what it keeps. */
  lemma InsertedAlike(plan: Plan, claim: Claim, a: Store, b: Store)
    requires |claim.together| == |plan.inputs| && claim.e in a.rows && claim.e in b.rows
    requires Inserted(plan, claim.e, claim.together) != []
    requires LinksFit(plan, claim, a) && LinksFit(plan, claim, b)
    ensures a.rows[claim.e].parents == b.rows[claim.e].parents
  {
    hide Known, Grown;
  }

  /** The row is linked when it is inserted, or refers to nothing that comes later. */
  ghost predicate Settled(cfg: Config, s: Store, items: seq<StreamItem>, e: string) {
    var plan := PlanOf(cfg, s, items);
    NothingLater(plan, e) || Inserted(plan, e, SessionIds(cfg, items)) != []
  }

  /** If a run after these failures and a run from where they started complete, the row has the same links. */
  ghost predicate LinksAgree(
      cfg: Config, s: Store, items: seq<StreamItem>, networks: seq<World>, last: World, once: World, e: string)
  {
    var a := RunStreaming(cfg, last.(store := Reruns(cfg, s, items, networks)), items, 0);
    var b := RunStreaming(cfg, once.(store := s), items, 0);
    !Stopped(a.result) && !Stopped(b.result) && e in a.world.store.rows && e in b.world.store.rows ==>
      a.world.store.rows[e].parents == b.world.store.rows[e].parents
  }

  /** Retried or not, completed runs leave the same links in a settled row. */
  lemma {:induction false} SettledLinksConverge(
      cfg: Config, s: Store, items: seq<StreamItem>, networks: seq<World>, last: World, once: World, e: string)
    requires Live(cfg) && !IsOpenCode(cfg)
    requires AllHonest(networks) && Honest(last) && Honest(once)
    requires Settled(cfg, s, items, e)
    ensures LinksAgree(cfg, s, items, networks, last, once, e)
  {
    hide Live, RunStreaming, IsOpenCode, PlanOf, ToSend, SessionIds, LinksFit, Filled, Sound, NothingLater, ThreadsFor,
         Inserted;
    var plan := PlanOf(cfg, s, items);
    var w, w' := last.(store := Reruns(cfg, s, items, networks)), once.(store := s);
    var a, b := RunStreaming(cfg, w, items, 0), RunStreaming(cfg, w', items, 0);
    if ToSend(cfg, items) == [] {
      NothingToSend(cfg, s, items, networks);
      RunSends(cfg, w, items, 0);
      RunSends(cfg, w', items, 0);
    } else if !plan.Unambiguous() {
      AmbiguousStops(cfg, w', items, 0);
    } else if !Stopped(a.result) && !Stopped(b.result) && e in a.world.store.rows && e in b.world.store.rows {
      var together := SessionIds(cfg, items);
      IdsPerInput(cfg, s, items);
      ReferencesAreSound(plan, e, together);
      var claim := if NothingLater(plan, e) then SettledClaim(plan, e, together) else ReferenceClaim(plan, e, together);
      if NothingLater(plan, e) {
        SettledIsSound(plan, e, together);
      }
      CompletedLinks(plan, claim, cfg, items, networks, last);
      CompletedLinks(plan, claim, cfg, items, [], once);
      if NothingLater(plan, e) {
        SettledAlike(plan, e, together, a.world.store, b.world.store);
      } else {
        InsertedAlike(plan, claim, a.world.store, b.world.store);
      }
    }
  }

  /**
   At-least-once delivery, to the letter: when every row is settled, any failed runs and
   then a completing one leave the very store a single completing run leaves.
   */
  lemma {:induction false} RetriesConvergeWholly(
      cfg: Config, s: Store, items: seq<StreamItem>, networks: seq<World>, last: World, once: World)
    requires Live(cfg) && !IsOpenCode(cfg)
    requires AllHonest(networks) && Honest(last) && Honest(once)
    requires forall e :: Settled(cfg, s, items, e)
    ensures var a := RunStreaming(cfg, last.(store := Reruns(cfg, s, items, networks)), items, 0);
      var b := RunStreaming(cfg, once.(store := s), items, 0);
      !Stopped(a.result) && !Stopped(b.result) ==> a.world.store == b.world.store
  {
    hide Live, RunStreaming, IsOpenCode, Evolves, Honest, AllHonest, Settled;
    RetriesConverge(cfg, s, items, networks, last, once);
    var a := RunStreaming(cfg, last.(store := Reruns(cfg, s, items, networks)), items, 0);
    var b := RunStreaming(cfg, once.(store := s), items, 0);
    if !Stopped(a.result) && !Stopped(b.result) {
      forall e | e in a.world.store.rows ensures a.world.store.rows[e] == b.world.store.rows[e] {
        SettledLinksConverge(cfg, s, items, networks, last, once, e);
      }
      assert a.world.store.rows == b.world.store.rows;
    }
  }

  // Rows the session has one entry for.

  /** At most one input is for this row. */
  ghost predicate SentOnce(plan: Plan, e: string) {
    forall i, j :: 0 <= i < j < |plan.inputs| ==> Id(plan.inputs[i]) != e || Id(plan.inputs[j]) != e
  }

  ghost predicate Contains(l: seq<string>, part: seq<string>) {
    forall r :: r in part ==> r in l
  }

  /** Whatever links the row has no fewer than its input resolves to in its turn, ... */
  ghost function AtLeastClaim(plan: Plan, e: string, together: seq<set<string>>): Claim {
    var f := First(plan.inputs, e);
    if f == |plan.inputs| then Claim(e, together, f, iset{}, false)
    else
      var due := if Open(plan, e) && Backward(plan, f) != [] then f else |plan.inputs|;
      Claim(e, together, due, iset l | Contains(l, Backward(plan, f)), false)
  }

  /** ... and in a run that meets each batch in its turn, exactly those. */
  ghost function ExactClaim(plan: Plan, e: string, together: seq<set<string>>): Claim {
    var f := First(plan.inputs, e);
    Claim(e, together, |plan.inputs|, if f == |plan.inputs| then iset{} else iset{Backward(plan, f)}, true)
  }

  lemma OneInput(plan: Plan, e: string, j: nat)
    requires SentOnce(plan, e) && j < |plan.inputs| && Id(plan.inputs[j]) == e
    ensures First(plan.inputs, e) == j
  {
  }

  lemma {:induction false} KnownGrows(known: set<string>, known': set<string>, refs: seq<string>)
    requires known <= known'
    ensures forall r :: r in Known(known, refs) ==> r in Known(known', refs)
  {
  }

  lemma OnceIsSound(plan: Plan, e: string, together: seq<set<string>>)
    requires SentOnce(plan, e) && |together| == |plan.inputs|
    ensures Sound(plan, AtLeastClaim(plan, e, together)) && Sound(plan, ExactClaim(plan, e, together))
  {
    hide Grown, Known, SentOnce, Inserted;
    var least, exact := AtLeastClaim(plan, e, together), ExactClaim(plan, e, together);
    forall j, m | 0 <= j < |plan.inputs| && 0 <= m <= |plan.inputs| && MayFill(plan, least, j, m)
      ensures Known(Grown(plan, m), plan.inputs[j].parentExternalIds) in least.ok
    {
      OneInput(plan, e, j);
      GrownGrows(plan, j, m);
      KnownGrows(Grown(plan, j), Grown(plan, m), plan.inputs[j].parentExternalIds);
    }
    forall j, m | 0 <= j < |plan.inputs| && 0 <= m <= |plan.inputs| && MayFill(plan, exact, j, m)
      ensures Known(Grown(plan, m), plan.inputs[j].parentExternalIds) in exact.ok
    {
      OneInput(plan, e, j);
    }
  }

  lemma OnceContains(plan: Plan, e: string, together: seq<set<string>>, a: Store, b: Store)
    requires |together| == |plan.inputs| && e in a.rows && e in b.rows
    requires LinksFit(plan, AtLeastClaim(plan, e, together), a)
    requires Filled(AtLeastClaim(plan, e, together), a, |plan.inputs|)
    requires LinksFit(plan, ExactClaim(plan, e, together), b)
    ensures Contains(a.rows[e].parents, b.rows[e].parents)
  {
    hide Backward, Open, Known, Grown;
  }

  /**
   The links of a row the session has one entry for are, after any failed runs and a
   completing one, no fewer than a single run over a network that loses nothing leaves.
   */
  lemma {:induction false} RetriesLoseNoLink(
      cfg: Config, s: Store, items: seq<StreamItem>, networks: seq<World>, last: World, clean: World, e: string)
    requires Live(cfg) && !IsOpenCode(cfg)
    requires AllHonest(networks) && Honest(last) && clean.fates == []
    requires SentOnce(PlanOf(cfg, s, items), e)
    ensures var a := RunStreaming(cfg, last.(store := Reruns(cfg, s, items, networks)), items, 0);
      var b := RunStreaming(cfg, clean.(store := s), items, 0);
      !Stopped(a.result) && !Stopped(b.result) && e in a.world.store.rows && e in b.world.store.rows ==>
        Contains(a.world.store.rows[e].parents, b.world.store.rows[e].parents)
  {
    hide Live, RunStreaming, IsOpenCode, PlanOf, ToSend, SessionIds, LinksFit, Filled, Sound, SentOnce, ThreadsFor;
    var plan := PlanOf(cfg, s, items);
    var w, w' := last.(store := Reruns(cfg, s, items, networks)), clean.(store := s);
    var a, b := RunStreaming(cfg, w, items, 0), RunStreaming(cfg, w', items, 0);
    if ToSend(cfg, items) == [] {
      NothingToSend(cfg, s, items, networks);
      RunSends(cfg, w, items, 0);
      RunSends(cfg, w', items, 0);
    } else if !plan.Unambiguous() {
      AmbiguousStops(cfg, w', items, 0);
    } else if !Stopped(a.result) && !Stopped(b.result) && e in a.world.store.rows && e in b.world.store.rows {
      var together := SessionIds(cfg, items);
      IdsPerInput(cfg, s, items);
      OnceIsSound(plan, e, together);
      CompletedLinks(plan, AtLeastClaim(plan, e, together), cfg, items, networks, last);
      CleanLinks(plan, ExactClaim(plan, e, together), cfg, items, clean);
      OnceContains(plan, e, together, a.world.store, b.world.store);
    }
  }

  // Every link is a reference.

  /** `l` holds references of one of the row's inputs, all of them in the session's thread. */
  ghost predicate AllReferences(plan: Plan, e: string, l: seq<string>) {
    exists j :: 0 <= j < |plan.inputs| && Id(plan.inputs[j]) == e
      && forall r :: r in l ==> r in plan.inputs[j].parentExternalIds && r in Grown(plan, |plan.inputs|)
  }

  ghost function ReferenceClaim(plan: Plan, e: string, together: seq<set<string>>): Claim {
    Claim(e, together, |plan.inputs|, iset l | AllReferences(plan, e, l), false)
  }

  lemma ReferencesAreSound(plan: Plan, e: string, together: seq<set<string>>)
    requires |together| == |plan.inputs|
    ensures Sound(plan, ReferenceClaim(plan, e, together))
  {
    hide Grown, Inserted;
    var claim, n := ReferenceClaim(plan, e, together), |plan.inputs|;
    forall j, m | 0 <= j < n && 0 <= m <= n && MayFill(plan, claim, j, m)
      ensures AllReferences(plan, e, Known(Grown(plan, m), plan.inputs[j].parentExternalIds))
    {
      GrownGrows(plan, m, n);
    }
  }

  lemma {:induction false} FlatIdsWithin(ps: seq<Prepared>, ranges: seq<Range>)
    requires forall k :: 0 <= k < |ranges| ==> ranges[k].lo <= ranges[k].hi <= |ps|
    ensures forall j :: 0 <= j < |FlatIds(ps, ranges)| ==> FlatIds(ps, ranges)[j] <= Ids(Flat(ps, ranges))
    decreases |ranges|
  {
    if ranges != [] {
      hide StableSort, Ids;
      var inputs := InputsOf(StableSort(ps[ranges[0].lo..ranges[0].hi], PreparedKey));
      var rest := Flat(ps, ranges[1..]);
      FlatIdsWithin(ps, ranges[1..]);
      IdsOfBoth(inputs, rest);
    }
  }

  lemma IdsOfBoth(m: seq<Input>, n: seq<Input>)
    ensures Ids(m + n) == Ids(m) + Ids(n)
  {
    forall e ensures e in Ids(m + n) <==> e in Ids(m) || e in Ids(n) {
      LatestOfBoth(m, n, e);
    }
  }

  /** What a row is inserted with are references of its first input. */
  lemma InsertedReferences(plan: Plan, e: string, together: seq<set<string>>)
    requires |together| == |plan.inputs| && Owned(plan.userId, plan.inputs) && Inserted(plan, e, together) != []
    requires forall j :: 0 <= j < |together| ==> together[j] <= Ids(plan.inputs)
    ensures AllReferences(plan, e, Inserted(plan, e, together))
  {
    hide AddAll, Owned, Ids;
    var f, n := First(plan.inputs, e), |plan.inputs|;
    GrownGrows(plan, f, n);
    PathNewRows(plan, f, n);
    AtRows(plan, n);
    AddAllKeys(plan.Ready(), plan.Home(), {}, {}, plan.inputs[..n]);
    assert plan.inputs[..n] == plan.inputs;
    forall r | r in Inserted(plan, e, together)
      ensures r in plan.inputs[f].parentExternalIds && r in Grown(plan, n)
    {
    }
  }

  /**
   What a row links to after any failed runs and a completing one is what it linked
   to before, or references of one entry for it, all of them in the session's thread.
   */
  lemma {:induction false} LinksAreReferences(
      cfg: Config, s: Store, items: seq<StreamItem>, networks: seq<World>, last: World, e: string)
    requires Live(cfg) && !IsOpenCode(cfg) && AllHonest(networks) && Honest(last)
    ensures var plan := PlanOf(cfg, s, items);
      var r := RunStreaming(cfg, last.(store := Reruns(cfg, s, items, networks)), items, 0);
      !Stopped(r.result) && e in r.world.store.rows ==>
        var l := r.world.store.rows[e].parents;
        || l == (if e in s.rows then s.rows[e].parents else [])
        || (AllReferences(plan, e, l) && forall p :: p in l ==> InThread(r.world.store, plan.Home(), p))
  {
    hide Live, RunStreaming, IsOpenCode, PlanOf, ToSend, SessionIds, Sound, ThreadsFor, Reached, Inserted, Owned,
         Written,
         Labelled, Grown;
    var plan := PlanOf(cfg, s, items);
    var w := last.(store := Reruns(cfg, s, items, networks));
    var r := RunStreaming(cfg, w, items, 0);
    if ToSend(cfg, items) == [] {
      NothingToSend(cfg, s, items, networks);
      RunSends(cfg, w, items, 0);
    } else if !Stopped(r.result) && e in r.world.store.rows {
      if !plan.Unambiguous() {
        RerunsEvolve(cfg, s, items, networks);
        ThreadsOnlyGrow(s.threads, w.store.threads, cfg.session.channel, cfg.userId);
        AmbiguousStops(cfg, w, items, 0);
      }
      var claim := ReferenceClaim(plan, e, SessionIds(cfg, items));
      IdsPerInput(cfg, s, items);
      ReferencesAreSound(plan, e, claim.together);
      CompletedLinks(plan, claim, cfg, items, networks, last);
      RerunsOnPath(plan, cfg, items, networks);
      RunProgress(plan, cfg, w, items, 0);
      var p :| |plan.inputs| <= p && Reached(plan, r.world.store, p);
      ReachedPlace(plan, r.world.store, p);
      if Inserted(plan, e, claim.together) != [] {
        PlanOwned(cfg, s, items);
        SessionIdsWithin(cfg, s, items);
        InsertedReferences(plan, e, claim.together);
      }
    }
  }

  lemma SessionIdsWithin(cfg: Config, s: Store, items: seq<StreamItem>)
    ensures var ids := SessionIds(cfg, items);
      forall j :: 0 <= j < |ids| ==> ids[j] <= Ids(PlanOf(cfg, s, items).inputs)
  {
    hide Ids, ToSend, CutsOf, FlatIds, Flat;
    FlatIdsWithin(ToSend(cfg, items), CutsOf(cfg, cfg.limits, ToSend(cfg, items), 0, 0));
  }

  // A fresh row that is not settled is linked by the next run.

  /** Where a completed run leaves the session: everything is in, and in the thread. */
  lemma EndOfPath(plan: Plan, s: Store)
    requires plan.Unambiguous() && OnPath(plan, s, |plan.inputs|) && plan.inputs != []
    ensures Reached(plan, s, |plan.inputs|) && s.rows.Keys == plan.base.rows.Keys + Ids(plan.inputs)
    ensures ThreadsFor(s.threads, plan.channel, plan.userId) == [plan.Home()]
    ensures Attached(s.rows, plan.Home()) == Grown(plan, |plan.inputs|)
  {
    hide AddAll, Reached, ThreadsFor, Attached, Grown;
    var n := |plan.inputs|;
    var p :| n <= p && Reached(plan, s, p);
    ReachedPlace(plan, s, p);
    AtKeys(plan, n);
    assert plan.inputs[..n] == plan.inputs;
    PathThreads(plan, s, n);
  }

  lemma LaterIsGrown(plan: Plan, j: nat, r: string)
    requires j <= |plan.inputs| && Later(plan, j, r) && Owned(plan.userId, plan.inputs)
    ensures r in Grown(plan, |plan.inputs|)
  {
    hide AddAll, Owned, Ids;
    var n := |plan.inputs|;
    PathNewRows(plan, 0, n);
    AtKeys(plan, n);
    SliceWithin(plan.inputs, 0, j, n, n);
    assert plan.inputs[j..n] == plan.inputs[j..] && plan.inputs[0..n] == plan.inputs[..n];
  }

  /** The next run's plan, once a run completed. */
  lemma NextPlan(cfg: Config, plan: Plan, s: Store, items: seq<StreamItem>)
    requires plan == PlanOf(cfg, plan.base, items) && plan.Unambiguous() && plan.inputs != []
    requires OnPath(plan, s, |plan.inputs|)
    ensures var next := PlanOf(cfg, s, items);
      && next.Unambiguous() && next.inputs == plan.inputs && next.Home() == plan.Home()
      && forall j :: 0 <= j < |plan.inputs| ==> Grown(plan, |plan.inputs|) <= Grown(next, j)
  {
    hide AddAll, Reached, Attached, ToSend, CutsOf, Flat, BuildLabels, ThreadsFor;
    EndOfPath(plan, s);
    var next := PlanOf(cfg, s, items);
    forall j | 0 <= j < |plan.inputs| ensures Grown(plan, |plan.inputs|) <= Grown(next, j) {
      GrownGrows(next, 0, j);
    }
  }

  lemma {:induction false} InputsThere(cfg: Config, s: Store, items: seq<StreamItem>)
    requires ToSend(cfg, items) != []
    ensures PlanOf(cfg, s, items).inputs != []
  {
    hide ToSend, StableSort, BuildLabels, CutsOf;
    CutsNonEmpty(cfg, ToSend(cfg, items));
  }

  /** Not settled, the row is unlinked after the first run, and has a reference in the thread. */
  lemma UnsettledAfterOne(plan: Plan, e: string, together: seq<set<string>>, s: Store) returns (j: nat)
    requires |together| == |plan.inputs| && e !in plan.base.rows && SentOnce(plan, e)
    requires !NothingLater(plan, e) && Inserted(plan, e, together) == []
    requires e in s.rows && LinksFit(plan, ExactClaim(plan, e, together), s)
    requires Owned(plan.userId, plan.inputs)
    ensures s.rows[e].parents == [] && Rewirable(s.rows, e)
    ensures j < |plan.inputs| && Id(plan.inputs[j]) == e
    ensures Known(Grown(plan, |plan.inputs|), plan.inputs[j].parentExternalIds) != []
  {
    hide Grown, Later, SentOnce, Owned;
    var r: string;
    j, r :| 0 <= j < |plan.inputs| && Id(plan.inputs[j]) == e && r in plan.inputs[j].parentExternalIds
            && Later(plan, j, r);
    OneInput(plan, e, j);
    LaterIsGrown(plan, j, r);
    assert r in Known(Grown(plan, |plan.inputs|), plan.inputs[j].parentExternalIds);
  }

  lemma {:induction false} OneRun(cfg: Config, s: Store, items: seq<StreamItem>, w: World)
    ensures Reruns(cfg, s, items, [w]) == RunStreaming(cfg, w.(store := s), items, 0).world.store
  {
    hide RunStreaming;
    assert [w][..0] == [];
  }

  lemma {:induction false} SomethingSent(cfg: Config, s: Store, items: seq<StreamItem>, e: string)
    requires !NothingLater(PlanOf(cfg, s, items), e)
    ensures ToSend(cfg, items) != [] && e in Ids(PlanOf(cfg, s, items).inputs)
  {
    hide ToSend, BuildLabels, Later, StableSort;
    var inputs := PlanOf(cfg, s, items).inputs;
    var j, r :| 0 <= j < |inputs| && Id(inputs[j]) == e && r in inputs[j].parentExternalIds
                && Later(PlanOf(cfg, s, items), j, r);
  }

  /** A row there without links, with a reference in the thread, is linked by the next run to complete. */
  lemma {:induction false} RelinkedNext(
      cfg: Config, s: Store, items: seq<StreamItem>, again: World, e: string, j: nat, known: set<string>)
    requires Live(cfg) && !IsOpenCode(cfg) && Honest(again) && ToSend(cfg, items) != []
    requires PlanOf(cfg, s, items).Unambiguous() && e in s.rows && Rewirable(s.rows, e)
    requires var next := PlanOf(cfg, s, items);
      && SentOnce(next, e) && j < |next.inputs| && Id(next.inputs[j]) == e
      && known <= Grown(next, j) && Known(known, next.inputs[j].parentExternalIds) != []
    ensures var r := RunStreaming(cfg, again.(store := s), items, 0);
      !Stopped(r.result) ==> HasLinks(r.world.store, e)
  {
    hide Live, RunStreaming, IsOpenCode, PlanOf, ToSend, SessionIds, LinksFit, Sound, SentOnce, ThreadsFor, Known,
         Grown,
         OnPath;
    var next, together := PlanOf(cfg, s, items), SessionIds(cfg, items);
    IdsPerInput(cfg, s, items);
    OnceIsSound(next, e, together);
    OneInput(next, e, j);
    KnownGrows(known, Grown(next, j), next.inputs[j].parentExternalIds);
    assert Known(known, next.inputs[j].parentExternalIds)[0] in Backward(next, j);
    CompletedLinks(next, AtLeastClaim(next, e, together), cfg, items, [], again);
  }

  /** What a run that goes through at once leaves of a fresh row that is not settled. */
  lemma {:induction false} CleanLeavesUnlinked(
      plan: Plan, cfg: Config, items: seq<StreamItem>, clean: World, e: string) returns (j: nat)
    requires Live(cfg) && !IsOpenCode(cfg) && clean.fates == [] && ToSend(cfg, items) != []
    requires plan == PlanOf(cfg, plan.base, items) && plan.Unambiguous() && plan.inputs != []
    requires e !in plan.base.rows && e in Ids(plan.inputs) && SentOnce(plan, e) && !NothingLater(plan, e)
    requires |SessionIds(cfg, items)| == |plan.inputs| && Inserted(plan, e, SessionIds(cfg, items)) == []
    requires Owned(plan.userId, plan.inputs)
    requires !Stopped(RunStreaming(cfg, clean.(store := plan.base), items, 0).result)
    ensures var s := RunStreaming(cfg, clean.(store := plan.base), items, 0).world.store;
      && OnPath(plan, s, |plan.inputs|)
      && e in s.rows && s.rows[e].parents == [] && Rewirable(s.rows, e)
    ensures j < |plan.inputs| && Id(plan.inputs[j]) == e
    ensures Known(Grown(plan, |plan.inputs|), plan.inputs[j].parentExternalIds) != []
  {
    hide Live, RunStreaming, IsOpenCode, PlanOf, ToSend, SessionIds, LinksFit, Filled, Sound, SentOnce, ThreadsFor,
         NothingLater, Inserted, OnPath, Known, Grown, Owned, Written, Labelled, Ids;
    var s, together := RunStreaming(cfg, clean.(store := plan.base), items, 0).world.store, SessionIds(cfg, items);
    StartsOnPath(plan);
    RunProgress(plan, cfg, clean.(store := plan.base), items, 0);
    OnceIsSound(plan, e, together);
    CleanLinks(plan, ExactClaim(plan, e, together), cfg, items, clean);
    EndOfPath(plan, s);
    j := UnsettledAfterOne(plan, e, together, s);
  }

  /**
   A fresh row that is not settled: a run that goes through at once leaves it without
   links, and one more such run links it.
   */
  lemma {:induction false} UnsettledLinksDiffer(
      cfg: Config, s: Store, items: seq<StreamItem>, clean: World, again: World, e: string)
    requires Live(cfg) && !IsOpenCode(cfg)
    requires clean.fates == [] && again.fates == [] && again.sinkFails == []
    requires e !in s.rows && SentOnce(PlanOf(cfg, s, items), e) && !Settled(cfg, s, items, e)
    ensures var once := RunStreaming(cfg, clean.(store := s), items, 0);
      var twice := RunStreaming(cfg, again.(store := Reruns(cfg, s, items, [clean])), items, 0);
      !Stopped(once.result) ==>
        && !Stopped(twice.result)
        && e in once.world.store.rows && once.world.store.rows[e].parents == []
        && HasLinks(twice.world.store, e)
  {
    hide Live, RunStreaming, IsOpenCode, PlanOf, ToSend, SessionIds, SentOnce, ThreadsFor, NothingLater, Inserted,
         OnPath,
         Known, Grown, Owned, Reruns, Ids, SameButParents;
    var plan := PlanOf(cfg, s, items);
    if !Stopped(RunStreaming(cfg, clean.(store := s), items, 0).result) {
      OneRun(cfg, s, items, clean);
      FailuresAreNoObstacle(cfg, s, items, [clean], clean, again);
      IdsPerInput(cfg, s, items);
      SomethingSent(cfg, s, items, e);
      InputsThere(cfg, s, items);
      PlanOwned(cfg, s, items);
      if !plan.Unambiguous() {
        AmbiguousStops(cfg, clean.(store := s), items, 0);
      }
      var j := CleanLeavesUnlinked(plan, cfg, items, clean, e);
      var s' := RunStreaming(cfg, clean.(store := s), items, 0).world.store;
      NextPlan(cfg, plan, s', items);
      SameInputs(plan, PlanOf(cfg, s', items), e);
      RelinkedNext(cfg, s', items, again, e, j, Grown(plan, |plan.inputs|));
    }
  }

  lemma SameInputs(a: Plan, b: Plan, e: string)
    requires a.inputs == b.inputs && SentOnce(a, e)
    ensures SentOnce(b, e)
  {
  }

  /**
   The links of a fresh row the session has one entry for come out the same after every
   history of failed runs if and only if the row is linked when it is inserted, or its
   entry refers to nothing that comes later.
   */
  lemma {:induction false} LinksConvergeExactly(cfg: Config, s: Store, items: seq<StreamItem>, clean: World, e: string)
    requires Live(cfg) && !IsOpenCode(cfg)
    requires clean.fates == [] && clean.sinkFails == []
    requires e !in s.rows && SentOnce(PlanOf(cfg, s, items), e)
    requires !Stopped(RunStreaming(cfg, clean.(store := s), items, 0).result)
    ensures Settled(cfg, s, items, e) <==>
      forall networks, last :: AllHonest(networks) && Honest(last) ==>
        LinksAgree(cfg, s, items, networks, last, clean, e)
  {
    hide Live, RunStreaming, IsOpenCode, PlanOf, Settled, SentOnce, Reruns;
    if Settled(cfg, s, items, e) {
      forall networks, last | AllHonest(networks) && Honest(last)
        ensures LinksAgree(cfg, s, items, networks, last, clean, e)
      {
        hide LinksAgree;
        SettledLinksConverge(cfg, s, items, networks, last, clean, e);
      }
    } else {
      UnsettledLinksDiffer(cfg, s, items, clean, clean, e);
      assert AllHonest([clean]) && Honest(clean);
      assert !LinksAgree(cfg, s, items, [clean], clean, clean, e);
    }
  }
}
