/**
 Parent links, followed row by row along a session's path: which lists a run may
 leave in a row, and when it must have left one.
 */
module Links {
  import opened Wrappers
  import opened Retry
  import opened Batching
  import opened Store
  import opened Network
  import opened ImportRun
  import opened Refinement
  import opened Rewire
  import opened History
  import opened Path
  import opened SessionRuns
  import opened Convergence
  import opened CleanRun

  /** The memories of the session's thread once the first `m` inputs are in. */
  ghost function Grown(plan: Plan, m: nat): set<string>
    requires m <= |plan.inputs|
  {
    Attached(plan.At(m).rows, plan.Home())
  }

  /** The first input for row `e`, or the number of inputs if there is none. */
  ghost function First(inputs: seq<Input>, e: string): (f: nat)
    ensures f <= |inputs| && (f < |inputs| ==> Id(inputs[f]) == e)
    ensures forall i :: 0 <= i < f ==> Id(inputs[i]) != e
  {
    if inputs == [] then 0
    else
      var n := |inputs| - 1;
      var f := First(inputs[..n], e);
      if f < n || Id(inputs[n]) == e then f else n + 1
  }

  /** An update may fill row `e`, if it was there before the session at all. */
  ghost predicate Open(plan: Plan, e: string) {
    e in plan.base.rows ==> Rewirable(plan.base.rows, e)
  }

  /** The list row `e` is inserted with, if the session inserts it. `together` says which ids travel with an input. */
  ghost function Inserted(plan: Plan, e: string, together: seq<set<string>>): seq<string>
    requires |together| == |plan.inputs|
  {
    var f := First(plan.inputs, e);
    if e in plan.base.rows || f == |plan.inputs| then []
    else
      var refs := plan.inputs[f].parentExternalIds;
      Known(Grown(plan, f), refs) + Known(together[f] - plan.At(f).rows.Keys, refs)
  }

  /**
   What is claimed of the links of one row: the lists in `ok` are those an update may
   fill it with, and past input `due` it is filled. An `exact` run meets each batch
   exactly in its turn.
   */
  datatype Claim = Claim(e: string, together: seq<set<string>>, due: nat, ok: iset<seq<string>>, exact: bool)

  /** Row `e`, as far as it is there, is as claimed. */
  ghost predicate LinksFit(plan: Plan, claim: Claim, s: Store)
    requires |claim.together| == |plan.inputs|
  {
    var e := claim.e;
    e in s.rows ==>
      if !Open(plan, e) then
        s.rows[e].parents == plan.base.rows[e].parents && s.rows[e].threads == plan.base.rows[e].threads
      else
        && |s.rows[e].threads| == 1
        && var inserted := Inserted(plan, e, claim.together);
           if inserted != [] then s.rows[e].parents == inserted
           else s.rows[e].parents == [] || s.rows[e].parents in claim.ok
  }

  /** Once the inputs before `k` are dealt with, row `e` is filled if it is due by then. */
  ghost predicate Filled(claim: Claim, s: Store, k: nat) {
    claim.due < k ==> claim.e in s.rows && s.rows[claim.e].parents != []
  }

  /** An update drawn from input `j` when the first `m` inputs are in may fill the row. */
  ghost predicate MayFill(plan: Plan, claim: Claim, j: nat, m: nat)
    requires j < |plan.inputs| && m <= |plan.inputs|
  {
    && Id(plan.inputs[j]) == claim.e && j <= claim.due && j <= m
    && (claim.exact ==> m == j && claim.e in plan.At(j).rows)
    && Known(Grown(plan, m), plan.inputs[j].parentExternalIds) != []
  }

  /** The claim allows everything a run of the session may do to the row. */
  ghost predicate Sound(plan: Plan, claim: Claim) {
    && |claim.together| == |plan.inputs|
    && (claim.due < |plan.inputs| ==>
      && Id(plan.inputs[claim.due]) == claim.e && Open(plan, claim.e)
      && Known(Grown(plan, claim.due), plan.inputs[claim.due].parentExternalIds) != [])
    && (Open(plan, claim.e) && Inserted(plan, claim.e, claim.together) == [] ==>
      forall j, m :: 0 <= j < |plan.inputs| && 0 <= m <= |plan.inputs| && MayFill(plan, claim, j, m) ==>
        Known(Grown(plan, m), plan.inputs[j].parentExternalIds) in claim.ok)
  }

  /** A job for the row, if the row can be filled at all, fills it as claimed. */
  ghost predicate JobFits(plan: Plan, claim: Claim, job: Request)
    requires |claim.together| == |plan.inputs|
  {
    && job.UpdateMemoryParents? && job.memoryId == claim.e
    && Open(plan, claim.e) && Inserted(plan, claim.e, claim.together) == [] ==>
      job.parentIds in claim.ok
  }

  // What the server knows when it takes a batch.

  lemma AtRows(plan: Plan, p: nat)
    requires p <= |plan.inputs|
    ensures plan.At(p).rows == AddAll(plan.Ready(), plan.Home(), {}, {}, plan.inputs[..p]).rows
  {
    if p == 0 {
      AddNone(plan.Ready(), plan.Home(), plan.inputs[..0]);
    }
  }

  lemma AttachedGrows(s: Store, id: nat, memories: seq<Input>)
    requires id < |s.threads|
    requires forall e :: e in Ids(memories) && e in s.rows ==> InThread(s, id, e)
    ensures var rows := AddAll(s, id, {}, {}, memories).rows;
      Attached(rows, id) == Attached(s.rows, id) + Ids(memories) && rows.Keys == s.rows.Keys + Ids(memories)
  {
    hide AddAll;
    AddAllInThread(s, id, {}, {}, memories);
    AddAllKeepsRows(s, id, {}, {}, memories);
    var r := AddAll(s, id, {}, {}, memories);
    forall e ensures e in Attached(r.rows, id) <==> e in Attached(s.rows, id) + Ids(memories) {
      assert e in Attached(r.rows, id) <==> InThread(r, id, e);
      assert e in Attached(s.rows, id) <==> InThread(s, id, e);
    }
  }

  /** Everything the batch names that has a row has it in the thread. */
  ghost predicate AllOurs(plan: Plan, s: Store, a: nat, b: nat)
    requires a <= b <= |plan.inputs|
  {
    forall e :: e in Ids(plan.inputs[a..b]) && e in s.rows ==> InThread(s, plan.Home(), e)
  }

  lemma AttachedAlike(a: Store, b: Store, id: nat)
    requires Alike(a, b)
    ensures Attached(a.rows, id) == Attached(b.rows, id) && a.rows.Keys == b.rows.Keys
  {
  }

  lemma SliceWithin(inputs: seq<Input>, a: nat, p: nat, j: nat, b: nat)
    requires a <= p <= j <= b <= |inputs|
    ensures Ids(inputs[p..j]) <= Ids(inputs[a..b])
  {
    forall e | e in Ids(inputs[p..j]) ensures e in Ids(inputs[a..b]) {
      var k :| 0 <= k < j - p && Id(inputs[p..j][k]) == e;
      assert inputs[a..b][p - a + k] == inputs[p..j][k];
    }
  }

  lemma {:induction false} SplitIds(inputs: seq<Input>, a: nat, p: nat, j: nat)
    requires a <= p <= j <= |inputs|
    ensures Ids(inputs[a..j]) == Ids(inputs[a..p]) + Ids(inputs[p..j])
  {
    assert inputs[a..p] + inputs[p..j] == inputs[a..j];
    forall e ensures e in Ids(inputs[a..j]) <==> e in Ids(inputs[a..p]) || e in Ids(inputs[p..j]) {
      LatestOfBoth(inputs[a..p], inputs[p..j], e);
    }
  }

  lemma ReachedPlace(plan: Plan, s: Store, p: nat)
    requires Reached(plan, s, p)
    ensures p <= |plan.inputs| && plan.At(p).rows.Keys == s.rows.Keys
    ensures forall e :: e in s.rows ==> plan.At(p).rows[e].threads == s.rows[e].threads
    ensures Grown(plan, p) == Attached(s.rows, plan.Home()) <= s.rows.Keys
  {
    hide AddAll, ThreadsFor, LabelsFit, KeptOutside;
    AttachedAlike(plan.At(p), s, plan.Home());
  }

  /** The batch's inputs up to `j`, on top of a store at or before it. */
  lemma GrowsTo(plan: Plan, s: Store, p: nat, j: nat, b: nat)
    requires Reached(plan, s, p) && p <= j < b <= |plan.inputs| && AllOurs(plan, s, p, b)
    ensures Grown(plan, j) == Attached(s.rows, plan.Home()) + Ids(plan.inputs[p..j])
    ensures plan.At(j).rows.Keys == s.rows.Keys + Ids(plan.inputs[p..j])
  {
    hide AddAll, Reached, Attached, Alike;
    var id, more := plan.Home(), plan.inputs[p..j];
    var at := AddAll(plan.Ready(), id, {}, {}, plan.inputs[..p]);
    ReachedPlace(plan, s, p);
    AtRows(plan, p);
    SliceWithin(plan.inputs, p, p, j, b);
    forall e | e in Ids(more) && e in at.rows ensures InThread(at, id, e) {
      assert InThread(s, id, e);
    }
    AttachedGrows(at, id, more);
    AddInTwo(plan.Ready(), id, plan.inputs[..p], more);
    assert plan.inputs[..p] + more == plan.inputs[..j];
    AtRows(plan, j);
    AttachedAlike(AddAll(at, id, {}, {}, more), AddAll(plan.Ready(), id, {}, {}, plan.inputs[..j]), id);
  }

  lemma SeenAttached(plan: Plan, s: Store, p: nat, a: nat, j: nat, b: nat)
    requires Reached(plan, s, p) && a <= j <= p && j <= b <= |plan.inputs| && AllOurs(plan, s, a, b)
    ensures Ids(plan.inputs[a..j]) <= Attached(s.rows, plan.Home())
  {
    hide AddAll, ThreadsFor, LabelsFit, KeptOutside;
    AttachedAlike(plan.At(p), s, plan.Home());
    AtRows(plan, p);
    AddAllKeys(plan.Ready(), plan.Home(), {}, {}, plan.inputs[..p]);
    IdsWithin(plan.inputs, a, j, p);
    SliceWithin(plan.inputs, a, a, j, b);
    assert forall e :: e in Ids(plan.inputs[a..j]) ==> InThread(s, plan.Home(), e);
  }

  lemma OursWithin(plan: Plan, s: Store, a: nat, p: nat, b: nat)
    requires a <= p <= b <= |plan.inputs| && AllOurs(plan, s, a, b)
    ensures AllOurs(plan, s, p, b)
    ensures forall e :: e in Ids(plan.inputs[a..b]) && e in s.rows ==> e in Attached(s.rows, plan.Home())
  {
    SliceWithin(plan.inputs, a, p, b, b);
    assert forall e :: InThread(s, plan.Home(), e) ==> e in Attached(s.rows, plan.Home());
  }

  /** What is resolved for input `j` of a batch are references to what is in the thread by then. */
  lemma KnownHere(plan: Plan, s: Store, p: nat, a: nat, j: nat, b: nat)
    requires Reached(plan, s, p) && a <= p && a <= j < b <= |plan.inputs| && AllOurs(plan, s, a, b)
    ensures p <= |plan.inputs|
    ensures Attached(s.rows, plan.Home()) + Ids(plan.inputs[a..j]) == Grown(plan, if p <= j then j else p)
    ensures p <= j ==>
      Ids(plan.inputs[a..b]) - Grown(plan, j) == Ids(plan.inputs[a..b]) - plan.At(j).rows.Keys
  {
    hide Reached, AllOurs, Attached, Grown, Ids;
    ReachedPlace(plan, s, p);
    SeenAttached(plan, s, p, a, if p <= j then p else j, b);
    if p <= j {
      OursWithin(plan, s, a, p, b);
      SplitIds(plan.inputs, a, p, j);
      GrowsTo(plan, s, p, j, b);
      SameLeft(Ids(plan.inputs[a..b]), Attached(s.rows, plan.Home()), s.rows.Keys, Ids(plan.inputs[p..j]));
    }
  }

  lemma SameLeft(all: set<string>, known: set<string>, keys: set<string>, more: set<string>)
    requires known <= keys && forall e :: e in all && e in keys ==> e in known
    ensures all - (known + more) == all - (keys + more)
  {
  }

  // One batch.

  lemma AddOneLinks(s: Store, id: nat, known: set<string>, batch: set<string>, input: Input)
    requires id < |s.threads|
    ensures var rows := AddOne(s, id, known, batch, input).rows;
      && (forall e :: e in s.rows ==>
        e in rows && rows[e].parents == s.rows[e].parents && rows[e].threads == s.rows[e].threads)
      && (Id(input) !in s.rows ==>
        && Id(input) in rows && rows[Id(input)].threads == {id}
        && rows[Id(input)].parents == ParentsOf(known, batch, input))
  {
    hide ParentsOf;
  }

  /** A batch leaves the links and threads of rows that are there alone, ... */
  lemma {:induction false} AddAllKeepsLinks(
      s: Store, id: nat, attached: set<string>, batch: set<string>, memories: seq<Input>, e: string)
    requires id < |s.threads| && e in s.rows
    ensures var rows := AddAll(s, id, attached, batch, memories).rows;
      e in rows && rows[e].parents == s.rows[e].parents && rows[e].threads == s.rows[e].threads
  {
    if memories != [] {
      hide AddOne;
      var n := |memories| - 1;
      AddAllKeepsLinks(s, id, attached, batch, memories[..n], e);
      AddOneLinks(AddAll(s, id, attached, batch, memories[..n]), id, attached + Ids(memories[..n]), batch, memories[n]);
    }
  }

  /** ... and inserts a new row with the links that item `i` resolves to. */
  lemma {:induction false} AddAllInserts(
      s: Store, id: nat, attached: set<string>, batch: set<string>, memories: seq<Input>, i: nat)
    requires id < |s.threads| && i < |memories| && Id(memories[i]) !in s.rows
    requires Id(memories[i]) !in Ids(memories[..i])
    ensures var rows, e := AddAll(s, id, attached, batch, memories).rows, Id(memories[i]);
      && e in rows && rows[e].threads == {id}
      && rows[e].parents == ParentsOf(attached + Ids(memories[..i]), batch, memories[i])
  {
    hide AddOne, AddAll, ParentsOf;
    var n := |memories| - 1;
    AddAllLast(s, id, attached, batch, memories);
    AddOneLinks(AddAll(s, id, attached, batch, memories[..n]), id, attached + Ids(memories[..n]), batch, memories[n]);
    if i < n {
      assert memories[..n][i] == memories[i] && memories[..n][..i] == memories[..i];
      AddAllInserts(s, id, attached, batch, memories[..n], i);
    } else {
      AddAllKeys(s, id, attached, batch, memories[..n]);
    }
  }

  lemma DistinctThere(inputs: seq<Input>, a: nat, b: nat)
    requires a <= b <= |inputs| && Distinct(inputs[a..b])
    ensures forall i, j :: a <= i < j < b ==> Id(inputs[i]) != Id(inputs[j])
  {
    forall i, j | a <= i < j < b ensures Id(inputs[i]) != Id(inputs[j]) {
      assert inputs[a..b][i - a] == inputs[i] && inputs[a..b][j - a] == inputs[j];
    }
  }

  /** Whoever is new in a batch of the session comes with its first input. */
  lemma NewIsFirst(plan: Plan, s: Store, p: nat, a: nat, j: nat, b: nat)
    requires Reached(plan, s, p) && a <= p && a <= j < b <= |plan.inputs| && Distinct(plan.inputs[a..b])
    requires Id(plan.inputs[j]) !in s.rows
    ensures Id(plan.inputs[j]) !in plan.base.rows && p <= j && First(plan.inputs, Id(plan.inputs[j])) == j
  {
    hide AddAll, ThreadsFor, LabelsFit, KeptOutside;
    var e, at := Id(plan.inputs[j]), plan.inputs[..p];
    AtRows(plan, p);
    AddAllKeys(plan.Ready(), plan.Home(), {}, {}, at);
    forall i | 0 <= i < p ensures Id(plan.inputs[i]) != e {
      assert Id(at[i]) in Ids(at);
    }
    DistinctThere(plan.inputs, a, b);
  }

  /** Input `j` inserts its row with the list the claim is about. */
  lemma InsertsAsClaimed(plan: Plan, claim: Claim, s: Store, p: nat, a: nat, j: nat, b: nat, ready: Store)
    requires Reached(plan, s, p) && a <= p && a <= j < b <= |plan.inputs| && Distinct(plan.inputs[a..b])
    requires AllOurs(plan, s, a, b) && ready.rows == s.rows && plan.Home() < |ready.threads|
    requires |claim.together| == |plan.inputs| && claim.together[j] == Ids(plan.inputs[a..b])
    requires Id(plan.inputs[j]) == claim.e && claim.e !in s.rows
    ensures var memories := plan.inputs[a..b];
      var rows := AddAll(ready, plan.Home(), Attached(ready.rows, plan.Home()), Ids(memories), memories).rows;
      && claim.e in rows && rows[claim.e].threads == {plan.Home()}
      && rows[claim.e].parents == Inserted(plan, claim.e, claim.together)
      && First(plan.inputs, claim.e) == j && claim.e !in plan.base.rows
  {
    hide AddAll, Alike, LabelsFit, KeptOutside, Known, ThreadsFor, Reached, AllOurs;
    var id, memories := plan.Home(), plan.inputs[a..b];
    var i := j - a;
    assert memories[i] == plan.inputs[j] && memories[..i] == plan.inputs[a..j];
    DistinctThere(plan.inputs, a, b);
    AddAllInserts(ready, id, Attached(ready.rows, id), Ids(memories), memories, i);
    NewIsFirst(plan, s, p, a, j, b);
    KnownHere(plan, s, p, a, j, b);
  }

  /** A batch of the session leaves row `e` as claimed. */
  lemma CommitFits(plan: Plan, claim: Claim, s: Store, p: nat, a: nat, b: nat, ready: Store)
    requires Reached(plan, s, p) && a <= p && a <= b <= |plan.inputs| && Distinct(plan.inputs[a..b])
    requires AllOurs(plan, s, a, b) && ready.rows == s.rows && plan.Home() < |ready.threads|
    requires |claim.together| == |plan.inputs|
    requires forall j :: a <= j < b ==> claim.together[j] == Ids(plan.inputs[a..b])
    requires LinksFit(plan, claim, s)
    ensures var memories := plan.inputs[a..b];
      LinksFit(plan, claim, AddAll(ready, plan.Home(), Attached(ready.rows, plan.Home()), Ids(memories), memories))
  {
    hide AddAll, ThreadsFor, Reached, AllOurs, Inserted;
    var id, e, memories := plan.Home(), claim.e, plan.inputs[a..b];
    if e in s.rows {
      AddAllKeepsLinks(ready, id, Attached(ready.rows, id), Ids(memories), memories, e);
    } else if e in Ids(memories) {
      var i :| 0 <= i < |memories| && Id(memories[i]) == e;
      InsertsAsClaimed(plan, claim, s, p, a, a + i, b, ready);
    } else {
      AddAllKeys(ready, id, Attached(ready.rows, id), Ids(memories), memories);
    }
  }

  // What the answer to a batch leads to.

  ghost predicate HasJob(jobs: seq<Request>, e: string) {
    exists k :: 0 <= k < |jobs| && TargetRow(jobs[k]) == e
  }

  lemma {:induction false} JobIsOfOutcome(id: nat, outcomes: seq<Outcome>, job: Request) returns (k: nat)
    requires job in JobsOf(id, outcomes)
    ensures k < |outcomes| && NeedsRewire(outcomes[k])
    ensures job == UpdateMemoryParents(id, outcomes[k].memoryId.value, outcomes[k].resolvedParentIds)
  {
    var n := |outcomes| - 1;
    if job in JobsOf(id, outcomes[..n]) {
      k := JobIsOfOutcome(id, outcomes[..n], job);
    } else {
      k := n;
    }
  }

  lemma {:induction false} OutcomeHasJob(id: nat, outcomes: seq<Outcome>, k: nat)
    requires k < |outcomes| && NeedsRewire(outcomes[k])
    ensures HasJob(JobsOf(id, outcomes), outcomes[k].memoryId.value)
  {
    var n := |outcomes| - 1;
    var jobs := JobsOf(id, outcomes);
    if k < n {
      OutcomeHasJob(id, outcomes[..n], k);
      var before := JobsOf(id, outcomes[..n]);
      var i :| 0 <= i < |before| && TargetRow(before[i]) == outcomes[k].memoryId.value;
      assert jobs[i] == before[i];
    } else {
      assert TargetRow(jobs[|jobs| - 1]) == outcomes[k].memoryId.value;
    }
  }

  lemma GrownGrows(plan: Plan, q: nat, p: nat)
    requires q <= p <= |plan.inputs|
    ensures Grown(plan, q) <= Grown(plan, p)
    ensures plan.At(q).rows.Keys <= plan.At(p).rows.Keys
  {
    hide AddAll;
    PathKeepsRows(plan, q, p);
  }

  /** A batch of the session, about to be taken by a store that is at `p`. */
  ghost predicate Arrives(plan: Plan, claim: Claim, s: Store, p: nat, a: nat, b: nat) {
    && a <= p <= |plan.inputs| && a <= b <= |plan.inputs| && Distinct(plan.inputs[a..b]) && (claim.exact ==> p == a)
    && Reached(plan, s, p) && AllOurs(plan, s, a, b)
    && Sound(plan, claim) && Filled(claim, s, a)
    && forall j :: a <= j < b ==> claim.together[j] == Ids(plan.inputs[a..b])
  }

  /** Drawn from input `j`, an update for the row fills it as claimed. */
  lemma OutcomeFits(plan: Plan, claim: Claim, s: Store, p: nat, a: nat, j: nat, b: nat)
    requires Arrives(plan, claim, s, p, a, b) && a <= j < b && Id(plan.inputs[j]) == claim.e
    requires Open(plan, claim.e) && Inserted(plan, claim.e, claim.together) == []
    requires claim.e in s.rows && s.rows[claim.e].parents == []
    ensures var known := Attached(s.rows, plan.Home()) + Ids(plan.inputs[a..j]);
      var resolved := Known(known, plan.inputs[j].parentExternalIds);
      resolved != [] ==> resolved in claim.ok
  {
    hide AddAll, LabelsFit, KeptOutside, ThreadsFor, AllOurs, Known, Open, Inserted;
    var m := if p <= j then j else p;
    KnownHere(plan, s, p, a, j, b);
    DistinctThere(plan.inputs, a, b);
    if claim.exact {
      GrownGrows(plan, p, j);
    }
    assert Known(Grown(plan, m), plan.inputs[j].parentExternalIds) != [] ==> MayFill(plan, claim, j, m);
  }

  /** When the row is due by this batch, the batch fills it or answers with an update that does. */
  lemma DueHasOutcome(plan: Plan, claim: Claim, s: Store, p: nat, a: nat, b: nat)
    requires Arrives(plan, claim, s, p, a, b) && a <= claim.due < b
    requires claim.e in s.rows && s.rows[claim.e].parents == []
    ensures var known := Attached(s.rows, plan.Home()) + Ids(plan.inputs[a..claim.due]);
      Known(known, plan.inputs[claim.due].parentExternalIds) != []
  {
    hide AddAll, LabelsFit, KeptOutside, ThreadsFor, AllOurs, Open, Inserted, Reached;
    var m := if p <= claim.due then claim.due else p;
    KnownHere(plan, s, p, a, claim.due, b);
    GrownGrows(plan, claim.due, m);
    var refs := plan.inputs[claim.due].parentExternalIds;
    assert Known(Grown(plan, claim.due), refs)[0] in Known(Grown(plan, m), refs);
  }

  /** The updates the answer leads to fill the row as claimed, if they fill it. */
  lemma JobsFit(plan: Plan, claim: Claim, s: Store, p: nat, a: nat, b: nat, job: Request)
    requires Arrives(plan, claim, s, p, a, b)
    requires var memories := plan.inputs[a..b];
      job in JobsOf(plan.Home(), Outcomes(s.rows, Attached(s.rows, plan.Home()), memories))
    ensures JobFits(plan, claim, job)
  {
    hide Arrives, Known, Open, Inserted, JobsOf, Attached, Ids;
    ArrivesWithin(plan, claim, s, p, a, b);
    var memories := plan.inputs[a..b];
    var outcomes := Outcomes(s.rows, Attached(s.rows, plan.Home()), memories);
    var k := JobIsOfOutcome(plan.Home(), outcomes, job);
    if job.memoryId == claim.e && Open(plan, claim.e) && Inserted(plan, claim.e, claim.together) == [] {
      assert memories[k] == plan.inputs[a + k] && memories[..k] == plan.inputs[a..a + k];
      OutcomeFits(plan, claim, s, p, a, a + k, b);
    }
  }

  lemma ArrivesWithin(plan: Plan, claim: Claim, s: Store, p: nat, a: nat, b: nat)
    requires Arrives(plan, claim, s, p, a, b)
    ensures a <= b <= |plan.inputs| && |claim.together| == |plan.inputs|
  {
    hide Reached;
  }

  /** Past the batch the row is filled if due, but for an update the answer leads to. */
  lemma DueOrJob(plan: Plan, claim: Claim, s: Store, p: nat, a: nat, b: nat, ready: Store)
    requires Arrives(plan, claim, s, p, a, b) && ready.rows == s.rows && plan.Home() < |ready.threads|
    ensures var memories, known := plan.inputs[a..b], Attached(s.rows, plan.Home());
      || Filled(claim, AddAll(ready, plan.Home(), Attached(ready.rows, plan.Home()), Ids(memories), memories), b)
      || HasJob(JobsOf(plan.Home(), Outcomes(s.rows, known, memories)), claim.e)
  {
    hide AddAll, Known, Open, JobsOf, Attached, Reached, AllOurs, Grown, Ids;
    var id, e, memories := plan.Home(), claim.e, plan.inputs[a..b];
    var known := Attached(s.rows, id);
    if e in s.rows {
      AddAllKeepsLinks(ready, id, Attached(ready.rows, id), Ids(memories), memories, e);
    }
    if a <= claim.due < b {
      var i := claim.due - a;
      assert memories[i] == plan.inputs[claim.due] && memories[..i] == plan.inputs[a..claim.due];
      if e !in s.rows {
        InsertsAsClaimed(plan, claim, s, p, a, claim.due, b, ready);
      } else if s.rows[e].parents == [] {
        DueHasOutcome(plan, claim, s, p, a, b);
        OutcomeHasJob(id, Outcomes(s.rows, known, memories), i);
      }
    }
  }

  /** A batch of the session, inputs `a..b`, whose ids the claim knows to travel together. */
  ghost predicate Claimed(plan: Plan, claim: Claim, batch: Batch, a: nat, b: nat) {
    && Ours(plan, batch, a, b) && Sound(plan, claim)
    && forall j :: a <= j < b ==> claim.together[j] == Ids(plan.inputs[a..b])
  }

  /** What the client holds of row `e` when inputs before `b` are taken: filled, or about to be. */
  ghost predicate Answered(plan: Plan, claim: Claim, s: Store, jobs: seq<Request>, b: nat)
    requires |claim.together| == |plan.inputs|
  {
    && (forall k :: 0 <= k < |jobs| ==> JobFits(plan, claim, jobs[k]))
    && (Filled(claim, s, b) || HasJob(jobs, claim.e))
  }

  lemma AdmittedIsOurs(plan: Plan, s: Store, batch: Batch, a: nat, b: nat)
    requires Ours(plan, batch, a, b) && Admit(s, batch).Ok? && Admit(s, batch).value.1 == plan.Home()
    ensures AllOurs(plan, s, a, b)
  {
    forall e | e in Ids(plan.inputs[a..b]) && e in s.rows ensures InThread(s, plan.Home(), e) {
      var k :| 0 <= k < b - a && Id(plan.inputs[a..b][k]) == e;
      assert RowCollision(s.rows, plan.Home(), true, batch.memories[k]).None?;
    }
  }

  /** The server takes, or refuses, a batch of the session. */
  lemma BatchLinks(plan: Plan, claim: Claim, s: Store, p: nat, batch: Batch, a: nat, b: nat)
    requires plan.Unambiguous() && Reached(plan, s, p) && a <= p && (claim.exact ==> p == a)
    requires Claimed(plan, claim, batch, a, b) && LinksFit(plan, claim, s) && Filled(claim, s, a)
    ensures var (s', reply) := AddBatch(s, batch);
      && LinksFit(plan, claim, s') && Filled(claim, s', a)
      && (reply.Ok? && !reply.value.reply.suppressed ==>
          Answered(plan, claim, s', JobsOf(plan.Home(), reply.value.reply.outcomes), b))
  {
    hide AddAll, ThreadsFor, Known, Open, JobsOf, Attached, AllOurs, Inserted, Ids, Reached, Outcomes, ResolveTarget,
         FirstCollision, JobFits, HasJob;
    if !Malformed(batch.memories) && !Suppressed(s, batch) && Admit(s, batch).Ok? {
      Resolves(plan, s, p, batch, a, b);
      var (ready, id, _) := Admit(s, batch).value;
      AdmittedIsOurs(plan, s, batch, a, b);
      ReachedPlace(plan, s, p);
      assert Arrives(plan, claim, s, p, a, b);
      CommitFits(plan, claim, s, p, a, b, ready);
      DueOrJob(plan, claim, s, p, a, b, ready);
      if claim.e in s.rows {
        AddAllKeepsLinks(ready, id, Attached(ready.rows, id), Ids(batch.memories), batch.memories, claim.e);
      }
      var jobs := JobsOf(id, Outcomes(s.rows, Attached(s.rows, id), batch.memories));
      forall k | 0 <= k < |jobs| ensures JobFits(plan, claim, jobs[k]) {
        JobsFit(plan, claim, s, p, a, b, jobs[k]);
      }
    }
  }

  // The updates.

  ghost predicate HasLinks(s: Store, e: string) {
    e in s.rows && s.rows[e].parents != []
  }

  /** One ready update, taken by the server. */
  lemma JobLinks(plan: Plan, claim: Claim, s: Store, id: nat, job: Request)
    requires id < |s.threads| && JobReady(s, id, job)
    requires |claim.together| == |plan.inputs| && JobFits(plan, claim, job) && LinksFit(plan, claim, s)
    ensures var s' := Serve(s, job).0;
      && LinksFit(plan, claim, s') && (HasLinks(s, claim.e) ==> HasLinks(s', claim.e))
      && (TargetRow(job) == claim.e && Open(plan, claim.e) ==> HasLinks(s', claim.e))
  {
    hide Serve, Inserted;
    JobEffect(s, id, job);
  }

  lemma {:induction false} JobAttemptsLinks(
      plan: Plan, claim: Claim, s: Store, fates: seq<Fate>, id: nat, job: Request, n: nat)
    requires id < |s.threads| && JobReady(s, id, job)
    requires |claim.together| == |plan.inputs| && JobFits(plan, claim, job) && LinksFit(plan, claim, s)
    ensures var s' := StoreAfter(s, fates, job, n);
      LinksFit(plan, claim, s') && (HasLinks(s, claim.e) ==> HasLinks(s', claim.e))
  {
    hide Serve, JobReady, JobFits, LinksFit, HasLinks, ParentsAside;
    if n > 0 {
      var before := StoreAfter(s, fates, job, n - 1);
      JobAttemptsLinks(plan, claim, s, fates, id, job, n - 1);
      JobAttemptsAside(s, fates, id, job, n - 1);
      AsideReady(s, before, id, job);
      JobLinks(plan, claim, before, id, job);
    }
  }

  /** One update with its retries. */
  lemma InvokeJobLinks(plan: Plan, claim: Claim, cfg: Config, st: State, id: nat, job: Request)
    requires Live(cfg) && Honest(st.world) && id < |st.world.store.threads| && JobReady(st.world.store, id, job)
    requires |claim.together| == |plan.inputs| && JobFits(plan, claim, job) && LinksFit(plan, claim, st.world.store)
    ensures var (r, reply) := Invoke(cfg, st, job);
      && LinksFit(plan, claim, r.world.store)
      && (HasLinks(st.world.store, claim.e) ==> HasLinks(r.world.store, claim.e))
      && (reply.Ok? && TargetRow(job) == claim.e && Open(plan, claim.e) ==> HasLinks(r.world.store, claim.e))
  {
    hide Serve, JobReady, JobFits, LinksFit, HasLinks, ParentsAside, CallsMade, Honest, Open, StoreAfter, Attempt,
         TargetRow;
    var policy :| cfg.client == LiveClient(policy);
    var s, fates := st.world.store, st.world.fates;
    var n := CallsMade(policy, Answering(s, fates, job), 1);
    RpcHonest(policy, st.world, job);
    JobAttemptsLinks(plan, claim, s, fates, id, job, n);
    JobAttemptsLinks(plan, claim, s, fates, id, job, n - 1);
    JobAttemptsAside(s, fates, id, job, n - 1);
    AsideReady(s, StoreAfter(s, fates, job, n - 1), id, job);
    JobLinks(plan, claim, StoreAfter(s, fates, job, n - 1), id, job);
  }

  lemma {:induction false} RunJobsLinks(
      plan: Plan, claim: Claim, cfg: Config, st: State, id: nat, jobs: seq<Request>, order: seq<nat>)
    requires Live(cfg) && Honest(st.world) && Ready(st.world.store, id, jobs)
    requires forall k :: 0 <= k < |order| ==> order[k] < |jobs|
    requires |claim.together| == |plan.inputs| && LinksFit(plan, claim, st.world.store)
    requires forall k :: 0 <= k < |jobs| ==> JobFits(plan, claim, jobs[k])
    ensures var r := RunJobs(cfg, st, jobs, order);
      && LinksFit(plan, claim, r.world.store)
      && (HasLinks(st.world.store, claim.e) ==> HasLinks(r.world.store, claim.e))
      && forall i :: 0 <= i < |order| && TargetRow(jobs[order[i]]) == claim.e && Open(plan, claim.e) ==>
           (r.log[|st.log| + i].reply.Ok? ==> HasLinks(r.world.store, claim.e))
  {
    hide JobReady, Serve, Honest, Rpc, LiveClient, JobFits, LinksFit, HasLinks, Open, Live, ParentsAside, Invoke,
         TargetRow;
    if order != [] {
      var n := |order| - 1;
      var before, k := RunJobs(cfg, st, jobs, order[..n]), order[n];
      RunJobsLinks(plan, claim, cfg, st, id, jobs, order[..n]);
      RunJobsAside(cfg, st, id, jobs, order[..n]);
      AsideReady(st.world.store, before.world.store, id, jobs[k]);
      InvokeJobLinks(plan, claim, cfg, before, id, jobs[k]);
    }
  }

  lemma {:induction false} AllCompleted(replies: seq<Reply>)
    requires CountRewired(replies).1
    ensures forall k :: 0 <= k < |replies| ==> replies[k].Ok?
  {
    if replies != [] {
      AllCompleted(replies[..|replies| - 1]);
    }
  }

  /** A pass that does not stop the run got each of its updates through, ... */
  lemma GotThrough(ran: State, from: nat, done: seq<nat>, n: nat, i: nat)
    requires |ran.log| == from + n && IsPermutation(done, n) && i < n
    requires !Stopped(Settle(ran, from, done).result)
    ensures ran.log[from + i].reply.Ok?
  {
    AllCompleted(RepliesIn(ran.log, from, done));
    assert i in done;
    var d :| 0 <= d < |done| && done[d] == i;
    assert RepliesIn(ran.log, from, done)[d].Ok?;
  }

  /** ... so a job for the row did reach it. */
  lemma JobGotThrough(plan: Plan, claim: Claim, st: State, ran: State, jobs: seq<Request>, schedule: Schedule)
    requires |ran.log| == |st.log| + |jobs| && HasJob(jobs, claim.e) && Open(plan, claim.e)
    requires IsPermutation(schedule.exec, |jobs|) && IsPermutation(schedule.done, |jobs|)
    requires !Stopped(Settle(ran, |st.log|, schedule.done).result)
    requires forall i :: 0 <= i < |jobs| && TargetRow(jobs[schedule.exec[i]]) == claim.e ==>
      (ran.log[|st.log| + i].reply.Ok? ==> HasLinks(ran.world.store, claim.e))
    ensures HasLinks(ran.world.store, claim.e)
  {
    hide Settle, TargetRow;
    var k :| 0 <= k < |jobs| && TargetRow(jobs[k]) == claim.e;
    assert k in schedule.exec;
    var i :| 0 <= i < |schedule.exec| && schedule.exec[i] == k;
    GotThrough(ran, |st.log|, schedule.done, |jobs|, i);
  }

  /** The rewire pass fills the row as claimed, and does fill it if it is to go on. */
  lemma RewirePassLinks(plan: Plan, claim: Claim, cfg: Config, st: State, outcomes: seq<Outcome>, id: nat, b: nat)
    requires Live(cfg) && Honest(st.world) && Ready(st.world.store, id, JobsOf(id, outcomes))
    requires Sound(plan, claim) && b <= |plan.inputs| && LinksFit(plan, claim, st.world.store)
    requires Answered(plan, claim, st.world.store, JobsOf(id, outcomes), b)
    ensures var r := RewirePass(cfg, st, outcomes, id);
      && LinksFit(plan, claim, r.world.store)
      && (!Stopped(r.result) ==> Filled(claim, r.world.store, b))
  {
    hide JobsOf, RunJobs, Settle, Ready, CountOutcomes, NextSchedule, JobFits, LinksFit, Inserted, Known, Open, Live,
         MayFill, Grown, HasJob, TargetRow;
    var jobs := JobsOf(id, outcomes);
    var (schedule, world) := NextSchedule(st.world, |jobs|);
    SchedulesPermute(st.world, |jobs|);
    CountingKeeps(st, outcomes);
    var counted := CountOutcomes(st, outcomes).(world := world);
    RunJobsLinks(plan, claim, cfg, counted, id, jobs, schedule.exec);
    var ran := RunJobs(cfg, counted, jobs, schedule.exec);
    SettleKeepsWorld(ran, |st.log|, schedule.done);
    if !Stopped(Settle(ran, |st.log|, schedule.done).result) && HasJob(jobs, claim.e) && claim.due < b {
      JobGotThrough(plan, claim, counted, ran, jobs, schedule);
    }
  }

  lemma SettleKeepsWorld(ran: State, from: nat, done: seq<nat>)
    requires forall k :: 0 <= k < |done| ==> from + done[k] < |ran.log|
    ensures Settle(ran, from, done).world == ran.world
  {
  }

  // One run.

  /** The store is on the path, `k` or further along; in an exact run it is at `k`, and nothing gets lost. */
  ghost predicate Stands(plan: Plan, claim: Claim, w: World, k: nat) {
    && k <= |plan.inputs|
    && if claim.exact then w.fates == [] && Reached(plan, w.store, k) else Honest(w) && OnPath(plan, w.store, k)
  }

  /** With the inputs before `k` dealt with, the row is as claimed. */
  ghost predicate Follows(plan: Plan, claim: Claim, w: World, k: nat) {
    && Sound(plan, claim) && Stands(plan, claim, w, k)
    && LinksFit(plan, claim, w.store) && Filled(claim, w.store, k)
  }

  lemma {:induction false} AttemptsLinks(
      plan: Plan, claim: Claim, s: Store, fates: seq<Fate>, batch: Batch, a: nat, b: nat, n: nat)
    requires plan.Unambiguous() && OnPath(plan, s, a) && !claim.exact
    requires Claimed(plan, claim, batch, a, b) && LinksFit(plan, claim, s) && Filled(claim, s, a)
    ensures var s' := StoreAfter(s, fates, AddMemoriesBatch(batch), n);
      LinksFit(plan, claim, s') && Filled(claim, s', a)
  {
    hide Reached, KeptOutside, AddBatch, Claimed, LinksFit, Filled, Answered;
    if n > 0 {
      AttemptsLinks(plan, claim, s, fates, batch, a, b, n - 1);
      var before := StoreAfter(s, fates, AddMemoriesBatch(batch), n - 1);
      ClaimedIsOurs(plan, claim, batch, a, b);
      AttemptsKeepPath(plan, s, fates, batch, a, b, n - 1);
      var p :| a <= p && Reached(plan, before, p);
      BatchLinks(plan, claim, before, p, batch, a, b);
    }
  }

  lemma ClaimedIsOurs(plan: Plan, claim: Claim, batch: Batch, a: nat, b: nat)
    requires Claimed(plan, claim, batch, a, b)
    ensures Ours(plan, batch, a, b) && a <= b <= |plan.inputs| && |claim.together| == |plan.inputs|
  {
    hide MayFill, Known, Inserted, Open;
  }

  /** What a taken batch's answer leaves to do, and the store it leaves to do it on. */
  ghost predicate Received(plan: Plan, claim: Claim, w: World, reply: BatchReply, b: nat) {
    && Sound(plan, claim) && Stands(plan, claim, w, b) && LinksFit(plan, claim, w.store)
    && reply.threadId == Some(plan.Home())
    && Ready(w.store, plan.Home(), JobsOf(plan.Home(), reply.outcomes))
    && Answered(plan, claim, w.store, JobsOf(plan.Home(), reply.outcomes), b)
  }

  /** One batch with its retries, over any honest network, ... */
  lemma BatchFollows(plan: Plan, claim: Claim, cfg: Config, st: State, batch: Batch, a: nat, b: nat)
    requires Live(cfg) && plan.Unambiguous() && !claim.exact
    requires Follows(plan, claim, st.world, a) && Claimed(plan, claim, batch, a, b)
    ensures var (r, reply) := Invoke(cfg, st, AddMemoriesBatch(batch));
      && Honest(r.world) && OnPath(plan, r.world.store, 0) && LinksFit(plan, claim, r.world.store)
      && (reply.Ok? && !reply.value.reply.suppressed ==> Received(plan, claim, r.world, reply.value.reply, b))
  {
    hide Reached, KeptOutside, Written, AddBatch, Claimed, LinksFit, Filled, Answered, Sound, Honest, CallsMade,
         Labelled,
         Ready, JobsOf;
    var policy :| cfg.client == LiveClient(policy);
    var s, fates, request := st.world.store, st.world.fates, AddMemoriesBatch(batch);
    var n := CallsMade(policy, Answering(s, fates, request), 1);
    ClaimedIsOurs(plan, claim, batch, a, b);
    BatchSent(plan, policy, st.world, batch, a, b);
    PathFrom(plan, Rpc(policy, st.world, request).0.store, a, 0);
    AttemptsLinks(plan, claim, s, fates, batch, a, b, n);
    RpcHonest(policy, st.world, request);
    var (r, reply) := Invoke(cfg, st, request);
    if reply.Ok? && !reply.value.reply.suppressed {
      var before := BeforeLast(policy, st.world, request);
      AttemptsLinks(plan, claim, s, fates, batch, a, b, n - 1);
      AttemptsKeepPath(plan, s, fates, batch, a, b, n - 1);
      var p :| a <= p && Reached(plan, before, p);
      BatchLinks(plan, claim, before, p, batch, a, b);
      assert Serve(before, request) == AddBatch(before, batch);
    }
  }

  /** ... and delivered once, exactly in its turn. */
  lemma ExactBatchFollows(plan: Plan, claim: Claim, cfg: Config, st: State, batch: Batch, a: nat, b: nat)
    requires Live(cfg) && plan.Unambiguous() && claim.exact && a < b
    requires Follows(plan, claim, st.world, a) && Claimed(plan, claim, batch, a, b)
    ensures var (r, reply) := Invoke(cfg, st, AddMemoriesBatch(batch));
      reply.Ok? && !reply.value.reply.suppressed ==> Received(plan, claim, r.world, reply.value.reply, b)
  {
    hide Reached, KeptOutside, Written, AddBatch, Claimed, LinksFit, Filled, Answered, Sound, Labelled, Ready, JobsOf,
         Rpc;
    var policy :| cfg.client == LiveClient(policy);
    var s, request := st.world.store, AddMemoriesBatch(batch);
    ClaimedIsOurs(plan, claim, batch, a, b);
    assert Serve(s, request) == AddBatch(s, batch);
    if AddBatch(s, batch).1.Err? {
      RefusalStays(s, request);
      InvokeIdle(cfg, st, request);
    } else {
      InvokeDelivered(cfg, policy, st, request);
      if !AddBatch(s, batch).1.value.reply.suppressed {
        BatchLinks(plan, claim, s, a, batch, a, b);
        ServeKeepsPath(plan, s, a, batch, a, b);
        GenuineAnswer(s, batch);
      }
    }
  }

  /** The answer dealt with. */
  lemma ReceiveLinks(plan: Plan, claim: Claim, cfg: Config, st: State, sent: nat, reply: BatchReply, b: nat)
    requires Live(cfg) && !reply.suppressed && Received(plan, claim, st.world, reply, b)
    ensures var r := Receive(cfg, st, sent, reply);
      LinksFit(plan, claim, r.world.store) && (!Stopped(r.result) ==> Follows(plan, claim, r.world, b))
  {
    hide Reached, OnPath, LinksFit, Answered, Sound, Filled, Ready, JobsOf, RewirePass, LiveClient, Linked, Rewires,
         CountIf;
    var id := plan.Home();
    var (announced, fine) := Announce(cfg, st, id, reply.threadCreated);
    var pinned := announced.(current := Some(id));
    RewirePassLinks(plan, claim, cfg, pinned, reply.outcomes, id, b);
    RewirePassAside(cfg, pinned, reply.outcomes, id);
    var rewired := RewirePass(cfg, pinned, reply.outcomes, id);
    AsideStays(plan, st.world.store, rewired.world.store, b, [], {});
    if claim.exact {
      var policy :| cfg.client == LiveClient(policy);
      RewirePassConfluent(cfg, policy, pinned, reply.outcomes, id);
      SchedulesPermute(pinned.world, |JobsOf(id, reply.outcomes)|);
      AsideReached(plan, st.world.store, rewired.world.store, b);
    }
  }

  /** One flush. */
  lemma {:induction false} FlushLinks(
      plan: Plan, claim: Claim, cfg: Config, st: State, chunk: seq<Prepared>, isLast: bool, k: nat)
    requires Live(cfg) && !IsOpenCode(cfg) && PlanFor(plan, cfg) && plan.Unambiguous()
    requires Progress(plan, st, k) && Follows(plan, claim, st.world, k) && chunk != []
    requires k + |chunk| <= |plan.inputs|
    requires InputsOf(StableSort(chunk, PreparedKey)) == plan.inputs[k..k + |chunk|]
    requires forall j :: k <= j < k + |chunk| ==> claim.together[j] == Ids(plan.inputs[k..k + |chunk|])
    ensures var r := Flush(cfg, st, chunk, isLast);
      && (!claim.exact ==> LinksFit(plan, claim, r.world.store))
      && (!Stopped(r.result) ==> Follows(plan, claim, r.world, k + |chunk|))
  {
    hide OnPath, Reached, Written, Ours, Honest, Invoke, Receive, StableSort, BatchOf, InputsOf, IsOpenCode, PlanFor,
         Live, Flush, LinksFit, Filled, Sound, Ids, Received, Stands;
    var inputs, b := InputsOf(StableSort(chunk, PreparedKey)), k + |chunk|;
    var batch := BatchOf(cfg, st.current, inputs, isLast);
    BatchIsOurs(plan, cfg, st, inputs, isLast, k);
    FlushUnfold(cfg, st, chunk, isLast, batch);
    if claim.exact {
      ExactBatchFollows(plan, claim, cfg, st, batch, k, b);
    } else {
      BatchFollows(plan, claim, cfg, st, batch, k, b);
    }
    var (sent, reply) := Invoke(cfg, st, AddMemoriesBatch(batch));
    if reply.Ok? {
      if reply.value.reply.suppressed {
        SuppressedKeeps(cfg, sent, |chunk|, reply.value.reply);
      } else {
        ReceiveLinks(plan, claim, cfg, sent, |chunk|, reply.value.reply, b);
      }
    }
  }

  lemma SuppressedKeeps(cfg: Config, st: State, sent: nat, reply: BatchReply)
    requires reply.suppressed
    ensures var r := Receive(cfg, st, sent, reply); Stopped(r.result) && r.world == st.world
  {
  }

  /** Of each input sent, the ids its batch carries. */
  ghost function FlatIds(ps: seq<Prepared>, ranges: seq<Range>): (ids: seq<set<string>>)
    requires forall k :: 0 <= k < |ranges| ==> ranges[k].lo <= ranges[k].hi <= |ps|
    ensures |ids| == |Flat(ps, ranges)|
    decreases |ranges|
  {
    if ranges == [] then []
    else
      var inputs := InputsOf(StableSort(ps[ranges[0].lo..ranges[0].hi], PreparedKey));
      seq(|inputs|, (i: nat) => Ids(inputs)) + FlatIds(ps, ranges[1..])
  }

  lemma {:induction false} FlatIdsHead(ps: seq<Prepared>, ranges: seq<Range>, ids: seq<set<string>>)
    requires forall i :: 0 <= i < |ranges| ==> ranges[i].lo < ranges[i].hi <= |ps|
    requires ranges != [] && ids == FlatIds(ps, ranges)
    ensures var chunk := ps[ranges[0].lo..ranges[0].hi];
      && |chunk| <= |ids|
      && (forall j :: 0 <= j < |chunk| ==> ids[j] == Ids(InputsOf(StableSort(chunk, PreparedKey))))
      && ids[|chunk|..] == FlatIds(ps, ranges[1..])
  {
    hide StableSort, Ids;
  }

  /** The remaining chunks. */
  lemma {:induction false} SendAllLinks(
      plan: Plan, claim: Claim, cfg: Config, st: State, ps: seq<Prepared>, ranges: seq<Range>, k: nat)
    requires Live(cfg) && !IsOpenCode(cfg) && PlanFor(plan, cfg) && plan.Unambiguous()
    requires Honest(st.world) && !Stopped(st.result)
    requires Progress(plan, st, k) && Follows(plan, claim, st.world, k)
    requires forall i :: 0 <= i < |ranges| ==> ranges[i].lo < ranges[i].hi <= |ps|
    requires plan.inputs[k..] == Flat(ps, ranges)
    requires |claim.together| == |plan.inputs| && claim.together[k..] == FlatIds(ps, ranges)
    ensures var r := SendAll(cfg, st, ps, ranges);
      && (!claim.exact || !Stopped(r.result) ==> LinksFit(plan, claim, r.world.store))
      && (!Stopped(r.result) ==> Filled(claim, r.world.store, |plan.inputs|))
    decreases |ranges|
  {
    hide OnPath, Written, Labelled, Honest, Flush, StableSort, IsOpenCode, PlanFor, Live, InputsOf, LinksFit, Filled,
         Sound, Stands, Ids;
    if ranges == [] {
      assert k == |plan.inputs|;
    } else {
      var chunk := ps[ranges[0].lo..ranges[0].hi];
      var b := k + |chunk|;
      FlatHead(ps, ranges, plan.inputs[k..]);
      FlatIdsHead(ps, ranges, claim.together[k..]);
      assert plan.inputs[k..][..|chunk|] == plan.inputs[k..b] && plan.inputs[k..][|chunk|..] == plan.inputs[b..];
      assert claim.together[k..][|chunk|..] == claim.together[b..];
      assert forall j :: k <= j < b ==> claim.together[j] == claim.together[k..][j - k];
      FlushProgress(plan, cfg, st, chunk, |ranges| == 1, k);
      FlushLinks(plan, claim, cfg, st, chunk, |ranges| == 1, k);
      var sent := Flush(cfg, st, chunk, |ranges| == 1);
      if !Stopped(sent.result) {
        SendAllLinks(plan, claim, cfg, sent, ps, ranges[1..], b);
      }
    }
  }

  ghost function SessionIds(cfg: Config, items: seq<StreamItem>): (ids: seq<set<string>>)
    ensures |ids| == |SessionInputs(cfg, items)|
  {
    var ps := ToSend(cfg, items);
    FlatIds(ps, CutsOf(cfg, cfg.limits, ps, 0, 0))
  }

  /** One run of the session leaves the row as claimed, and filled if it completes past `due`. */
  lemma {:induction false} RunLinks(plan: Plan, claim: Claim, cfg: Config, w: World, items: seq<StreamItem>)
    requires Live(cfg) && !IsOpenCode(cfg) && Honest(w) && ToSend(cfg, items) != []
    requires plan == PlanOf(cfg, plan.base, items) && plan.Unambiguous() && OnPath(plan, w.store, 0)
    requires claim.together == SessionIds(cfg, items) && Follows(plan, claim, w, 0)
    ensures var r := RunStreaming(cfg, w, items, 0);
      && (!claim.exact || !Stopped(r.result) ==> LinksFit(plan, claim, r.world.store))
      && (!Stopped(r.result) ==> Filled(claim, r.world.store, |plan.inputs|))
  {
    hide OnPath, Written, Labelled, Honest, Live, SendAll, AfterSend, CutsOf, RunStreaming, PlanFor, IsOpenCode,
         BuildLabels, LinksFit, Filled, Sound, Stands, Flat, FlatIds;
    var ps := ToSend(cfg, items);
    var ranges, st := CutsOf(cfg, cfg.limits, ps, 0, 0), Start(cfg, w, 0);
    RunSends(cfg, w, items, 0);
    CutsNonEmpty(cfg, ps);
    NothingYet(plan, st);
    assert plan.inputs[0..] == Flat(ps, ranges) && claim.together[0..] == FlatIds(ps, ranges);
    SendAllProgress(plan, cfg, st, ps, ranges, 0);
    SendAllLinks(plan, claim, cfg, st, ps, ranges, 0);
    AfterSendKeepsStore(cfg, SendAll(cfg, st, ps, ranges));
    SameStop(RunStreaming(cfg, w, items, 0), AfterSend(cfg, SendAll(cfg, st, ps, ranges), []));
  }

  lemma FitsAtFirst(plan: Plan, claim: Claim)
    requires Sound(plan, claim)
    ensures LinksFit(plan, claim, plan.base)
  {
  }

  lemma {:induction false} RerunsLinks(
      plan: Plan, claim: Claim, cfg: Config, items: seq<StreamItem>, networks: seq<World>)
    requires Live(cfg) && !IsOpenCode(cfg) && AllHonest(networks) && ToSend(cfg, items) != []
    requires plan == PlanOf(cfg, plan.base, items) && plan.Unambiguous()
    requires claim.together == SessionIds(cfg, items) && Sound(plan, claim) && !claim.exact
    ensures LinksFit(plan, claim, Reruns(cfg, plan.base, items, networks))
  {
    hide OnPath, Live, RunStreaming, IsOpenCode, PlanOf, LinksFit, Sound, ToSend, SessionIds;
    if networks == [] {
      FitsAtFirst(plan, claim);
    } else {
      var n := |networks| - 1;
      var w := networks[n].(store := Reruns(cfg, plan.base, items, networks[..n]));
      RerunsLinks(plan, claim, cfg, items, networks[..n]);
      RerunsOnPath(plan, cfg, items, networks[..n]);
      assert Honest(networks[n]) && Honest(w);
      RunLinks(plan, claim, cfg, w, items);
    }
  }
}
