/**
 The rewire pass: parent updates sent concurrently, reaching the server in any
 order and any number of times, leave the same links and the same count.
 */
module Rewire {
  import opened Wrappers
  import opened Retry
  import opened Canonical
  import opened Store
  import opened Network
  import opened ImportRun

  /** Updates for different rows of one thread, with parents that are all in it. */
  ghost predicate Ready(s: Store, id: nat, jobs: seq<Request>) {
    && id < |s.threads|
    && (forall k :: 0 <= k < |jobs| ==> JobReady(s, id, jobs[k]))
    && (forall j, k :: 0 <= j < k < |jobs| ==> TargetRow(jobs[j]) != TargetRow(jobs[k]))
  }

  ghost predicate JobReady(s: Store, id: nat, job: Request) {
    && job.UpdateMemoryParents? && job.threadId == id && job.parentIds != []
    && InThread(s, id, job.memoryId)
    && forall p :: p in job.parentIds ==> InThread(s, id, p)
  }

  ghost function TargetRow(job: Request): string {
    if job.UpdateMemoryParents? then job.memoryId else ""
  }

  /** Some job of these is for row `e`. */
  ghost predicate Targets(jobs: seq<Request>, ran: set<nat>, e: string) {
    exists k :: k in ran && k < |jobs| && TargetRow(jobs[k]) == e
  }

  /** The row once the jobs in `ran` have run, however often and in whatever order. */
  ghost function LinkedRow(s: Store, jobs: seq<Request>, ran: set<nat>, e: string): Row
    requires e in s.rows
  {
    if Targets(jobs, ran, e) && Rewirable(s.rows, e) then
      var k :| k in ran && k < |jobs| && TargetRow(jobs[k]) == e;
      if jobs[k].UpdateMemoryParents? then s.rows[e].(parents := jobs[k].parentIds) else s.rows[e]
    else s.rows[e]
  }

  ghost function Linked(s: Store, jobs: seq<Request>, ran: set<nat>): Store {
    s.(rows := map e | e in s.rows :: LinkedRow(s, jobs, ran, e))
  }

  /** The server takes the attempts in the given order; a job may be attempted repeatedly. */
  ghost function Attempts(s: Store, jobs: seq<Request>, order: seq<nat>): Store
    requires forall i :: 0 <= i < |order| ==> order[i] < |jobs|
  {
    if order == [] then s
    else Serve(Attempts(s, jobs, order[..|order| - 1]), jobs[order[|order| - 1]]).0
  }

  ghost function Indices(order: seq<nat>): set<nat> {
    set k | k in order
  }

  lemma IndicesSnoc(order: seq<nat>)
    requires order != []
    ensures Indices(order) == Indices(order[..|order| - 1]) + {order[|order| - 1]}
  {
    assert order == order[..|order| - 1] + [order[|order| - 1]];
  }

  lemma {:induction false} ExistingAll(rows: map<string, Row>, es: seq<string>)
    requires forall e :: e in es ==> e in rows
    ensures Existing(rows, es) == es
  {
    if es != [] {
      ExistingAll(rows, es[..|es| - 1]);
    }
  }

  lemma {:induction false} AttachNothing(s: Store, id: nat, es: seq<string>)
    requires id < |s.threads| && forall e :: e in es ==> InThread(s, id, e)
    ensures AttachAll(s, id, es) == s
  {
    if es != [] {
      AttachNothing(s, id, es[..|es| - 1]);
      assert InThread(s, id, es[|es| - 1]);
    }
  }

  /** What one ready job does: fill the parents of its row if both guards let it. */
  lemma JobEffect(s: Store, id: nat, job: Request)
    requires id < |s.threads| && JobReady(s, id, job)
    ensures var e := job.memoryId;
      Serve(s, job) == if Rewirable(s.rows, e)
        then (s.(rows := s.rows[e := s.rows[e].(parents := job.parentIds)]), Ok(ParentsDone(true)))
        else (s, Ok(ParentsDone(false)))
  {
    var e := job.memoryId;
    if Rewirable(s.rows, e) {
      ExistingAll(s.rows, job.parentIds);
      var linked := s.(rows := s.rows[e := s.rows[e].(parents := job.parentIds)]);
      AttachNothing(linked, id, job.parentIds);
    }
  }

  /** The row a job is for, among jobs for different rows. */
  lemma LinkedTarget(s: Store, id: nat, jobs: seq<Request>, ran: set<nat>, k: nat)
    requires Ready(s, id, jobs) && k < |jobs|
    ensures var e := TargetRow(jobs[k]);
      LinkedRow(s, jobs, ran, e)
      == if k in ran && Rewirable(s.rows, e) then s.rows[e].(parents := jobs[k].parentIds) else s.rows[e]
  {
    var e := TargetRow(jobs[k]);
    forall j | j in ran && j < |jobs| && TargetRow(jobs[j]) == e ensures j == k {
    }
  }

  lemma LinkedReady(s: Store, id: nat, jobs: seq<Request>, ran: set<nat>)
    requires Ready(s, id, jobs)
    ensures Ready(Linked(s, jobs, ran), id, jobs)
  {
    var s' := Linked(s, jobs, ran);
    forall e | InThread(s, id, e) ensures InThread(s', id, e) {
      assert LinkedRow(s, jobs, ran, e).threads == s.rows[e].threads;
    }
    forall k | 0 <= k < |jobs| ensures JobReady(s', id, jobs[k]) {
      assert JobReady(s, id, jobs[k]);
    }
  }

  /** One more attempt, first or repeated. */
  lemma LinkedStep(s: Store, id: nat, jobs: seq<Request>, ran: set<nat>, k: nat)
    requires Ready(s, id, jobs) && k < |jobs|
    ensures Serve(Linked(s, jobs, ran), jobs[k])
         == (Linked(s, jobs, ran + {k}), Ok(ParentsDone(k !in ran && Rewirable(s.rows, TargetRow(jobs[k])))))
  {
    hide Serve;
    var s', e := Linked(s, jobs, ran), TargetRow(jobs[k]);
    assert JobReady(s, id, jobs[k]);
    LinkedReady(s, id, jobs, ran);
    assert JobReady(s', id, jobs[k]);
    JobEffect(s', id, jobs[k]);
    LinkedTarget(s, id, jobs, ran, k);
    LinkedTarget(s, id, jobs, ran + {k}, k);
    var next := Linked(s, jobs, ran + {k});
    forall f | f in s.rows && f != e ensures next.rows[f] == s'.rows[f] {
      LinkedElsewhere(s, id, jobs, ran, k, f);
    }
    var served := Serve(s', jobs[k]).0;
    assert served.rows == next.rows;
  }

  lemma LinkedElsewhere(s: Store, id: nat, jobs: seq<Request>, ran: set<nat>, k: nat, f: string)
    requires Ready(s, id, jobs) && k < |jobs| && f in s.rows && f != TargetRow(jobs[k])
    ensures LinkedRow(s, jobs, ran + {k}, f) == LinkedRow(s, jobs, ran, f)
  {
    if Targets(jobs, ran + {k}, f) {
      var j :| j in ran + {k} && j < |jobs| && TargetRow(jobs[j]) == f;
      LinkedTarget(s, id, jobs, ran, j);
      LinkedTarget(s, id, jobs, ran + {k}, j);
    } else {
      assert !Targets(jobs, ran, f);
    }
  }

  lemma LinkedNone(s: Store, jobs: seq<Request>)
    ensures Linked(s, jobs, {}) == s
  {
    assert Linked(s, jobs, {}).rows == s.rows;
  }

  /**
   Whatever the order, and however often each update is resent, the links depend
   only on which updates got through at all.
   */
  lemma {:induction false} AttemptsLink(s: Store, id: nat, jobs: seq<Request>, order: seq<nat>)
    requires Ready(s, id, jobs) && forall i :: 0 <= i < |order| ==> order[i] < |jobs|
    ensures Attempts(s, jobs, order) == Linked(s, jobs, Indices(order))
  {
    if order == [] {
      LinkedNone(s, jobs);
      assert Indices(order) == {};
    } else {
      hide Serve, Linked, Ready, Indices;
      var n := |order| - 1;
      AttemptsLink(s, id, jobs, order[..n]);
      LinkedStep(s, id, jobs, Indices(order[..n]), order[n]);
      IndicesSnoc(order);
    }
  }

  /** Any two ways of getting every update through at least once end in one store. */
  lemma RewireConfluent(s: Store, id: nat, jobs: seq<Request>, order: seq<nat>, order': seq<nat>)
    requires Ready(s, id, jobs)
    requires forall i :: 0 <= i < |order| ==> order[i] < |jobs|
    requires forall i :: 0 <= i < |order'| ==> order'[i] < |jobs|
    requires forall k :: 0 <= k < |jobs| ==> k in order && k in order'
    ensures Attempts(s, jobs, order) == Attempts(s, jobs, order')
  {
    AttemptsLink(s, id, jobs, order);
    AttemptsLink(s, id, jobs, order');
    assert Indices(order) == Indices(order');
  }

  // The count: a permutation of the jobs counts what any other permutation counts.

  ghost function CountIf(order: seq<nat>, p: nat -> bool): nat {
    if order == [] then 0
    else CountIf(order[..|order| - 1], p) + if p(order[|order| - 1]) then 1 else 0
  }

  lemma {:induction false} CountIfRemove(order: seq<nat>, p: nat -> bool, i: nat)
    requires i < |order|
    ensures CountIf(order, p) == CountIf(order[..i] + order[i + 1..], p) + if p(order[i]) then 1 else 0
  {
    var n := |order| - 1;
    var rest := order[..i] + order[i + 1..];
    if i < n {
      CountIfRemove(order[..n], p, i);
      assert order[..n][..i] + order[..n][i + 1..] == rest[..|rest| - 1];
    } else {
      assert rest == order[..n];
    }
  }

  lemma RemoveOne(b: seq<nat>, i: nat)
    requires i < |b|
    ensures multiset(b[..i] + b[i + 1..]) == multiset(b) - multiset{b[i]}
  {
    assert b == b[..i] + [b[i]] + b[i + 1..];
  }

  lemma {:induction false} CountIfPermuted(a: seq<nat>, b: seq<nat>, p: nat -> bool)
    requires multiset(a) == multiset(b)
    ensures CountIf(a, p) == CountIf(b, p)
    decreases |a|
  {
    assert |a| == |multiset(a)| == |multiset(b)| == |b|;
    if a != [] {
      var n := |a| - 1;
      assert a[n] in multiset(a);
      var i :| 0 <= i < |b| && b[i] == a[n];
      RemoveOne(b, i);
      RemoveOne(a, n);
      assert a[..n] + a[n + 1..] == a[..n];
      CountIfRemove(b, p, i);
      CountIfPermuted(a[..n], b[..i] + b[i + 1..], p);
    }
  }

  lemma {:induction false} NaturalOnce(n: nat, i: nat)
    ensures multiset(Natural(n))[i] == if i < n then 1 else 0
  {
    if n > 0 {
      NaturalOnce(n - 1, i);
      var before := Natural(n - 1);
      assert multiset(before + [n - 1]) == multiset(before) + multiset{n - 1};
    }
  }

  lemma PermutationIsNatural(order: seq<nat>, n: nat)
    requires IsPermutation(order, n)
    ensures multiset(order) == multiset(Natural(n))
  {
    var a, b := multiset(Natural(n)), multiset(order);
    forall i: nat ensures a[i] <= b[i] {
      NaturalOnce(n, i);
      assert i < n ==> i in order;
    }
    assert a <= b;
    assert |b - a| == |b| - |a| == 0;
    assert b == a + (b - a);
  }

  lemma PermutationDistinct(order: seq<nat>, n: nat, i: nat)
    requires IsPermutation(order, n) && i < n
    ensures order[i] !in order[..i]
  {
    PermutationIsNatural(order, n);
    NaturalOnce(n, order[i]);
    assert order == order[..i] + [order[i]] + order[i + 1..];
    assert multiset(order) == multiset(order[..i]) + multiset{order[i]} + multiset(order[i + 1..]);
  }

  /** The guards would let job `k` through. */
  ghost function Rewires(s: Store, jobs: seq<Request>): nat -> bool {
    (k: nat) => k < |jobs| && TargetRow(jobs[k]) in s.rows && Rewirable(s.rows, TargetRow(jobs[k]))
  }

  lemma InvokeDelivered(cfg: Config, policy: Policy, st: State, request: Request)
    requires cfg.client == LiveClient(policy) && st.world.fates == []
    requires Serve(st.world.store, request).1.Ok?
    ensures Invoke(cfg, st, request).0.world == st.world.(store := Serve(st.world.store, request).0)
    ensures Invoke(cfg, st, request).1 == Serve(st.world.store, request).1
  {
    hide Serve, Rpc;
    RpcDelivered(policy, st.world, request);
  }

  ghost predicate NoRepeats(order: seq<nat>, n: nat) {
    (forall i :: 0 <= i < |order| ==> order[i] < n) && (forall i :: 0 <= i < |order| ==> order[i] !in order[..i])
  }

  /** The jobs, delivered once each in any order: the links they leave ... */
  lemma {:induction false} RunJobsLink(
      cfg: Config, policy: Policy, st: State, id: nat, jobs: seq<Request>, order: seq<nat>)
    requires cfg.client == LiveClient(policy) && st.world.fates == []
    requires Ready(st.world.store, id, jobs) && NoRepeats(order, |jobs|)
    ensures RunJobs(cfg, st, jobs, order).world == st.world.(store := Linked(st.world.store, jobs, Indices(order)))
  {
    hide Serve, Linked, Invoke, Rewires, LiveClient, Ready;
    var s := st.world.store;
    if order == [] {
      LinkedNone(s, jobs);
      assert Indices(order) == {};
    } else {
      var init, k := order[..|order| - 1], order[|order| - 1];
      assert NoRepeats(init, |jobs|) by {
        assert forall i :: 0 <= i < |init| ==> init[i] == order[i] && init[..i] == order[..i];
      }
      RunJobsLink(cfg, policy, st, id, jobs, init);
      StepAnswers(s, id, jobs, Indices(init), k);
      InvokeDelivered(cfg, policy, RunJobs(cfg, st, jobs, init), jobs[k]);
      IndicesSnoc(order);
    }
  }

  /** ... and what each of them is answered. */
  lemma {:induction false} RunJobsAnswer(
      cfg: Config, policy: Policy, st: State, id: nat, jobs: seq<Request>, order: seq<nat>, i: nat)
    requires cfg.client == LiveClient(policy) && st.world.fates == []
    requires Ready(st.world.store, id, jobs) && NoRepeats(order, |jobs|) && i < |order|
    ensures RunJobs(cfg, st, jobs, order).log[|st.log| + i].reply
         == Ok(ParentsDone(Rewires(st.world.store, jobs)(order[i])))
  {
    hide Serve, Linked, Invoke, Rewires, LiveClient, Ready;
    var n := |order| - 1;
    var init, k := order[..n], order[n];
    assert NoRepeats(init, |jobs|) by {
      assert forall i :: 0 <= i < |init| ==> init[i] == order[i] && init[..i] == order[..i];
    }
    if i == n {
      RunJobsLink(cfg, policy, st, id, jobs, init);
      StepAnswers(st.world.store, id, jobs, Indices(init), k);
      InvokeDelivered(cfg, policy, RunJobs(cfg, st, jobs, init), jobs[k]);
    } else {
      RunJobsAnswer(cfg, policy, st, id, jobs, init, i);
    }
  }

  lemma StepAnswers(s: Store, id: nat, jobs: seq<Request>, ran: set<nat>, k: nat)
    requires Ready(s, id, jobs) && k < |jobs| && k !in ran
    ensures Serve(Linked(s, jobs, ran), jobs[k])
         == (Linked(s, jobs, ran + {k}), Ok(ParentsDone(Rewires(s, jobs)(k))))
  {
    hide Serve, Linked;
    LinkedStep(s, id, jobs, ran, k);
    assert JobReady(s, id, jobs[k]);
  }

  lemma {:induction false} CountAnswers(replies: seq<Reply>, order: seq<nat>, p: nat -> bool)
    requires |replies| == |order|
    requires forall i :: 0 <= i < |order| ==> replies[i] == Ok(ParentsDone(p(order[i])))
    ensures CountRewired(replies) == (CountIf(order, p), true)
  {
    if order != [] {
      var n := |order| - 1;
      CountAnswers(replies[..n], order[..n], p);
    }
  }

  ghost function Compose(order: seq<nat>, p: nat -> bool): nat -> bool {
    (i: nat) => i < |order| && p(order[i])
  }

  lemma {:induction false} CountComposed(order: seq<nat>, p: nat -> bool, n: nat)
    requires n <= |order|
    ensures CountIf(Natural(n), Compose(order, p)) == CountIf(order[..n], p)
  {
    if n > 0 {
      CountComposed(order, p, n - 1);
      assert Natural(n)[..n - 1] == Natural(n - 1);
      assert order[..n][..n - 1] == order[..n - 1];
    }
  }

  /**
   On a network that loses nothing, the pass leaves the same links and the same
   counters under every schedule of the concurrent updates.
   */
  lemma RewirePassConfluent(cfg: Config, policy: Policy, st: State, outcomes: seq<Outcome>, id: nat)
    requires cfg.client == LiveClient(policy) && st.world.fates == []
    requires Ready(st.world.store, id, JobsOf(id, outcomes))
    ensures var jobs := JobsOf(id, outcomes);
      var r := RewirePass(cfg, st, outcomes, id);
      var counted := CountOutcomes(st, outcomes).result;
      && r.world == NextSchedule(st.world, |jobs|).1.(store := Linked(st.world.store, jobs, Indices(Natural(|jobs|))))
      && r.events == st.events && r.current == st.current
      && r.result == counted.(rewired := counted.rewired
           + CountIf(Natural(|jobs|), Rewires(st.world.store, jobs)))
  {
    hide JobsOf, RunJobs, Settle, Linked, Natural, Rewires, LiveClient, Ready, CountOutcomes, NextSchedule;
    var jobs := JobsOf(id, outcomes);
    var n, p := |jobs|, Rewires(st.world.store, jobs);
    var (schedule, world) := NextSchedule(st.world, n);
    var exec, done := schedule.exec, schedule.done;
    SchedulesPermute(st.world, n);
    CountingKeeps(st, outcomes);
    var counted := CountOutcomes(st, outcomes).(world := world);
    forall i | 0 <= i < n ensures exec[i] !in exec[..i] {
      PermutationDistinct(exec, n, i);
    }
    RunJobsLink(cfg, policy, counted, id, jobs, exec);
    forall i | 0 <= i < n {
      RunJobsAnswer(cfg, policy, counted, id, jobs, exec, i);
    }
    SettleCounts(RunJobs(cfg, counted, jobs, exec), |st.log|, n, exec, done, p);
    PermutationCovers(exec, n);
  }

  lemma CountingKeeps(st: State, outcomes: seq<Outcome>)
    ensures CountOutcomes(st, outcomes).log == st.log && CountOutcomes(st, outcomes).world == st.world
    ensures CountOutcomes(st, outcomes).result.error == st.result.error
    ensures CountOutcomes(st, outcomes).events == st.events && CountOutcomes(st, outcomes).current == st.current
  {
  }

  lemma PermutationCovers(order: seq<nat>, n: nat)
    requires IsPermutation(order, n)
    ensures Indices(order) == Indices(Natural(n))
  {
    PermutationIsNatural(order, n);
    assert forall k :: k in order <==> k in multiset(order);
    assert forall k :: k in Natural(n) <==> k in multiset(Natural(n));
  }

  lemma SettleCounts(ran: State, from: nat, n: nat, exec: seq<nat>, done: seq<nat>, p: nat -> bool)
    requires IsPermutation(exec, n) && IsPermutation(done, n) && |ran.log| == from + n
    requires forall i :: 0 <= i < n ==> ran.log[from + i].reply == Ok(ParentsDone(p(exec[i])))
    ensures Settle(ran, from, done)
         == ran.(result := ran.result.(rewired := ran.result.rewired + CountIf(Natural(n), p)))
  {
    hide CountRewired, Natural;
    CountAnswers(RepliesIn(ran.log, from, done), done, Compose(exec, p));
    PermutationIsNatural(done, n);
    CountIfPermuted(done, Natural(n), Compose(exec, p));
    CountComposed(exec, p, n);
    assert exec[..n] == exec;
    PermutationIsNatural(exec, n);
    CountIfPermuted(exec, Natural(n), p);
  }

  lemma SchedulesPermute(w: World, n: nat)
    ensures IsPermutation(NextSchedule(w, n).0.exec, n) && IsPermutation(NextSchedule(w, n).0.done, n)
    ensures NextSchedule(w, n).1.store == w.store && NextSchedule(w, n).1.fates == w.fates
  {
  }

  // The jobs a genuine answer leads to are of this kind.

  lemma {:induction false} JobsAreReady(s: Store, id: nat, outcomes: seq<Outcome>)
    requires id < |s.threads|
    requires forall k :: 0 <= k < |outcomes| ==> OutcomeReady(s, id, outcomes[k])
    requires forall j, k :: 0 <= j < k < |outcomes| ==> outcomes[j].memoryId != outcomes[k].memoryId
    ensures Ready(s, id, JobsOf(id, outcomes))
    ensures forall job :: job in JobsOf(id, outcomes) ==>
      exists k :: 0 <= k < |outcomes| && outcomes[k].memoryId == Some(TargetRow(job))
  {
    if outcomes != [] {
      var n := |outcomes| - 1;
      JobsAreReady(s, id, outcomes[..n]);
      var before, last := JobsOf(id, outcomes[..n]), outcomes[n];
      if NeedsRewire(last) {
        var job := UpdateMemoryParents(id, last.memoryId.value, last.resolvedParentIds);
        assert OutcomeReady(s, id, last);
        assert JobReady(s, id, job);
        forall j | 0 <= j < |before| ensures TargetRow(before[j]) != last.memoryId.value {
          assert before[j] in before;
          var k :| 0 <= k < n && outcomes[..n][k].memoryId == Some(TargetRow(before[j]));
        }
        assert JobsOf(id, outcomes) == before + [job];
        assert outcomes[n].memoryId == Some(TargetRow(job));
      }
    }
  }

  /** What an answer claims of a reused row is in the thread. */
  ghost predicate OutcomeReady(s: Store, id: nat, o: Outcome) {
    NeedsRewire(o) ==> InThread(s, id, o.memoryId.value) && forall p :: p in o.resolvedParentIds ==> InThread(s, id, p)
  }

  lemma PrefixIds(memories: seq<Input>, k: nat)
    requires k <= |memories|
    ensures Ids(memories[..k]) <= Ids(memories)
  {
    forall e | e in Ids(memories[..k]) ensures e in Ids(memories) {
      var j :| 0 <= j < k && Id(memories[..k][j]) == e;
      assert Id(memories[j]) in Ids(memories);
    }
  }

  /** A taken batch: everything it names is in its thread afterwards. */
  lemma CommitInThread(s: Store, batch: Batch, ready: Store, id: nat, created: bool)
    requires Admit(s, batch) == Ok((ready, id, created))
    ensures forall e :: e in Ids(batch.memories) + Attached(s.rows, id) ==> InThread(Commit(ready, id, batch), id, e)
  {
    hide AddAll;
    forall e | e in Ids(batch.memories) && e in ready.rows ensures InThread(ready, id, e) {
      var k :| 0 <= k < |batch.memories| && Id(batch.memories[k]) == e;
      assert RowCollision(s.rows, id, batch.upsertByExternalId, batch.memories[k]).None?;
    }
    AddAllInThread(ready, id, Attached(ready.rows, id), Ids(batch.memories), batch.memories);
  }

  /**
   The server's answer lists the batch's own ids in request order, and the rewire
   jobs drawn from it are for different rows with parents in the thread.
   */
  lemma GenuineAnswer(s: Store, batch: Batch)
    requires AddBatch(s, batch).1.Ok? && !AddBatch(s, batch).1.value.reply.suppressed
    ensures var (s', reply) := (AddBatch(s, batch).0, AddBatch(s, batch).1.value.reply);
      && reply.threadId.Some? && |reply.outcomes| == |batch.memories|
      && (forall k :: 0 <= k < |batch.memories| ==>
          && reply.outcomes[k].memoryId == Some(Id(batch.memories[k]))
          && reply.outcomes[k].created == (Id(batch.memories[k]) !in s.rows))
      && Ready(s', reply.threadId.value, JobsOf(reply.threadId.value, reply.outcomes))
  {
    hide AddAll, Commit, Outcomes, Admit, Ready, JobsOf, InThread, OutcomeReady;
    var (ready, id, created) := Admit(s, batch).value;
    CommitInThread(s, batch, ready, id, created);
    OutcomesReady(Commit(ready, id, batch), id, s.rows, Attached(s.rows, id), batch.memories);
    JobsAreReady(Commit(ready, id, batch), id, Outcomes(s.rows, Attached(s.rows, id), batch.memories));
  }

  lemma OutcomesReady(s: Store, id: nat, rows: map<string, Row>, attached: set<string>, memories: seq<Input>)
    requires Distinct(memories) && forall e :: e in Ids(memories) + attached ==> InThread(s, id, e)
    ensures var outcomes := Outcomes(rows, attached, memories);
      && (forall k :: 0 <= k < |memories| ==>
          && OutcomeReady(s, id, outcomes[k])
          && outcomes[k].memoryId == Some(Id(memories[k]))
          && outcomes[k].created == (Id(memories[k]) !in rows))
      && forall j, k :: 0 <= j < k < |outcomes| ==> outcomes[j].memoryId != outcomes[k].memoryId
  {
    hide Known, InThread;
    forall k | 0 <= k < |memories| ensures OutcomeReady(s, id, Outcomes(rows, attached, memories)[k]) {
      PrefixIds(memories, k);
    }
  }

  /** The in-chunk sort moves entries and inputs together, so answers still meet their entries. */
  lemma PairingSurvivesSort(cfg: Config, s: Store, current: Option<nat>, entries: seq<Entry>, isLast: bool)
    ensures var chunk := PrepareAll(cfg, entries);
      var sorted := StableSort(chunk, PreparedKey);
      var answer := AddBatch(s, BatchOf(cfg, current, InputsOf(sorted), isLast)).1;
      && multiset(sorted) == multiset(chunk)
      && (answer.Ok? && !answer.value.reply.suppressed ==>
          && |answer.value.reply.outcomes| == |sorted|
          && forall k :: 0 <= k < |sorted| ==>
               answer.value.reply.outcomes[k].memoryId == Some(sorted[k].entry.externalId))
  {
    hide StableSort, AddBatch, Prepare, BuildLabels, PrepareAll;
    SortedPairs(cfg, entries);
    var batch := BatchOf(cfg, current, InputsOf(StableSort(PrepareAll(cfg, entries), PreparedKey)), isLast);
    if AddBatch(s, batch).1.Ok? && !AddBatch(s, batch).1.value.reply.suppressed {
      GenuineAnswer(s, batch);
    }
  }

  lemma SortedPairs(cfg: Config, entries: seq<Entry>)
    ensures var sorted := StableSort(PrepareAll(cfg, entries), PreparedKey);
      forall k :: 0 <= k < |sorted| ==> Id(sorted[k].input) == sorted[k].entry.externalId
  {
    hide StableSort, Prepare;
    var chunk := PrepareAll(cfg, entries);
    var sorted := StableSort(chunk, PreparedKey);
    forall k | 0 <= k < |sorted| ensures Id(sorted[k].input) == sorted[k].entry.externalId {
      assert sorted[k] in multiset(sorted);
      assert sorted[k] in chunk;
      var i :| 0 <= i < |chunk| && chunk[i] == sorted[k];
      PrepareKeepsId(cfg, entries[i]);
    }
  }

  lemma PrepareKeepsId(cfg: Config, entry: Entry)
    ensures Id(Prepare(cfg, entry).input) == Prepare(cfg, entry).entry.externalId
  {
  }
}
