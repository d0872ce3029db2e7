/**
 The path a session's runs move the store along. Wherever on it the store is, a
 batch of the session, sent any number of times and lost in either direction,
 leaves it on the path, and an accepted batch takes it to the batch's end.
 */
module Path {
  import opened Wrappers
  import opened Text
  import opened Retry
  import opened Store
  import opened Network
  import opened ImportRun
  import opened Rewire
  import opened History

  // Stores compared by everything but content, parent links and labels.

  ghost predicate Alike(a: Store, b: Store) {
    && a.markers == b.markers
    && |a.threads| == |b.threads|
    && (forall t :: 0 <= t < |a.threads| ==>
      && a.threads[t].userId == b.threads[t].userId
      && a.threads[t].channel == b.threads[t].channel
      && a.threads[t].members == b.threads[t].members)
    && a.rows.Keys == b.rows.Keys
    && (forall e :: e in a.rows ==> a.rows[e].first == b.rows[e].first && a.rows[e].threads == b.rows[e].threads)
  }

  lemma AlikeJoins(a: Store, b: Store, c: Store)
    requires Alike(a, b) && Alike(b, c)
    ensures Alike(a, c) && Alike(c, a)
  {
  }

  lemma AddOneAlike(a: Store, b: Store, id: nat, known: set<string>, known': set<string>,
                    batch: set<string>, batch': set<string>, input: Input)
    requires Alike(a, b) && id < |a.threads|
    ensures Alike(AddOne(a, id, known, batch, input), AddOne(b, id, known', batch', input))
  {
  }

  lemma {:induction false} AddAllAlike(a: Store, b: Store, id: nat, known: set<string>, known': set<string>,
                                       batch: set<string>, batch': set<string>, memories: seq<Input>)
    requires Alike(a, b) && id < |a.threads|
    ensures Alike(AddAll(a, id, known, batch, memories), AddAll(b, id, known', batch', memories))
  {
    if memories != [] {
      hide Alike, AddOne;
      var n := |memories| - 1;
      AddAllAlike(a, b, id, known, known', batch, batch', memories[..n]);
      AddOneAlike(AddAll(a, id, known, batch, memories[..n]), AddAll(b, id, known', batch', memories[..n]), id,
                  known + Ids(memories[..n]), known' + Ids(memories[..n]), batch, batch', memories[n]);
    }
  }

  lemma AddAllLast(s: Store, id: nat, attached: set<string>, batch: set<string>, memories: seq<Input>)
    requires id < |s.threads| && memories != []
    ensures var n := |memories| - 1;
      AddAll(s, id, attached, batch, memories)
      == AddOne(AddAll(s, id, attached, batch, memories[..n]), id, attached + Ids(memories[..n]), batch, memories[n])
  {
  }

  lemma {:induction false} AddInTwo(s: Store, id: nat, m: seq<Input>, n: seq<Input>)
    requires id < |s.threads|
    ensures Alike(AddAll(AddAll(s, id, {}, {}, m), id, {}, {}, n), AddAll(s, id, {}, {}, m + n))
  {
    if n == [] {
      assert m + n == m;
    } else {
      hide Alike, AddOne, AddAll;
      var k := |n| - 1;
      AddInTwo(s, id, m, n[..k]);
      AddAllLast(AddAll(s, id, {}, {}, m), id, {}, {}, n);
      AddAllLast(s, id, {}, {}, m + n);
      assert (m + n)[..|m + n| - 1] == m + n[..k];
      AddOneAlike(AddAll(AddAll(s, id, {}, {}, m), id, {}, {}, n[..k]), AddAll(s, id, {}, {}, m + n[..k]), id,
                  {} + Ids(n[..k]), {} + Ids(m + n[..k]), {}, {}, n[k]);
    }
  }

  lemma {:induction false} AddAllKeys(s: Store, id: nat, known: set<string>, batch: set<string>, memories: seq<Input>)
    requires id < |s.threads|
    ensures AddAll(s, id, known, batch, memories).rows.Keys == s.rows.Keys + Ids(memories)
  {
    if memories == [] {
      assert Ids(memories) == {};
    } else {
      AddAllKeys(s, id, known, batch, memories[..|memories| - 1]);
      IdsSnoc(memories);
    }
  }

  /** Taking inputs that are all there already changes no more than content. */
  lemma {:induction false} AddKnown(s: Store, id: nat, known: set<string>, batch: set<string>, memories: seq<Input>)
    requires id < |s.threads| && Ids(memories) <= s.rows.Keys
    ensures Alike(s, AddAll(s, id, known, batch, memories))
  {
    if memories != [] {
      var n := |memories| - 1;
      IdsSnoc(memories);
      AddKnown(s, id, known, batch, memories[..n]);
    }
  }

  /** Inputs `a..b` taken again by a store that is at `p`, at or past `a`. */
  lemma {:induction false} Resend(
      o: Store, s: Store, id: nat, inputs: seq<Input>, a: nat, b: nat, p: nat, known: set<string>, batch: set<string>)
    requires id < |o.threads| && a <= p <= |inputs| && a <= b <= |inputs|
    requires Alike(AddAll(o, id, {}, {}, inputs[..p]), s)
    ensures Alike(AddAll(o, id, {}, {}, inputs[..if b <= p then p else b]), AddAll(s, id, known, batch, inputs[a..b]))
  {
    hide Alike, AddAll;
    var at := AddAll(o, id, {}, {}, inputs[..p]);
    AlikeFlips(at, s);
    AddAllKeys(o, id, {}, {}, inputs[..p]);
    if b <= p {
      IdsWithin(inputs, a, b, p);
      AddKnown(s, id, known, batch, inputs[a..b]);
      AlikeJoins(at, s, AddAll(s, id, known, batch, inputs[a..b]));
    } else {
      IdsWithin(inputs, a, p, p);
      ResendAhead(at, s, id, inputs[a..p], inputs[p..b], known, batch);
      assert inputs[a..p] + inputs[p..b] == inputs[a..b];
      AddInTwo(o, id, inputs[..p], inputs[p..b]);
      assert inputs[..p] + inputs[p..b] == inputs[..b];
      AlikeJoins(AddAll(s, id, known, batch, inputs[a..b]), AddAll(at, id, {}, {}, inputs[p..b]),
                 AddAll(o, id, {}, {}, inputs[..b]));
    }
  }

  /** What is there already, then what is new: only the latter moves the store on. */
  lemma {:induction false} ResendAhead(
      at: Store, s: Store, id: nat, seen: seq<Input>, more: seq<Input>, known: set<string>, batch: set<string>)
    requires Alike(at, s) && id < |at.threads| && id < |s.threads| && Ids(seen) <= s.rows.Keys
    ensures Alike(AddAll(s, id, known, batch, seen + more), AddAll(at, id, {}, {}, more))
  {
    hide Alike, AddAll;
    var caughtUp := AddAll(s, id, {}, {}, seen);
    AddKnown(s, id, {}, {}, seen);
    AlikeJoins(at, s, caughtUp);
    AddAllAlike(at, caughtUp, id, {}, {}, {}, {}, more);
    AddInTwo(s, id, seen, more);
    AlikeSelf(s);
    AddAllAlike(s, s, id, {}, known, {}, batch, seen + more);
    AlikeJoins(AddAll(caughtUp, id, {}, {}, more), AddAll(s, id, {}, {}, seen + more),
               AddAll(s, id, known, batch, seen + more));
    AlikeJoins(AddAll(at, id, {}, {}, more), AddAll(caughtUp, id, {}, {}, more),
               AddAll(s, id, known, batch, seen + more));
  }

  lemma AlikeSelf(s: Store)
    ensures Alike(s, s)
  {
  }

  lemma AlikeFlips(a: Store, b: Store)
    requires Alike(a, b)
    ensures Alike(b, a) && |a.threads| == |b.threads| && a.rows.Keys == b.rows.Keys
  {
  }

  lemma IdsWithin(inputs: seq<Input>, a: nat, b: nat, p: nat)
    requires a <= b <= p <= |inputs|
    ensures Ids(inputs[a..b]) <= Ids(inputs[..p])
  {
    forall e | e in Ids(inputs[a..b]) ensures e in Ids(inputs[..p]) {
      var k :| 0 <= k < b - a && Id(inputs[a..b][k]) == e;
      assert inputs[..p][a + k] == inputs[a..b][k];
    }
  }

  // Content: the last item to carry an id decides.

  /** The content the inputs leave in row `e`, if any of them is for it. */
  ghost function Latest(memories: seq<Input>, e: string): Option<string> {
    if memories == [] then None
    else
      var last := memories[|memories| - 1];
      if Id(last) == e then Some(last.memory.content) else Latest(memories[..|memories| - 1], e)
  }

  /** Every row the inputs are for holds what they leave in it. */
  ghost predicate Written(rows: map<string, Row>, memories: seq<Input>) {
    forall e :: e in Ids(memories) ==> e in rows && Some(rows[e].content) == Latest(memories, e)
  }

  /** Rows the inputs are not for keep their content. */
  ghost predicate KeptOutside(rows: map<string, Row>, rows': map<string, Row>, memories: seq<Input>) {
    forall e :: e in rows && e !in Ids(memories) ==> e in rows' && rows'[e].content == rows[e].content
  }

  lemma {:induction false} AddAllWrites(s: Store, id: nat, known: set<string>, batch: set<string>, memories: seq<Input>)
    requires id < |s.threads|
    ensures Written(AddAll(s, id, known, batch, memories).rows, memories)
    ensures KeptOutside(s.rows, AddAll(s, id, known, batch, memories).rows, memories)
  {
    if memories == [] {
      assert Ids(memories) == {};
    } else {
      AddAllWrites(s, id, known, batch, memories[..|memories| - 1]);
      IdsSnoc(memories);
    }
  }

  lemma {:induction false} LatestOfBoth(m: seq<Input>, n: seq<Input>, e: string)
    ensures Latest(m + n, e) == if e in Ids(n) then Latest(n, e) else Latest(m, e)
    ensures e in Ids(m + n) <==> e in Ids(m) || e in Ids(n)
  {
    if n == [] {
      assert Ids(n) == {} && m + n == m;
    } else {
      var k := |n| - 1;
      LatestOfBoth(m, n[..k], e);
      assert (m + n)[..|m + n| - 1] == m + n[..k];
      IdsSnoc(n);
      IdsSnoc(m + n);
    }
  }

  lemma WrittenOn(a: map<string, Row>, b: map<string, Row>, m: seq<Input>, n: seq<Input>)
    requires Written(a, m) && KeptOutside(a, b, n) && Written(b, n)
    ensures Written(b, m + n)
  {
    forall e | e in Ids(m + n) ensures e in b && Some(b[e].content) == Latest(m + n, e) {
      LatestOfBoth(m, n, e);
    }
  }

  lemma KeptJoins(a: map<string, Row>, b: map<string, Row>, c: map<string, Row>, m: seq<Input>)
    requires KeptOutside(a, b, m) && KeptOutside(b, c, m)
    ensures KeptOutside(a, c, m)
  {
  }

  // The path a session's runs move the store along.

  /** What a session is to leave behind: all its inputs, and its labels, in its channel's thread. */
  datatype Plan = Plan(base: Store, channel: string, userId: I64, inputs: seq<Input>, labels: set<string>) {
    ghost predicate Unambiguous() {
      |ThreadsFor(base.threads, channel, userId)| <= 1
    }

    /** The thread, which the first batch creates if the channel has none. */
    ghost function Home(): nat {
      var ids := ThreadsFor(base.threads, channel, userId);
      if ids == [] then |base.threads| else ids[0]
    }

    ghost function Ready(): (s: Store)
      ensures s.rows == base.rows && Home() < |s.threads|
    {
      var ids := ThreadsFor(base.threads, channel, userId);
      if ids == [] then base.(threads := base.threads + [Thread(userId, channel, {}, [])])
      else
        assert ids[0] in ids;
        base
    }

    ghost function OldLabels(): set<string> {
      Ready().threads[Home()].labels
    }

    /** Where the store is once the first `p` inputs are in. */
    ghost function At(p: nat): Store
      requires p <= |inputs|
    {
      if p == 0 then base else AddAll(Ready(), Home(), {}, {}, inputs[..p])
    }
  }

  ghost predicate LabelsFit(plan: Plan, s: Store) {
    forall t :: 0 <= t < |s.threads| ==>
      if t == plan.Home() then plan.OldLabels() <= s.threads[t].labels <= plan.OldLabels() + plan.labels
      else t < |plan.base.threads| && s.threads[t].labels == plan.base.threads[t].labels
  }

  ghost predicate Reached(plan: Plan, s: Store, p: nat) {
    && p <= |plan.inputs|
    && Alike(plan.At(p), s)
    && LabelsFit(plan, s)
    && KeptOutside(plan.base.rows, s.rows, plan.inputs)
  }

  /** The store is on the path, `from` or further along. */
  ghost predicate OnPath(plan: Plan, s: Store, from: nat) {
    exists p :: from <= p && Reached(plan, s, p)
  }

  lemma {:induction false} SameThreadsFor(a: seq<Thread>, b: seq<Thread>, channel: string, userId: I64)
    requires |a| == |b|
    requires forall t :: 0 <= t < |a| ==> a[t].channel == b[t].channel && a[t].userId == b[t].userId
    ensures ThreadsFor(a, channel, userId) == ThreadsFor(b, channel, userId)
  {
    if a != [] {
      SameThreadsFor(a[..|a| - 1], b[..|b| - 1], channel, userId);
    }
  }

  /** Once opened, the channel has the one thread. */
  lemma ReadyHasHome(plan: Plan)
    requires plan.Unambiguous()
    ensures ThreadsFor(plan.Ready().threads, plan.channel, plan.userId) == [plan.Home()]
    ensures plan.Ready().threads[plan.Home()].userId == plan.userId
  {
    var ids := ThreadsFor(plan.base.threads, plan.channel, plan.userId);
    var grown := plan.base.threads + [Thread(plan.userId, plan.channel, {}, [])];
    assert grown[..|plan.base.threads|] == plan.base.threads;
    if ids != [] {
      assert ids[0] in ids;
    }
  }

  lemma {:induction false} AddAllThreads(
      s: Store, id: nat, known: set<string>, batch: set<string>, memories: seq<Input>)
    requires id < |s.threads|
    ensures var r := AddAll(s, id, known, batch, memories);
      && r.markers == s.markers
      && forall t :: 0 <= t < |s.threads| ==>
        && r.threads[t].userId == s.threads[t].userId
        && r.threads[t].channel == s.threads[t].channel
        && r.threads[t].labels == s.threads[t].labels
  {
    if memories != [] {
      AddAllThreads(s, id, known, batch, memories[..|memories| - 1]);
    }
  }

  /** A batch of this session: inputs `a..b`, for the session's thread. */
  ghost predicate Ours(plan: Plan, batch: Batch, a: nat, b: nat) {
    && a <= b <= |plan.inputs|
    && batch.memories == plan.inputs[a..b]
    && batch.upsertByExternalId
    && LabelSet(batch.labels) <= plan.labels
    && (batch.target == Upsert(plan.channel, plan.userId) || (batch.target == ExistingThread(plan.Home()) && a > 0))
  }

  /** The channel's threads, anywhere on the path. */
  lemma PathThreads(plan: Plan, s: Store, p: nat)
    requires plan.Unambiguous() && Reached(plan, s, p)
    ensures ThreadsFor(s.threads, plan.channel, plan.userId)
         == if p == 0 then ThreadsFor(plan.base.threads, plan.channel, plan.userId) else [plan.Home()]
    ensures p > 0 ==> Alike(AddAll(plan.Ready(), plan.Home(), {}, {}, plan.inputs[..p]), s)
  {
    hide AddAll, KeptOutside, LabelsFit;
    ReadyHasHome(plan);
    AddAllThreads(plan.Ready(), plan.Home(), {}, {}, plan.inputs[..p]);
    if p == 0 {
      SameThreadsFor(plan.base.threads, s.threads, plan.channel, plan.userId);
    } else {
      SameThreadsFor(plan.Ready().threads, s.threads, plan.channel, plan.userId);
    }
  }

  /** The thread such a batch is let into is the session's. */
  lemma Resolves(plan: Plan, s: Store, p: nat, batch: Batch, a: nat, b: nat)
    requires plan.Unambiguous() && Reached(plan, s, p) && Ours(plan, batch, a, b) && a <= p
    requires ResolveTarget(s, batch.target).Ok?
    ensures var (ready, id, _) := ResolveTarget(s, batch.target).value;
      && id == plan.Home() && ready.rows == s.rows
      && Alike(AddAll(plan.Ready(), plan.Home(), {}, {}, plan.inputs[..p]), ready)
      && LabelsFit(plan, ready)
  {
    hide AddAll, ThreadsFor, KeptOutside;
    PathThreads(plan, s, p);
    if p == 0 {
      ReadyHasHome(plan);
      AddNone(plan.Ready(), plan.Home(), plan.inputs[..0]);
    }
  }

  lemma AddNone(s: Store, id: nat, memories: seq<Input>)
    requires id < |s.threads| && memories == []
    ensures AddAll(s, id, {}, {}, memories) == s
  {
  }

  /** What the server makes of a batch of this session, wherever on the path it is. */
  lemma ServeKeepsPath(plan: Plan, s: Store, p: nat, batch: Batch, a: nat, b: nat)
    requires plan.Unambiguous() && Reached(plan, s, p) && Ours(plan, batch, a, b) && a <= p
    ensures var (s', reply) := AddBatch(s, batch);
      && Reached(plan, s', if s' == s then p else if b <= p then p else b)
      && KeptOutside(s.rows, s'.rows, batch.memories)
      && (reply.Ok? && !reply.value.reply.suppressed ==>
          && reply.value.reply.threadId == Some(plan.Home())
          && Reached(plan, s', if b <= p then p else b)
          && Written(s'.rows, batch.memories)
          && Labelled(plan, s', LabelSet(batch.labels)))
  {
    hide AddAll, ThreadsFor, Latest, Reached, Written, KeptOutside, ResolveTarget, LabelThread;
    KeptSelf(s.rows, batch.memories);
    if !Malformed(batch.memories) && !Suppressed(s, batch) && Admit(s, batch).Ok? {
      Resolves(plan, s, p, batch, a, b);
      var (ready, id, _) := Admit(s, batch).value;
      CommitReaches(plan, s, p, batch, a, b, ready);
    }
  }

  lemma KeptSelf(rows: map<string, Row>, m: seq<Input>)
    ensures KeptOutside(rows, rows, m)
  {
  }

  /** The session's thread carries these labels, on top of its own. */
  ghost predicate Labelled(plan: Plan, s: Store, labels: set<string>) {
    plan.Home() < |s.threads| && labels <= s.threads[plan.Home()].labels
  }

  lemma CommitReaches(plan: Plan, s: Store, p: nat, batch: Batch, a: nat, b: nat, ready: Store)
    requires plan.Unambiguous() && Reached(plan, s, p) && Ours(plan, batch, a, b) && a <= p && a < b
    requires ready.rows == s.rows && LabelsFit(plan, ready)
    requires Alike(AddAll(plan.Ready(), plan.Home(), {}, {}, plan.inputs[..p]), ready)
    ensures plan.Home() < |ready.threads|
    ensures var s' := Commit(ready, plan.Home(), batch);
      && Reached(plan, s', if b <= p then p else b)
      && KeptOutside(s.rows, s'.rows, batch.memories) && Written(s'.rows, batch.memories)
      && Labelled(plan, s', LabelSet(batch.labels))
  {
    hide AddAll, Alike, KeptOutside, Written, LabelsFit;
    var id := plan.Home();
    AlikeFlips(AddAll(plan.Ready(), id, {}, {}, plan.inputs[..p]), ready);
    var known, ids := Attached(ready.rows, id), Ids(batch.memories);
    var added := AddAll(ready, id, known, ids, batch.memories);
    Resend(plan.Ready(), ready, id, plan.inputs, a, b, p, known, ids);
    AddAllWrites(ready, id, known, ids, batch.memories);
    LabelKeeps(plan, ready, id, known, ids, batch.memories, batch.labels);
    KeptFromBase(plan, s.rows, added.rows, a, b);
    AlikeJoins(plan.At(if b <= p then p else b), added, LabelThread(added, id, batch.labels));
  }

  lemma KeptFromBase(plan: Plan, rows: map<string, Row>, rows': map<string, Row>, a: nat, b: nat)
    requires KeptOutside(plan.base.rows, rows, plan.inputs)
    requires a <= b <= |plan.inputs| && KeptOutside(rows, rows', plan.inputs[a..b])
    ensures KeptOutside(plan.base.rows, rows', plan.inputs)
  {
    IdsWithin(plan.inputs, a, b, |plan.inputs|);
    assert plan.inputs[..|plan.inputs|] == plan.inputs;
  }

  lemma LabelAlike(s: Store, id: nat, labels: seq<string>)
    requires id < |s.threads|
    ensures Alike(s, LabelThread(s, id, labels)) && LabelThread(s, id, labels).rows == s.rows
  {
  }

  lemma LabelKeeps(plan: Plan, ready: Store, id: nat, known: set<string>, ids: set<string>,
                   memories: seq<Input>, labels: seq<string>)
    requires id == plan.Home() < |ready.threads| && LabelsFit(plan, ready) && LabelSet(labels) <= plan.labels
    ensures var added := AddAll(ready, id, known, ids, memories);
      var done := LabelThread(added, id, labels);
      && Alike(added, done) && done.rows == added.rows
      && LabelsFit(plan, done) && Labelled(plan, done, LabelSet(labels))
  {
    hide AddAll, Alike, LabelSet;
    AddAllThreads(ready, id, known, ids, memories);
    var added := AddAll(ready, id, known, ids, memories);
    var done := LabelThread(added, id, labels);
    LabelAlike(added, id, labels);
    forall t | 0 <= t < |done.threads|
      ensures done.threads[t].labels == ready.threads[t].labels + if t == id then LabelSet(labels) else {}
    {
      assert added.threads[t].labels == ready.threads[t].labels;
    }
    FitsMore(plan, ready, done, LabelSet(labels));
  }

  lemma FitsMore(plan: Plan, s: Store, s': Store, more: set<string>)
    requires LabelsFit(plan, s) && more <= plan.labels && |s'.threads| == |s.threads|
    requires forall t :: 0 <= t < |s'.threads| ==>
      s'.threads[t].labels == s.threads[t].labels + if t == plan.Home() then more else {}
    ensures LabelsFit(plan, s')
  {
  }

  // Delivery: losses, resends and rewires on top.

  lemma PathFrom(plan: Plan, s: Store, from: nat, from': nat)
    requires OnPath(plan, s, from) && from' <= from
    ensures OnPath(plan, s, from')
  {
    hide Reached;
  }

  /** Attempts of one batch, applied or not, leave the store on the path. */
  lemma {:induction false} AttemptsKeepPath(
      plan: Plan, s: Store, fates: seq<Fate>, batch: Batch, a: nat, b: nat, n: nat)
    requires plan.Unambiguous() && OnPath(plan, s, a) && Ours(plan, batch, a, b)
    ensures var s' := StoreAfter(s, fates, AddMemoriesBatch(batch), n);
      OnPath(plan, s', a) && KeptOutside(s.rows, s'.rows, batch.memories)
  {
    hide Reached, KeptOutside, AddBatch, Ours;
    KeptSelf(s.rows, batch.memories);
    if n > 0 {
      AttemptsKeepPath(plan, s, fates, batch, a, b, n - 1);
      var before := StoreAfter(s, fates, AddMemoriesBatch(batch), n - 1);
      var p :| a <= p && Reached(plan, before, p);
      ServeKeepsPath(plan, before, p, batch, a, b);
      KeptSelf(before.rows, batch.memories);
      KeptJoins(s.rows, before.rows, StoreAfter(s, fates, AddMemoriesBatch(batch), n).rows, batch.memories);
    }
  }

  /** The client has learnt that the inputs before `b` are in, the batch's last. */
  ghost predicate Accepted(plan: Plan, s: Store, reply: BatchReply, b: nat, batch: Batch) {
    && reply.threadId == Some(plan.Home())
    && OnPath(plan, s, b)
    && Written(s.rows, batch.memories)
    && Labelled(plan, s, LabelSet(batch.labels))
    && Ready(s, plan.Home(), JobsOf(plan.Home(), reply.outcomes))
  }

  /** One batch with its retries. */
  lemma BatchSent(plan: Plan, policy: Policy, w: World, batch: Batch, a: nat, b: nat)
    requires Honest(w) && plan.Unambiguous() && OnPath(plan, w.store, a) && Ours(plan, batch, a, b)
    ensures var (w', reply) := Rpc(policy, w, AddMemoriesBatch(batch));
      && Honest(w') && OnPath(plan, w'.store, a)
      && KeptOutside(w.store.rows, w'.store.rows, batch.memories)
      && (reply.Ok? && !reply.value.reply.suppressed ==> Accepted(plan, w'.store, reply.value.reply, b, batch))
  {
    hide Reached, KeptOutside, Written, AddBatch, Ours, Honest, Ready, JobsOf, CallsMade, Labelled;
    var request := AddMemoriesBatch(batch);
    var n := CallsMade(policy, Answering(w.store, w.fates, request), 1);
    RpcHonest(policy, w, request);
    AttemptsKeepPath(plan, w.store, w.fates, batch, a, b, n);
    AttemptsKeepPath(plan, w.store, w.fates, batch, a, b, n - 1);
    var (w', reply) := Rpc(policy, w, request);
    if reply.Ok? && !reply.value.reply.suppressed {
      var before := BeforeLast(policy, w, request);
      var p :| a <= p && Reached(plan, before, p);
      ServeKeepsPath(plan, before, p, batch, a, b);
      assert Serve(before, request) == AddBatch(before, batch);
      GenuineAnswer(before, batch);
    }
  }

  /** Equal but for parent links. */
  ghost predicate ParentsAside(a: Store, b: Store) {
    && b == a.(rows := b.rows)
    && a.rows.Keys == b.rows.Keys
    && forall e :: e in a.rows ==> b.rows[e] == a.rows[e].(parents := b.rows[e].parents)
  }

  lemma AsideJoins(a: Store, b: Store, c: Store)
    requires ParentsAside(a, b) && ParentsAside(b, c)
    ensures ParentsAside(a, c)
  {
  }

  lemma AsideReady(a: Store, b: Store, id: nat, job: Request)
    requires ParentsAside(a, b) && id < |a.threads| && JobReady(a, id, job)
    ensures id < |b.threads| && JobReady(b, id, job)
  {
    forall e | InThread(a, id, e) ensures InThread(b, id, e) {
    }
  }

  lemma JobAside(s: Store, id: nat, job: Request)
    requires id < |s.threads| && JobReady(s, id, job)
    ensures ParentsAside(s, Serve(s, job).0)
  {
    hide Serve;
    JobEffect(s, id, job);
  }

  lemma {:induction false} JobAttemptsAside(s: Store, fates: seq<Fate>, id: nat, job: Request, n: nat)
    requires id < |s.threads| && JobReady(s, id, job)
    ensures ParentsAside(s, StoreAfter(s, fates, job, n))
  {
    hide Serve, ParentsAside, JobReady;
    AsideSelf(s);
    if n > 0 {
      var before := StoreAfter(s, fates, job, n - 1);
      JobAttemptsAside(s, fates, id, job, n - 1);
      AsideReady(s, before, id, job);
      JobAside(before, id, job);
      AsideJoins(s, before, Serve(before, job).0);
    }
  }

  lemma AsideSelf(s: Store)
    ensures ParentsAside(s, s)
  {
  }

  lemma {:induction false} RunJobsAside(cfg: Config, st: State, id: nat, jobs: seq<Request>, order: seq<nat>)
    requires Live(cfg) && Ready(st.world.store, id, jobs) && Honest(st.world)
    requires forall k :: 0 <= k < |order| ==> order[k] < |jobs|
    ensures var r := RunJobs(cfg, st, jobs, order);
      ParentsAside(st.world.store, r.world.store) && Honest(r.world)
  {
    hide ParentsAside, JobReady, Serve, Honest, Rpc, LiveClient;
    var s := st.world.store;
    AsideSelf(s);
    if order != [] {
      var before, k := RunJobs(cfg, st, jobs, order[..|order| - 1]), order[|order| - 1];
      RunJobsAside(cfg, st, id, jobs, order[..|order| - 1]);
      AsideReady(s, before.world.store, id, jobs[k]);
      InvokeAside(cfg, before, id, jobs[k]);
      AsideJoins(s, before.world.store, RunJobs(cfg, st, jobs, order).world.store);
    }
  }

  lemma InvokeAside(cfg: Config, st: State, id: nat, job: Request)
    requires Live(cfg) && Honest(st.world)
    requires id < |st.world.store.threads| && JobReady(st.world.store, id, job)
    ensures var r := Invoke(cfg, st, job).0;
      ParentsAside(st.world.store, r.world.store) && Honest(r.world)
  {
    hide ParentsAside, JobReady, Serve, Honest, CallsMade;
    var policy :| cfg.client == LiveClient(policy);
    RpcHonest(policy, st.world, job);
    JobAttemptsAside(st.world.store, st.world.fates, id, job,
                     CallsMade(policy, Answering(st.world.store, st.world.fates, job), 1));
  }

  lemma RewirePassAside(cfg: Config, st: State, outcomes: seq<Outcome>, id: nat)
    requires Live(cfg) && Honest(st.world) && Ready(st.world.store, id, JobsOf(id, outcomes))
    ensures var r := RewirePass(cfg, st, outcomes, id);
      && ParentsAside(st.world.store, r.world.store) && Honest(r.world) && r.current == st.current
  {
    hide JobsOf, RunJobs, CountRewired, ParentsAside, Ready, CountCreated;
    var jobs := JobsOf(id, outcomes);
    var (schedule, world) := NextSchedule(st.world, |jobs|);
    var counted := CountOutcomes(st, outcomes).(world := world);
    assert Honest(world) && world.store == st.world.store;
    RunJobsAside(cfg, counted, id, jobs, schedule.exec);
  }

  lemma AsideAlike(a: Store, b: Store)
    requires ParentsAside(a, b)
    ensures Alike(a, b) && a.threads == b.threads
  {
  }

  lemma AsideReached(plan: Plan, a: Store, b: Store, p: nat)
    requires ParentsAside(a, b) && Reached(plan, a, p)
    ensures Reached(plan, b, p)
  {
    hide Alike, Latest, AddAll;
    AsideAlike(a, b);
    AlikeJoins(plan.At(p), a, b);
  }

  /** Links aside is no change of place on the path. */
  lemma AsideStays(plan: Plan, a: Store, b: Store, from: nat, memories: seq<Input>, labels: set<string>)
    requires ParentsAside(a, b)
    ensures OnPath(plan, a, from) ==> OnPath(plan, b, from)
    ensures Written(a.rows, memories) ==> Written(b.rows, memories)
    ensures Labelled(plan, a, labels) ==> Labelled(plan, b, labels)
  {
    hide Latest, Reached;
    if OnPath(plan, a, from) {
      var p :| from <= p && Reached(plan, a, p);
      AsideReached(plan, a, b, p);
    }
  }
}
