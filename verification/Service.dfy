/**
 What the service promises of its own accord, whoever calls it: exactly which
 batches it takes, whose rows it overwrites, what a granted update changes, and
 that threads and rows agree on who is attached to what.
 */
module Service {
  import opened Wrappers
  import opened Text
  import opened Store
  import opened Network
  import opened ImportRun
  import opened History
  import opened Path

  // Which batches are taken.

  ghost predicate Exists(threads: seq<Thread>, channel: string, userId: I64) {
    exists k :: 0 <= k < |threads| && threads[k].channel == channel && threads[k].userId == userId
  }

  /** Thread `t` is where a batch for this target goes: an existing one, or the next to be made. */
  ghost predicate Targets(s: Store, target: Target, t: nat) {
    match target
    case ExistingThread(id) => t == id && id < |s.threads|
    case Upsert(channel, userId) =>
      if t < |s.threads| then s.threads[t].channel == channel && s.threads[t].userId == userId
      else t == |s.threads| && !Exists(s.threads, channel, userId)
  }

  /** The owner of that thread. */
  ghost function OwnerOf(s: Store, target: Target, t: nat): I64
    requires Targets(s, target, t)
  {
    if t < |s.threads| then s.threads[t].userId else target.userId
  }

  /** The item may be inserted, or overwrite its row: the same user's, in the thread, and with the upsert flag. */
  ghost predicate MayWrite(s: Store, t: nat, upsert: bool, input: Input) {
    var e := Id(input);
    e in s.rows ==> upsert && s.rows[e].first.userId == input.memory.userId && t in s.rows[e].threads
  }

  ghost predicate WellMade(memories: seq<Input>) {
    && memories != []
    && (forall i, j :: 0 <= i < j < |memories| ==> Id(memories[i]) != Id(memories[j]))
    && (forall k :: 0 <= k < |memories| ==> memories[k].memory.userId != 0)
  }

  /** The batch's identity is one whose re-import is forbidden. */
  ghost predicate Forbidden(s: Store, batch: Batch) {
    exists identity :: identity in s.markers && batch.sourceIdentity == Some(identity) && identity.identityScope.Known?
  }

  ghost predicate TargetFits(s: Store, batch: Batch, t: nat) {
    && Targets(s, batch.target, t)
    && (batch.target.Upsert? ==>
      && batch.target.userId != 0 && batch.target.channel != ""
      && forall other :: Targets(s, batch.target, other) ==> other == t)
    && (batch.sourceIdentity.Some? ==> batch.sourceIdentity.value.userId == OwnerOf(s, batch.target, t))
    && forall k :: 0 <= k < |batch.memories| ==> MayWrite(s, t, batch.upsertByExternalId, batch.memories[k])
  }

  lemma {:induction false} ThreadsForAll(threads: seq<Thread>, channel: string, userId: I64, t: nat)
    ensures t in ThreadsFor(threads, channel, userId)
       <==> t < |threads| && threads[t].channel == channel && threads[t].userId == userId
  {
    if threads != [] {
      ThreadsForAll(threads[..|threads| - 1], channel, userId, t);
    }
  }

  lemma {:induction false} ThreadsForOnce(threads: seq<Thread>, channel: string, userId: I64, i: nat, j: nat)
    requires i < j < |ThreadsFor(threads, channel, userId)|
    ensures ThreadsFor(threads, channel, userId)[i] < ThreadsFor(threads, channel, userId)[j]
  {
    var n := |threads| - 1;
    var before := ThreadsFor(threads[..n], channel, userId);
    if j < |before| {
      ThreadsForOnce(threads[..n], channel, userId, i, j);
    } else {
      assert before[i] in before;
    }
  }

  /** Resolving a target finds the one thread it can mean, if there is one and it may be meant. */
  lemma ResolvesExactly(s: Store, target: Target, t: nat)
    ensures ResolveTarget(s, target).Ok? && ResolveTarget(s, target).value.1 == t <==>
      && Targets(s, target, t)
      && (target.Upsert? ==>
        && target.userId != 0 && target.channel != ""
        && forall other :: Targets(s, target, other) ==> other == t)
  {
    if target.Upsert? {
      hide ThreadsFor;
      var ids := ThreadsFor(s.threads, target.channel, target.userId);
      if |ids| > 1 {
        ThreadsForOnce(s.threads, target.channel, target.userId, 0, 1);
      }
      forall k: nat | k < |s.threads| {
        ThreadsForAll(s.threads, target.channel, target.userId, k);
      }
      ThreadsForAll(s.threads, target.channel, target.userId, t);
      if ids == [] {
        assert Targets(s, target, |s.threads|);
      } else {
        assert ids[0] in ids && Targets(s, target, ids[0]);
        if |ids| > 1 {
          assert ids[1] in ids && Targets(s, target, ids[1]) && ids[0] != ids[1];
        }
      }
    }
  }

  lemma ResolvedOwner(s: Store, target: Target)
    requires ResolveTarget(s, target).Ok?
    ensures var (ready, t, _) := ResolveTarget(s, target).value;
      && Targets(s, target, t) && ready.threads[t].userId == OwnerOf(s, target, t) && ready.rows == s.rows
  {
    hide ThreadsFor;
    ResolvesExactly(s, target, ResolveTarget(s, target).value.1);
  }

  lemma MayWriteAll(s: Store, t: nat, upsert: bool, memories: seq<Input>)
    ensures FirstCollision(s.rows, t, upsert, memories).None? <==>
      forall k :: 0 <= k < |memories| ==> MayWrite(s, t, upsert, memories[k])
  {
    hide FirstCollision;
    forall k | 0 <= k < |memories|
      ensures RowCollision(s.rows, t, upsert, memories[k]).None? <==> MayWrite(s, t, upsert, memories[k])
    {
    }
  }

  lemma MadeWell(memories: seq<Input>)
    ensures WellMade(memories) <==> !Malformed(memories)
  {
  }

  lemma ForbiddenIsSuppressed(s: Store, batch: Batch)
    ensures Forbidden(s, batch) <==> Suppressed(s, batch)
  {
  }

  /** Exactly when a batch is taken, when it is answered as suppressed, and when it is refused. */
  lemma TakenExactly(s: Store, batch: Batch)
    ensures var (s', reply) := AddBatch(s, batch);
      && (reply.Ok? && reply.value.reply.suppressed <==> WellMade(batch.memories) && Forbidden(s, batch))
      && (reply.Ok? && !reply.value.reply.suppressed <==>
          WellMade(batch.memories) && !Forbidden(s, batch) && exists t :: TargetFits(s, batch, t))
      && (reply.Ok? && !reply.value.reply.suppressed ==>
          reply.value.reply.threadId.Some? && TargetFits(s, batch, reply.value.reply.threadId.value))
      && (reply.Err? || reply.value.reply.suppressed ==> s' == s)
  {
    hide ThreadsFor, FirstCollision, Malformed, WellMade, Suppressed, Forbidden, Outcomes, Commit, Targets;
    MadeWell(batch.memories);
    ForbiddenIsSuppressed(s, batch);
    if ResolveTarget(s, batch.target).Ok? {
      var t := ResolveTarget(s, batch.target).value.1;
      ResolvedOwner(s, batch.target);
      ResolvesExactly(s, batch.target, t);
      MayWriteAll(s, t, batch.upsertByExternalId, batch.memories);
      assert Admit(s, batch).Ok? ==> TargetFits(s, batch, t);
    }
    forall t | TargetFits(s, batch, t) ensures Admit(s, batch).Ok? {
      ResolvesExactly(s, batch.target, t);
      ResolvedOwner(s, batch.target);
      MayWriteAll(s, t, batch.upsertByExternalId, batch.memories);
    }
  }

  // Whose rows are written.

  /** A row whose content a batch changes is its user's, in its thread, and named by an item with the upsert flag. */
  lemma OverwritesOwnOnly(s: Store, batch: Batch, e: string)
    requires e in s.rows
    ensures var (s', reply) := AddBatch(s, batch);
      && e in s'.rows && s'.rows[e].parents == s.rows[e].parents && s'.rows[e].threads == s.rows[e].threads
      && (s'.rows[e].content != s.rows[e].content ==>
          && reply.Ok? && reply.value.reply.threadId.Some?
          && exists k :: 0 <= k < |batch.memories| && Id(batch.memories[k]) == e
               && MayWrite(s, reply.value.reply.threadId.value, batch.upsertByExternalId, batch.memories[k]))
  {
    hide AddAll, ThreadsFor, FirstCollision, Malformed, Suppressed, Outcomes, ResolveTarget;
    if !Malformed(batch.memories) && !Suppressed(s, batch) && Admit(s, batch).Ok? {
      var (ready, t, _) := Admit(s, batch).value;
      var known := Attached(ready.rows, t);
      MayWriteAll(s, t, batch.upsertByExternalId, batch.memories);
      WritesNamed(ready, t, known, Ids(batch.memories), batch.memories, e);
    }
  }

  lemma {:induction false} WritesNamed(
      s: Store, id: nat, attached: set<string>, batch: set<string>, memories: seq<Input>, e: string)
    requires id < |s.threads| && e in s.rows
    ensures var rows := AddAll(s, id, attached, batch, memories).rows;
      && e in rows && rows[e].parents == s.rows[e].parents && rows[e].threads == s.rows[e].threads
      && (rows[e].content != s.rows[e].content ==> exists k :: 0 <= k < |memories| && Id(memories[k]) == e)
  {
    if memories != [] {
      hide ParentsOf;
      var n := |memories| - 1;
      WritesNamed(s, id, attached, batch, memories[..n], e);
      assert forall k :: 0 <= k < n ==> memories[..n][k] == memories[k];
    }
  }

  // Threads and rows agree.

  ghost predicate Lists(s: Store, t: nat)
    requires t < |s.threads|
  {
    var members := s.threads[t].members;
    && (forall i, j :: 0 <= i < j < |members| ==> members[i] != members[j])
    && (forall e :: e in members <==> InThread(s, t, e))
  }

  /** A thread lists, once each, exactly the rows that are attached to it, and there are no other threads. */
  ghost predicate Consistent(s: Store) {
    && (forall t :: 0 <= t < |s.threads| ==> Lists(s, t))
    && (forall e, t :: e in s.rows && t in s.rows[e].threads ==> t < |s.threads|)
  }

  lemma ListsOneMore(s: Store, s': Store, t: nat, e: string)
    requires t < |s.threads| == |s'.threads| && Lists(s, t) && !InThread(s, t, e)
    requires s'.threads[t].members == s.threads[t].members + [e]
    requires forall f :: InThread(s', t, f) <==> InThread(s, t, f) || f == e
    ensures Lists(s', t)
  {
    var members := s.threads[t].members;
    assert e !in members;
    assert forall i :: 0 <= i < |members| ==> members[i] in members;
  }

  lemma AddOneConsistent(s: Store, id: nat, known: set<string>, batch: set<string>, input: Input)
    requires Consistent(s) && id < |s.threads|
    ensures Consistent(AddOne(s, id, known, batch, input))
  {
    hide ParentsOf;
    var r := AddOne(s, id, known, batch, input);
    forall t | 0 <= t < |r.threads| ensures Lists(r, t) {
      assert Lists(s, t);
      if Id(input) !in s.rows && t == id {
        ListsOneMore(s, r, t, Id(input));
      }
    }
  }

  lemma {:induction false} AddAllConsistent(
      s: Store, id: nat, attached: set<string>, batch: set<string>, memories: seq<Input>)
    requires Consistent(s) && id < |s.threads|
    ensures Consistent(AddAll(s, id, attached, batch, memories))
  {
    if memories != [] {
      hide Consistent, AddOne;
      var n := |memories| - 1;
      AddAllConsistent(s, id, attached, batch, memories[..n]);
      AddOneConsistent(AddAll(s, id, attached, batch, memories[..n]), id, attached + Ids(memories[..n]), batch,
                       memories[n]);
    }
  }

  lemma AttachConsistent(s: Store, id: nat, e: string)
    requires Consistent(s) && id < |s.threads|
    ensures Consistent(Attach(s, id, e))
  {
    var r := Attach(s, id, e);
    forall t | 0 <= t < |r.threads| ensures Lists(r, t) {
      assert Lists(s, t);
      if e in s.rows && id !in s.rows[e].threads && t == id {
        ListsOneMore(s, r, t, e);
      }
    }
  }

  lemma {:induction false} AttachAllConsistent(s: Store, id: nat, es: seq<string>)
    requires Consistent(s) && id < |s.threads|
    ensures Consistent(AttachAll(s, id, es))
  {
    if es != [] {
      hide Consistent, Attach;
      AttachAllConsistent(s, id, es[..|es| - 1]);
      AttachConsistent(AttachAll(s, id, es[..|es| - 1]), id, es[|es| - 1]);
    }
  }

  /** Neither links nor labels nor an empty new thread matter for it. */
  lemma SameListing(s: Store, s': Store)
    requires Consistent(s) && s'.rows.Keys == s.rows.Keys && |s.threads| <= |s'.threads|
    requires forall e :: e in s.rows ==> s'.rows[e].threads == s.rows[e].threads
    requires forall t :: 0 <= t < |s'.threads| ==>
      s'.threads[t].members == if t < |s.threads| then s.threads[t].members else []
    ensures Consistent(s')
  {
    forall t | 0 <= t < |s'.threads| ensures Lists(s', t) {
      assert t < |s.threads| ==> Lists(s, t);
    }
  }

  /** Every request keeps threads and rows in agreement. */
  lemma ServeKeepsConsistent(s: Store, request: Request)
    requires Consistent(s)
    ensures Consistent(Serve(s, request).0)
  {
    hide Consistent, AddAll, AttachAll, ThreadsFor, Existing, Lists;
    match request {
      case AddMemoriesBatch(batch) => BatchKeepsConsistent(s, batch);
      case UpdateMemoryParents(id, e, parents) =>
        if id < |s.threads| && e in s.rows && id in s.rows[e].threads && Rewirable(s.rows, e) {
          var valid := Existing(s.rows, parents);
          var linked := s.(rows := s.rows[e := s.rows[e].(parents := valid)]);
          SameListing(s, linked);
          AttachAllConsistent(linked, id, valid);
        }
      case AddLabels(id, labels) =>
        if id < |s.threads| {
          SameListing(s, LabelThread(s, id, labels));
        }
      case _ =>
    }
  }

  lemma BatchKeepsConsistent(s: Store, batch: Batch)
    requires Consistent(s)
    ensures Consistent(AddBatch(s, batch).0)
  {
    hide Consistent, AddAll, ThreadsFor, Lists, FirstCollision, Malformed, Suppressed, Outcomes;
    if !Malformed(batch.memories) && !Suppressed(s, batch) && Admit(s, batch).Ok? {
      var (ready, t, _) := Admit(s, batch).value;
      var added := AddAll(ready, t, Attached(ready.rows, t), Ids(batch.memories), batch.memories);
      SameListing(s, ready);
      AddAllConsistent(ready, t, Attached(ready.rows, t), Ids(batch.memories), batch.memories);
      SameListing(added, LabelThread(added, t, batch.labels));
    }
  }

  lemma {:induction false} TakenKeepsConsistent(s: Store, request: Request, times: nat)
    requires Consistent(s)
    ensures Consistent(Taken(s, request, times))
  {
    hide Consistent, Serve;
    if times > 0 {
      TakenKeepsConsistent(s, request, times - 1);
      ServeKeepsConsistent(Taken(s, request, times - 1), request);
    }
  }

  lemma {:induction false} ReplayKeepsConsistent(s: Store, log: seq<Exchange>, s': Store)
    requires Consistent(s) && Replays(s, log, s')
    ensures Consistent(s')
    decreases |log|
  {
    hide Consistent, Taken;
    if log != [] {
      var n := |log| - 1;
      var before :| Replays(s, log[..n], before) && TakesTo(before, log[n].request, s');
      var times :| Taken(before, log[n].request, times) == s';
      ReplayKeepsConsistent(s, log[..n], before);
      TakenKeepsConsistent(before, log[n].request, times);
    }
  }

  /** So does every run, whatever the network does to its requests and answers. */
  lemma RunKeepsConsistent(cfg: Config, w: World, items: seq<StreamItem>, filtered: nat)
    requires Live(cfg) && Consistent(w.store)
    ensures Consistent(RunStreaming(cfg, w, items, filtered).world.store)
  {
    hide RunStreaming, Consistent, Live, Evolves, Replays, Delivered;
    RunEvolves(cfg, w, items, filtered);
    var r := RunStreaming(cfg, w, items, filtered);
    ReplayKeepsConsistent(w.store, r.log, r.world.store);
  }

  /** The ids among the items' that are new, in order. */
  ghost function NewIds(keys: set<string>, memories: seq<Input>): seq<string> {
    if memories == [] then []
    else
      var n := |memories| - 1;
      NewIds(keys, memories[..n])
      + if Id(memories[n]) in keys || Id(memories[n]) in Ids(memories[..n]) then [] else [Id(memories[n])]
  }

  lemma {:induction false} AddAllAppends(
      s: Store, id: nat, attached: set<string>, batch: set<string>, memories: seq<Input>)
    requires id < |s.threads|
    ensures AddAll(s, id, attached, batch, memories).threads[id].members
         == s.threads[id].members + NewIds(s.rows.Keys, memories)
  {
    if memories != [] {
      hide ParentsOf;
      var n := |memories| - 1;
      AddAllAppends(s, id, attached, batch, memories[..n]);
      AddAllKeys(s, id, attached, batch, memories[..n]);
    }
  }

  /** A taken batch appends its new rows to its thread, in request order. */
  lemma TakenAppends(s: Store, batch: Batch)
    requires AddBatch(s, batch).1.Ok? && !AddBatch(s, batch).1.value.reply.suppressed
    ensures var (s', reply) := (AddBatch(s, batch).0, AddBatch(s, batch).1.value.reply);
      && reply.threadId.Some? && reply.threadId.value < |s'.threads|
      && var t := reply.threadId.value;
         s'.threads[t].members
         == (if t < |s.threads| then s.threads[t].members else []) + NewIds(s.rows.Keys, batch.memories)
  {
    hide AddAll, ThreadsFor, FirstCollision, Malformed, Suppressed, Outcomes, NewIds;
    var (ready, t, _) := Admit(s, batch).value;
    AddAllAppends(ready, t, Attached(ready.rows, t), Ids(batch.memories), batch.memories);
  }

  // What a granted update changes.

  lemma {:induction false} ExistingJoins(rows: map<string, Row>, a: seq<string>, b: seq<string>)
    ensures Existing(rows, a + b) == Existing(rows, a) + Existing(rows, b)
    ensures forall p :: p in Existing(rows, b) <==> p in b && p in rows
  {
    if b == [] {
      assert a + b == a;
    } else {
      var n := |b| - 1;
      ExistingJoins(rows, a, b[..n]);
      assert (a + b)[..|a + b| - 1] == a + b[..n];
      assert b == b[..n] + [b[n]];
    }
  }

  lemma {:induction false} AttachAllAttaches(s: Store, id: nat, es: seq<string>)
    requires id < |s.threads|
    ensures var r := AttachAll(s, id, es);
      && r.rows.Keys == s.rows.Keys
      && forall e :: e in s.rows ==>
           r.rows[e] == s.rows[e].(threads := s.rows[e].threads + if e in es then {id} else {})
  {
    if es == [] {
      forall e | e in s.rows ensures s.rows[e].threads + {} == s.rows[e].threads {
      }
    } else {
      var n := |es| - 1;
      AttachAllAttaches(s, id, es[..n]);
      assert es == es[..n] + [es[n]];
      AttachOne(AttachAll(s, id, es[..n]), id, es[n]);
    }
  }

  lemma AttachOne(s: Store, id: nat, e: string)
    requires id < |s.threads|
    ensures var r := Attach(s, id, e);
      && r.rows.Keys == s.rows.Keys
      && forall f :: f in s.rows ==>
           r.rows[f] == s.rows[f].(threads := s.rows[f].threads + if f == e then {id} else {})
  {
    forall f | f in s.rows && (f != e || id in s.rows[f].threads)
      ensures s.rows[f].(threads := s.rows[f].threads + if f == e then {id} else {}) == s.rows[f]
    {
      assert s.rows[f].threads + (if f == e then {id} else {}) == s.rows[f].threads;
    }
  }

  /**
   An update is granted exactly for a parentless row of the thread that is in no other;
   it links the row to the parents that exist, attaches those to the thread, and
   changes nothing else about any row.
   */
  lemma UpdateExactly(s: Store, id: nat, e: string, parents: seq<string>)
    ensures var (s', reply) := UpdateParents(s, id, e, parents);
      && (reply == Ok(ParentsDone(true)) <==>
          id < |s.threads| && e in s.rows && s.rows[e].threads == {id} && s.rows[e].parents == [])
      && (reply != Ok(ParentsDone(true)) ==> s' == s)
      && (reply == Ok(ParentsDone(true)) ==>
          && s'.rows.Keys == s.rows.Keys
          && s'.rows[e].parents == Existing(s.rows, parents)
          && forall f :: f in s.rows ==>
               && s'.rows[f].first == s.rows[f].first && s'.rows[f].content == s.rows[f].content
               && s'.rows[f].threads == s.rows[f].threads + (if f in parents then {id} else {})
               && (f != e ==> s'.rows[f].parents == s.rows[f].parents))
  {
    hide AttachAll, Existing;
    if id < |s.threads| && e in s.rows && id in s.rows[e].threads {
      if |s.rows[e].threads| == 1 {
        OneThread(s.rows[e].threads, id);
      }
      if Rewirable(s.rows, e) {
        var valid := Existing(s.rows, parents);
        ExistingJoins(s.rows, [], parents);
        AttachAllAttaches(s.(rows := s.rows[e := s.rows[e].(parents := valid)]), id, valid);
      }
    }
  }

  lemma OneThread(threads: set<nat>, id: nat)
    requires |threads| == 1 && id in threads
    ensures threads == {id}
  {
    assert |threads - {id}| == 0;
    assert threads == {id} + (threads - {id});
  }

  // Labels.

  /** The labels are on the thread, on top of those it had; no other thread's and no row change. */
  ghost predicate LabelsAdded(s: Store, s': Store, id: nat, labels: seq<string>) {
    && id < |s.threads| == |s'.threads| && s'.rows == s.rows
    && (forall l :: l in s'.threads[id].labels <==> l in s.threads[id].labels || l in labels)
    && s'.threads[id].members == s.threads[id].members
    && forall t :: 0 <= t < |s.threads| && t != id ==> s'.threads[t] == s.threads[t]
  }

  lemma LabelsExactlyAdded(s: Store, id: nat, labels: seq<string>)
    ensures var (s', reply) := Serve(s, AddLabels(id, labels));
      && (reply.Ok? <==> id < |s.threads|)
      && (if reply.Ok? then LabelsAdded(s, s', id, labels) else s' == s)
  {
  }

  /** The thread a request's labels go to by its answer, and the labels. */
  ghost function LabelsOf(x: Exchange): Option<(nat, seq<string>)> {
    if x.reply.Err? then None
    else match x.request
      case AddLabels(id, labels) => Some((id, labels))
      case AddMemoriesBatch(batch) =>
        if !x.reply.value.BatchDone? || x.reply.value.reply.threadId.None? then None
        else Some((x.reply.value.reply.threadId.value, batch.labels))
      case _ => None
  }

  ghost predicate HasLabels(s: Store, id: nat, labels: seq<string>) {
    id < |s.threads| && forall l :: l in labels ==> l in s.threads[id].labels
  }

  lemma ServeLabels(s: Store, x: Exchange)
    requires x.reply == Serve(s, x.request).1 && LabelsOf(x).Some?
    ensures HasLabels(Serve(s, x.request).0, LabelsOf(x).value.0, LabelsOf(x).value.1)
  {
    hide AddAll, ThreadsFor, FirstCollision, Malformed, Suppressed, Outcomes;
    if x.request.AddLabels? {
      LabelsExactlyAdded(s, x.request.toThread, x.request.labels);
    }
  }

  lemma {:induction false} ServedEvolves(s: Store, log: seq<Exchange>)
    ensures Evolves(s, ServedStore(s, log))
  {
    hide Evolves, Serve;
    if log == [] {
      StaysEvolves(s);
    } else {
      var before := ServedStore(s, log[..|log| - 1]);
      ServedEvolves(s, log[..|log| - 1]);
      ServeEvolves(before, log[|log| - 1].request);
      EvolvesTransitive(s, before, ServedStore(s, log));
    }
  }

  /** Labels that were acknowledged once are on their thread at the end. */
  lemma LabelsStick(s: Store, log: seq<Exchange>, s': Store, k: nat)
    requires Delivered(s, log, s') && k < |log| && LabelsOf(log[k]).Some?
    ensures HasLabels(s', LabelsOf(log[k]).value.0, LabelsOf(log[k]).value.1)
  {
    hide Serve, Evolves, LabelsOf;
    var before, after := ServedStore(s, log[..k]), ServedStore(s, log[..k + 1]);
    assert log[..k + 1][..k] == log[..k];
    ServeLabels(before, log[k]);
    assert log[..k + 1] + log[k + 1..] == log;
    ServedInTwo(s, log[..k + 1], log[k + 1..]);
    ServedEvolves(after, log[k + 1..]);
    EvolvesKeepsLabels(after, s', LabelsOf(log[k]).value.0, LabelsOf(log[k]).value.1);
  }

  lemma EvolvesKeepsLabels(s: Store, s': Store, id: nat, labels: seq<string>)
    requires Evolves(s, s') && HasLabels(s, id, labels)
    ensures HasLabels(s', id, labels)
  {
  }
}
