/**
 Resending one batch. With the upsert flag a batch that was taken is a no-op the
 second time; without it the second time is refused and nothing is written.
 */
module Resend {
  import opened Wrappers
  import opened Retry
  import opened Store
  import opened Rewire
  import opened Path

  /** Every item's row is there and holds the item's content. */
  ghost predicate Holds(rows: map<string, Row>, memories: seq<Input>) {
    forall k :: 0 <= k < |memories| ==>
      Id(memories[k]) in rows && rows[Id(memories[k])].content == memories[k].memory.content
  }

  lemma {:induction false} AddHeld(s: Store, id: nat, known: set<string>, batch: set<string>, memories: seq<Input>)
    requires id < |s.threads| && Holds(s.rows, memories)
    ensures AddAll(s, id, known, batch, memories) == s
  {
    if memories != [] {
      var n := |memories| - 1;
      assert forall k :: 0 <= k < n ==> memories[..n][k] == memories[k];
      AddHeld(s, id, known, batch, memories[..n]);
      var e := Id(memories[n]);
      assert s.rows[e].(content := memories[n].memory.content) == s.rows[e];
      assert s.rows[e := s.rows[e]] == s.rows;
    }
  }

  lemma {:induction false} LatestOfDistinct(memories: seq<Input>, k: nat)
    requires Distinct(memories) && k < |memories|
    ensures Latest(memories, Id(memories[k])) == Some(memories[k].memory.content)
  {
    var n := |memories| - 1;
    if k < n {
      assert Id(memories[k]) != Id(memories[n]);
      LatestOfDistinct(memories[..n], k);
    }
  }

  lemma WrittenHolds(rows: map<string, Row>, memories: seq<Input>)
    requires Distinct(memories) && Written(rows, memories)
    ensures Holds(rows, memories)
  {
    hide Latest;
    forall k | 0 <= k < |memories|
      ensures Id(memories[k]) in rows && rows[Id(memories[k])].content == memories[k].memory.content
    {
      LatestOfDistinct(memories, k);
    }
  }

  /** A row is what it was, or what the item that is for it inserted. */
  lemma {:induction false} AddAllFirst(
      s: Store, id: nat, known: set<string>, batch: set<string>, memories: seq<Input>, k: nat)
    requires id < |s.threads| && Distinct(memories) && k < |memories|
    ensures var e, rows := Id(memories[k]), AddAll(s, id, known, batch, memories).rows;
      e in rows && rows[e].first == if e in s.rows then s.rows[e].first else memories[k].memory
  {
    hide AddOne, AddAll;
    var n := |memories| - 1;
    var before := AddAll(s, id, known, batch, memories[..n]);
    AddAllLast(s, id, known, batch, memories);
    AddOneFirst(before, id, known + Ids(memories[..n]), batch, memories[n]);
    if k < n {
      assert memories[..n][k] == memories[k];
      AddAllFirst(s, id, known, batch, memories[..n], k);
    } else {
      var e := Id(memories[n]);
      AddAllKeys(s, id, known, batch, memories[..n]);
      NotBefore(memories);
      AddAllEvolves(s, id, known, batch, memories[..n]);
      assert e in s.rows ==> RowEvolves(s.rows[e], before.rows[e]);
    }
  }

  lemma NotBefore(memories: seq<Input>)
    requires Distinct(memories) && memories != []
    ensures Id(memories[|memories| - 1]) !in Ids(memories[..|memories| - 1])
  {
    var n := |memories| - 1;
    assert forall j :: 0 <= j < n ==> memories[..n][j] == memories[j];
  }

  lemma AddOneFirst(s: Store, id: nat, known: set<string>, batch: set<string>, input: Input)
    requires id < |s.threads|
    ensures var rows := AddOne(s, id, known, batch, input).rows;
      && (forall e :: e in s.rows ==> e in rows && rows[e].first == s.rows[e].first)
      && Id(input) in rows && (Id(input) !in s.rows ==> rows[Id(input)].first == input.memory)
  {
    hide ParentsOf;
  }

  /** The thread the batch went to is where it would go again. */
  lemma TargetAgain(s: Store, batch: Batch, ready: Store, id: nat, created: bool)
    requires Admit(s, batch) == Ok((ready, id, created))
    ensures var s' := Commit(ready, id, batch);
      && ResolveTarget(s', batch.target) == Ok((s', id, false))
      && s'.threads[id].userId == ready.threads[id].userId
      && s'.markers == s.markers
  {
    hide AddAll;
    var known, ids := Attached(ready.rows, id), Ids(batch.memories);
    var s' := Commit(ready, id, batch);
    AddAllThreads(ready, id, known, ids, batch.memories);
    if batch.target.Upsert? {
      var channel, userId := batch.target.channel, batch.target.userId;
      SameThreadsFor(ready.threads, s'.threads, channel, userId);
      assert (s.threads + [Thread(userId, channel, {}, [])])[..|s.threads|] == s.threads;
    }
  }

  lemma CollidesWithNothing(s: Store, batch: Batch, ready: Store, id: nat, created: bool)
    requires Admit(s, batch) == Ok((ready, id, created)) && batch.upsertByExternalId && Distinct(batch.memories)
    ensures FirstCollision(Commit(ready, id, batch).rows, id, true, batch.memories) == None
  {
    hide AddAll, ResolveTarget;
    var rows := Commit(ready, id, batch).rows;
    CommitInThread(s, batch, ready, id, created);
    forall k | 0 <= k < |batch.memories| ensures RowCollision(rows, id, true, batch.memories[k]).None? {
      assert RowCollision(s.rows, id, true, batch.memories[k]).None?;
      AddAllFirst(ready, id, Attached(ready.rows, id), Ids(batch.memories), batch.memories, k);
      assert InThread(Commit(ready, id, batch), id, Id(batch.memories[k]));
    }
  }

  /** A batch that was taken changes nothing when it is taken again. */
  lemma ResentUpsertIsNoOp(s: Store, batch: Batch)
    requires batch.upsertByExternalId
    requires AddBatch(s, batch).1.Ok? && !AddBatch(s, batch).1.value.reply.suppressed
    ensures var (once, first) := AddBatch(s, batch);
      var (twice, second) := AddBatch(once, batch);
      && twice == once
      && second.Ok? && second.value.reply.threadId == first.value.reply.threadId
      && !second.value.reply.suppressed && !second.value.reply.threadCreated
      && forall k :: 0 <= k < |second.value.reply.outcomes| ==> !second.value.reply.outcomes[k].created
  {
    hide AddAll, Commit, ResolveTarget, FirstCollision, Written, Holds, InThread;
    var (ready, id, created) := Admit(s, batch).value;
    var once := Commit(ready, id, batch);
    TargetAgain(s, batch, ready, id, created);
    CollidesWithNothing(s, batch, ready, id, created);
    CommitHeld(ready, id, batch);
    CommitKeys(ready, id, batch);
  }

  lemma CommitKeys(ready: Store, id: nat, batch: Batch)
    requires id < |ready.threads|
    ensures forall k :: 0 <= k < |batch.memories| ==> Id(batch.memories[k]) in Commit(ready, id, batch).rows
  {
    hide AddAll;
    AddAllKeys(ready, id, Attached(ready.rows, id), Ids(batch.memories), batch.memories);
  }

  lemma CommitHeld(ready: Store, id: nat, batch: Batch)
    requires id < |ready.threads| && Distinct(batch.memories)
    ensures id < |Commit(ready, id, batch).threads|
    ensures Commit(Commit(ready, id, batch), id, batch) == Commit(ready, id, batch)
  {
    hide AddAll, Written, Holds;
    var known, ids := Attached(ready.rows, id), Ids(batch.memories);
    var once := Commit(ready, id, batch);
    AddAllWrites(ready, id, known, ids, batch.memories);
    WrittenHolds(once.rows, batch.memories);
    AddHeld(once, id, Attached(once.rows, id), ids, batch.memories);
    LabelTwice(AddAll(ready, id, known, ids, batch.memories), id, batch.labels);
  }

  lemma LabelTwice(s: Store, id: nat, labels: seq<string>)
    requires id < |s.threads|
    ensures LabelThread(LabelThread(s, id, labels), id, labels) == LabelThread(s, id, labels)
  {
    hide LabelSet;
    var once := LabelThread(s, id, labels);
    assert once.threads[id].labels + LabelSet(labels) == once.threads[id].labels;
    assert LabelThread(once, id, labels).threads == once.threads;
  }

  /** Insert-only, the resend is refused as already existing, and writes nothing. */
  lemma ResentInsertIsRefused(s: Store, batch: Batch)
    requires !batch.upsertByExternalId
    requires AddBatch(s, batch).1.Ok? && !AddBatch(s, batch).1.value.reply.suppressed
    ensures var once := AddBatch(s, batch).0;
      AddBatch(once, batch) == (once, Err(Refusal(AlreadyExists)))
  {
    hide AddAll, Commit, ResolveTarget;
    var (ready, id, created) := Admit(s, batch).value;
    var once := Commit(ready, id, batch);
    TargetAgain(s, batch, ready, id, created);
    CommitKeys(ready, id, batch);
    assert RowCollision(once.rows, id, false, batch.memories[0]) == Some(AlreadyExists);
  }
}
