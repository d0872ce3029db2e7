/**
 The memory service the importer writes to: its rows and threads, and what each
 RPC does to them. The unique external-id index makes the external id a key, so
 rows are kept, and memory ids written, by external id.
 */
module Store {
  import opened Wrappers
  import opened Text
  import opened Retry
  import opened Canonical
  import opened CanonicalKey

  /** `first` is the row as inserted; a later upsert overwrites `content` only. */
  datatype Row = Row(first: MemoryData, content: string, parents: seq<string>, threads: set<nat>)

  datatype Thread = Thread(userId: I64, channel: string, labels: set<string>, members: seq<string>)

  /** A thread's id is its index. `markers` are the identities whose re-import is forbidden. */
  datatype Store = Store(rows: map<string, Row>, threads: seq<Thread>, markers: set<SourceIdentity>)

  datatype Target = ExistingThread(id: nat) | Upsert(channel: string, userId: I64)

  datatype Input = Input(memory: MemoryData, parentExternalIds: seq<string>)

  datatype Batch = Batch(
    target: Target, memories: seq<Input>, upsertByExternalId: bool,
    labels: seq<string>, sourceIdentity: Option<SourceIdentity>)

  datatype Outcome = Outcome(
    memoryId: Option<string>, created: bool, existingParentIdsEmpty: bool, resolvedParentIds: seq<string>)

  datatype BatchReply = BatchReply(
    threadId: Option<nat>, threadCreated: bool, outcomes: seq<Outcome>, suppressed: bool)

  /** What an exact lookup returns; every layer of the message may be missing. */
  datatype FoundMemory = FoundMemory(
    hasMemory: bool, hasData: bool, externalId: Option<string>, userId: Option<I64>,
    threadIds: set<nat>, memoryId: Option<string>, parentIdsEmpty: bool)

  datatype Request =
    | AddMemoriesBatch(batch: Batch)
    | UpdateMemoryParents(threadId: nat, memoryId: string, parentIds: seq<string>)
    | AddLabels(toThread: nat, labels: seq<string>)
    | RecordObservations(subjectThread: nat, subject: SourceIdentity)
    | FindMemory(externalId: string)
    | FindThread(channel: string, userId: I64)

  datatype Response =
    | BatchDone(reply: BatchReply)
    | ParentsDone(rewired: bool)
    | LabelsDone
    | RecordDone
    | MemoryFound(found: Option<FoundMemory>)
    | ThreadFound(thread: Option<nat>)

  type Reply = Result<Response, Status>

  predicate IsWrite(request: Request) {
    !request.FindMemory? && !request.FindThread?
  }

  /** The response is of the kind the request is answered with. */
  predicate Answers(request: Request, response: Response) {
    match request
    case AddMemoriesBatch(_) => response.BatchDone?
    case UpdateMemoryParents(_, _, _) => response.ParentsDone?
    case AddLabels(_, _) => response.LabelsDone?
    case RecordObservations(_, _) => response.RecordDone?
    case FindMemory(_) => response.MemoryFound?
    case FindThread(_, _) => response.ThreadFound?
  }

  function Refusal(code: Code): Status {
    Status(code, "")
  }

  /** The threads of a user's channel, oldest first. */
  function ThreadsFor(threads: seq<Thread>, channel: string, userId: I64): (ids: seq<nat>)
    ensures forall id :: id in ids ==>
      id < |threads| && threads[id].channel == channel && threads[id].userId == userId
  {
    if threads == [] then []
    else
      var n := |threads| - 1;
      var before := ThreadsFor(threads[..n], channel, userId);
      if threads[n].channel == channel && threads[n].userId == userId then before + [n] else before
  }

  function Id(input: Input): string {
    input.memory.externalId
  }

  function Ids(memories: seq<Input>): (ids: set<string>)
    ensures forall k :: 0 <= k < |memories| ==> Id(memories[k]) in ids
    ensures forall id :: id in ids ==> exists k :: 0 <= k < |memories| && Id(memories[k]) == id
  {
    set k | 0 <= k < |memories| :: Id(memories[k])
  }

  predicate Distinct(memories: seq<Input>) {
    forall i, j :: 0 <= i < j < |memories| ==> Id(memories[i]) != Id(memories[j])
  }

  /** The memories attached to a thread. */
  function Attached(rows: map<string, Row>, id: nat): set<string> {
    set e | e in rows && id in rows[e].threads
  }

  /** Parent references that are known, in order, each once. */
  function Known(known: set<string>, parents: seq<string>): (r: seq<string>)
    ensures forall p :: p in r <==> p in parents && p in known
  {
    if parents == [] then []
    else
      var last := parents[|parents| - 1];
      var before := Known(known, parents[..|parents| - 1]);
      assert parents == parents[..|parents| - 1] + [last];
      if last in known && last !in before then before + [last] else before
  }

  /** References resolved on the way, then those to later items of the same batch. */
  function ParentsOf(known: set<string>, batch: set<string>, input: Input): seq<string> {
    Known(known, input.parentExternalIds) + Known(batch - known, input.parentExternalIds)
  }

  /** One item of an accepted batch: overwrite the content, or insert and attach. */
  function AddOne(s: Store, id: nat, known: set<string>, batch: set<string>, input: Input): Store
    requires id < |s.threads|
  {
    var e := Id(input);
    if e in s.rows then
      s.(rows := s.rows[e := s.rows[e].(content := input.memory.content)])
    else
      var t := s.threads[id];
      s.(rows := s.rows[e := Row(input.memory, input.memory.content, ParentsOf(known, batch, input), {id})],
         threads := s.threads[id := t.(members := t.members + [e])])
  }

  /** The items in order; each sees the thread's memories and the items before it. */
  function AddAll(s: Store, id: nat, attached: set<string>, batch: set<string>, memories: seq<Input>): (r: Store)
    requires id < |s.threads|
    ensures |r.threads| == |s.threads|
  {
    if memories == [] then s
    else
      var n := |memories| - 1;
      AddOne(AddAll(s, id, attached, batch, memories[..n]), id, attached + Ids(memories[..n]), batch, memories[n])
  }

  function OutcomeOf(rows: map<string, Row>, known: set<string>, batch: set<string>, input: Input): Outcome {
    var e := Id(input);
    if e in rows then
      Outcome(Some(e), false, rows[e].parents == [], Known(known, input.parentExternalIds))
    else
      Outcome(Some(e), true, false, ParentsOf(known, batch, input))
  }

  function Outcomes(rows: map<string, Row>, attached: set<string>, memories: seq<Input>): (r: seq<Outcome>)
    ensures |r| == |memories|
  {
    seq(|memories|, k requires 0 <= k < |memories| =>
      OutcomeOf(rows, attached + Ids(memories[..k]), Ids(memories), memories[k]))
  }

  function LabelSet(labels: seq<string>): set<string> {
    set l | l in labels
  }

  function LabelThread(s: Store, id: nat, labels: seq<string>): Store
    requires id < |s.threads|
  {
    var t := s.threads[id];
    s.(threads := s.threads[id := t.(labels := t.labels + LabelSet(labels))])
  }

  /** The store once the batch's thread exists, the thread, and whether it is new. */
  function ResolveTarget(s: Store, target: Target): (r: Result<(Store, nat, bool), Status>)
    ensures r.Ok? ==> r.value.1 < |r.value.0.threads| && r.value.0.rows == s.rows
  {
    match target
    case ExistingThread(id) =>
      if id < |s.threads| then Ok((s, id, false)) else Err(Refusal(NotFound))
    case Upsert(channel, userId) =>
      if userId == 0 || channel == "" then Err(Refusal(InvalidArgument))
      else
        var ids := ThreadsFor(s.threads, channel, userId);
        if ids == [] then
          Ok((s.(threads := s.threads + [Thread(userId, channel, {}, [])]), |s.threads|, true))
        else if |ids| == 1 then
          assert ids[0] in ids;
          Ok((s, ids[0], false))
        else Err(Refusal(FailedPrecondition))
  }

  /** Why an existing row refuses the item that carries its external id. */
  function RowCollision(rows: map<string, Row>, id: nat, upsert: bool, input: Input): Option<Code> {
    var e := Id(input);
    if e !in rows then None
    else if !upsert then Some(AlreadyExists)
    else if rows[e].first.userId != input.memory.userId || id !in rows[e].threads then Some(FailedPrecondition)
    else None
  }

  /** A forbidden deletion marker stands on the batch's identity. */
  predicate Suppressed(s: Store, batch: Batch) {
    && batch.sourceIdentity.Some?
    && batch.sourceIdentity.value.identityScope.Known?
    && batch.sourceIdentity.value in s.markers
  }

  predicate Malformed(memories: seq<Input>) {
    || memories == []
    || !Distinct(memories)
    || exists k :: 0 <= k < |memories| && memories[k].memory.userId == 0
  }

  /** The store, thread and thread-is-new flag an unsuppressed batch is let in with. */
  function Admit(s: Store, batch: Batch): (r: Result<(Store, nat, bool), Status>)
    ensures r.Ok? ==> r.value.1 < |r.value.0.threads| && ResolveTarget(s, batch.target) == r
  {
    match ResolveTarget(s, batch.target)
    case Err(status) => Err(status)
    case Ok((ready, id, created)) =>
      if batch.sourceIdentity.Some? && batch.sourceIdentity.value.userId != ready.threads[id].userId then
        Err(Refusal(InvalidArgument))
      else match FirstCollision(s.rows, id, batch.upsertByExternalId, batch.memories)
        case Some(code) => Err(Refusal(code))
        case None => Ok((ready, id, created))
  }

  /** The store a let-in batch leaves behind. */
  function Commit(ready: Store, id: nat, batch: Batch): (r: Store)
    requires id < |ready.threads|
    ensures |r.threads| == |ready.threads|
  {
    LabelThread(AddAll(ready, id, Attached(ready.rows, id), Ids(batch.memories), batch.memories), id, batch.labels)
  }

  /** `add_memories_batch`: everything or nothing. */
  function AddBatch(s: Store, batch: Batch): (r: (Store, Reply))
    ensures r.1.Ok? ==> r.1.value.BatchDone?
  {
    if Malformed(batch.memories) then (s, Err(Refusal(InvalidArgument)))
    else if Suppressed(s, batch) then (s, Ok(BatchDone(BatchReply(None, false, [], true))))
    else match Admit(s, batch)
      case Err(status) => (s, Err(status))
      case Ok((ready, id, created)) =>
        (Commit(ready, id, batch),
         Ok(BatchDone(BatchReply(Some(id), created, Outcomes(s.rows, Attached(s.rows, id), batch.memories), false))))
  }

  function FirstCollision(rows: map<string, Row>, id: nat, upsert: bool, memories: seq<Input>): (r: Option<Code>)
    ensures r.None? <==> forall k :: 0 <= k < |memories| ==> RowCollision(rows, id, upsert, memories[k]).None?
    ensures r.Some? ==> r.value == AlreadyExists || r.value == FailedPrecondition
  {
    if memories == [] then None
    else if RowCollision(rows, id, upsert, memories[0]).Some? then RowCollision(rows, id, upsert, memories[0])
    else FirstCollision(rows, id, upsert, memories[1..])
  }

  function Attach(s: Store, id: nat, e: string): (r: Store)
    requires id < |s.threads|
    ensures |r.threads| == |s.threads|
  {
    if e !in s.rows || id in s.rows[e].threads then s
    else
      var t := s.threads[id];
      s.(rows := s.rows[e := s.rows[e].(threads := s.rows[e].threads + {id})],
         threads := s.threads[id := t.(members := t.members + [e])])
  }

  function AttachAll(s: Store, id: nat, es: seq<string>): (r: Store)
    requires id < |s.threads|
    ensures |r.threads| == |s.threads|
  {
    if es == [] then s else Attach(AttachAll(s, id, es[..|es| - 1]), id, es[|es| - 1])
  }

  function Existing(rows: map<string, Row>, es: seq<string>): seq<string> {
    if es == [] then []
    else Existing(rows, es[..|es| - 1]) + if es[|es| - 1] in rows then [es[|es| - 1]] else []
  }

  /** Both guards of `update_memory_parent_ids_with_guards` let the update through. */
  predicate Rewirable(rows: map<string, Row>, e: string)
    requires e in rows
  {
    |rows[e].threads| == 1 && rows[e].parents == []
  }

  function UpdateParents(s: Store, id: nat, e: string, parents: seq<string>): (Store, Reply) {
    if id >= |s.threads| || e !in s.rows || id !in s.rows[e].threads then (s, Err(Refusal(NotFound)))
    else if !Rewirable(s.rows, e) then (s, Ok(ParentsDone(false)))
    else
      var valid := Existing(s.rows, parents);
      (AttachAll(s.(rows := s.rows[e := s.rows[e].(parents := valid)]), id, valid), Ok(ParentsDone(true)))
  }

  function Find(s: Store, e: string): Option<FoundMemory> {
    if e !in s.rows then None
    else Some(FoundMemory(true, true, Some(e), Some(s.rows[e].first.userId), s.rows[e].threads,
                          Some(e), s.rows[e].parents == []))
  }

  /** What the server does with a request that reaches it. */
  function Serve(s: Store, request: Request): (r: (Store, Reply))
    ensures r.1.Ok? ==> Answers(request, r.1.value)
  {
    match request
    case AddMemoriesBatch(batch) => AddBatch(s, batch)
    case UpdateMemoryParents(id, e, parents) => UpdateParents(s, id, e, parents)
    case AddLabels(id, labels) =>
      if id < |s.threads| then (LabelThread(s, id, labels), Ok(LabelsDone)) else (s, Err(Refusal(NotFound)))
    case RecordObservations(_, _) => (s, Ok(RecordDone))
    case FindMemory(e) => (s, Ok(MemoryFound(Find(s, e))))
    case FindThread(channel, userId) =>
      var ids := ThreadsFor(s.threads, channel, userId);
      if ids == [] then (s, Ok(ThreadFound(None)))
      else if |ids| == 1 then (s, Ok(ThreadFound(Some(ids[0]))))
      else (s, Err(Refusal(FailedPrecondition)))
  }

  /**
   What no request ever undoes: rows and threads stay, a row keeps the data it
   was inserted with, parent links once filled stay as they are, and a thread
   keeps its owner, channel, labels and the order of its members.
   */
  ghost predicate Evolves(s: Store, s': Store) {
    && s'.markers == s.markers
    && |s.threads| <= |s'.threads|
    && (forall t :: 0 <= t < |s.threads| ==>
      && s'.threads[t].userId == s.threads[t].userId
      && s'.threads[t].channel == s.threads[t].channel
      && s.threads[t].labels <= s'.threads[t].labels
      && s.threads[t].members <= s'.threads[t].members)
    && (forall e :: e in s.rows ==> e in s'.rows && RowEvolves(s.rows[e], s'.rows[e]))
  }

  ghost predicate RowEvolves(r: Row, r': Row) {
    && r'.first == r.first
    && r.threads <= r'.threads
    && (r.parents != [] ==> r'.parents == r.parents)
  }

  /** No row that was there has other content now. */
  ghost predicate ContentKept(s: Store, s': Store) {
    forall e :: e in s.rows ==> e in s'.rows && s'.rows[e].content == s.rows[e].content
  }

  lemma EvolvesTransitive(a: Store, b: Store, c: Store)
    requires Evolves(a, b) && Evolves(b, c)
    ensures Evolves(a, c)
    ensures ContentKept(a, b) && ContentKept(b, c) ==> ContentKept(a, c)
  {
    forall t | 0 <= t < |a.threads| ensures a.threads[t].members <= c.threads[t].members {
      assert a.threads[t].members <= b.threads[t].members <= c.threads[t].members;
    }
    forall e | e in a.rows ensures e in c.rows && RowEvolves(a.rows[e], c.rows[e]) {
      assert RowEvolves(a.rows[e], b.rows[e]) && RowEvolves(b.rows[e], c.rows[e]);
    }
  }

  lemma {:induction false} AddAllEvolves(
      s: Store, id: nat, attached: set<string>, batch: set<string>, memories: seq<Input>)
    requires id < |s.threads|
    ensures Evolves(s, AddAll(s, id, attached, batch, memories))
  {
    if memories != [] {
      var n := |memories| - 1;
      var before := AddAll(s, id, attached, batch, memories[..n]);
      AddAllEvolves(s, id, attached, batch, memories[..n]);
      AddOneEvolves(before, id, attached + Ids(memories[..n]), batch, memories[n]);
      EvolvesTransitive(s, before, AddAll(s, id, attached, batch, memories));
    }
  }

  lemma AddOneEvolves(s: Store, id: nat, known: set<string>, batch: set<string>, input: Input)
    requires id < |s.threads|
    ensures Evolves(s, AddOne(s, id, known, batch, input))
  {
  }

  lemma LabelEvolves(s: Store, id: nat, labels: seq<string>)
    requires id < |s.threads|
    ensures Evolves(s, LabelThread(s, id, labels)) && ContentKept(s, LabelThread(s, id, labels))
  {
  }

  lemma TargetEvolves(s: Store, target: Target)
    requires ResolveTarget(s, target).Ok?
    ensures Evolves(s, ResolveTarget(s, target).value.0)
  {
  }

  lemma {:induction false} AttachAllEvolves(s: Store, id: nat, es: seq<string>)
    requires id < |s.threads|
    ensures Evolves(s, AttachAll(s, id, es)) && ContentKept(s, AttachAll(s, id, es))
  {
    if es != [] {
      var before := AttachAll(s, id, es[..|es| - 1]);
      AttachAllEvolves(s, id, es[..|es| - 1]);
      AttachEvolves(before, id, es[|es| - 1]);
      EvolvesTransitive(s, before, AttachAll(s, id, es));
    }
  }

  lemma AttachEvolves(s: Store, id: nat, e: string)
    requires id < |s.threads|
    ensures Evolves(s, Attach(s, id, e)) && ContentKept(s, Attach(s, id, e))
  {
  }

  lemma LinkEvolves(s: Store, e: string, parents: seq<string>)
    requires e in s.rows && s.rows[e].parents == []
    ensures var linked := s.(rows := s.rows[e := s.rows[e].(parents := parents)]);
      Evolves(s, linked) && ContentKept(s, linked)
  {
  }

  lemma UpdateParentsEvolves(s: Store, id: nat, e: string, parents: seq<string>)
    ensures Evolves(s, UpdateParents(s, id, e, parents).0)
    ensures ContentKept(s, UpdateParents(s, id, e, parents).0)
  {
    if id < |s.threads| && e in s.rows && id in s.rows[e].threads && Rewirable(s.rows, e) {
      var valid := Existing(s.rows, parents);
      var linked := s.(rows := s.rows[e := s.rows[e].(parents := valid)]);
      LinkEvolves(s, e, valid);
      AttachAllEvolves(linked, id, valid);
      EvolvesTransitive(s, linked, AttachAll(linked, id, valid));
    }
  }

  lemma AddBatchEvolves(s: Store, batch: Batch)
    ensures Evolves(s, AddBatch(s, batch).0)
  {
    if !Malformed(batch.memories) && !Suppressed(s, batch) && Admit(s, batch).Ok? {
      var (ready, id, _) := Admit(s, batch).value;
      var added := AddAll(ready, id, Attached(ready.rows, id), Ids(batch.memories), batch.memories);
      TargetEvolves(s, batch.target);
      AddAllEvolves(ready, id, Attached(ready.rows, id), Ids(batch.memories), batch.memories);
      EvolvesTransitive(s, ready, added);
      LabelEvolves(added, id, batch.labels);
      EvolvesTransitive(s, added, Commit(ready, id, batch));
    }
  }

  /** Every request only ever moves the store forward. */
  lemma ServeEvolves(s: Store, request: Request)
    ensures Evolves(s, Serve(s, request).0)
    ensures !request.AddMemoriesBatch? ==> ContentKept(s, Serve(s, request).0)
  {
    match request {
      case AddMemoriesBatch(batch) => AddBatchEvolves(s, batch);
      case UpdateMemoryParents(id, e, parents) => UpdateParentsEvolves(s, id, e, parents);
      case AddLabels(id, labels) =>
        if id < |s.threads| {
          LabelEvolves(s, id, labels);
        }
      case _ =>
    }
  }

  /** Without the upsert flag no existing row is written at all. */
  lemma InsertOnlyKeepsContent(s: Store, batch: Batch)
    requires !batch.upsertByExternalId
    ensures ContentKept(s, AddBatch(s, batch).0)
  {
    if !Malformed(batch.memories) && !Suppressed(s, batch) && Admit(s, batch).Ok? {
      var (ready, id, _) := Admit(s, batch).value;
      forall k | 0 <= k < |batch.memories| ensures Id(batch.memories[k]) !in s.rows {
        assert RowCollision(s.rows, id, false, batch.memories[k]).None?;
      }
      AddFreshKeepsContent(ready, id, Attached(ready.rows, id), Ids(batch.memories), batch.memories);
    }
  }

  lemma {:induction false} AddFreshKeepsContent(
      s: Store, id: nat, attached: set<string>, batch: set<string>, memories: seq<Input>)
    requires id < |s.threads|
    requires forall k :: 0 <= k < |memories| ==> Id(memories[k]) !in s.rows
    ensures ContentKept(s, AddAll(s, id, attached, batch, memories))
  {
    if memories != [] {
      AddFreshKeepsContent(s, id, attached, batch, memories[..|memories| - 1]);
    }
  }

  ghost predicate InThread(s: Store, id: nat, e: string) {
    e in s.rows && id in s.rows[e].threads
  }

  lemma IdsSnoc(memories: seq<Input>)
    requires memories != []
    ensures Ids(memories) == Ids(memories[..|memories| - 1]) + {Id(memories[|memories| - 1])}
  {
    var n := |memories| - 1;
    assert forall k :: 0 <= k < n ==> memories[..n][k] == memories[k];
    forall e | e in Ids(memories) ensures e in Ids(memories[..n]) + {Id(memories[n])} {
      var k :| 0 <= k < |memories| && Id(memories[k]) == e;
      assert k < n ==> Id(memories[..n][k]) in Ids(memories[..n]);
    }
    forall e | e in Ids(memories[..n]) ensures e in Ids(memories) {
      var k :| 0 <= k < n && Id(memories[..n][k]) == e;
      assert Id(memories[k]) in Ids(memories);
    }
  }

  lemma AddOneInThread(s: Store, id: nat, known: set<string>, batch: set<string>, input: Input)
    requires id < |s.threads| && (Id(input) in s.rows ==> InThread(s, id, Id(input)))
    ensures InThread(AddOne(s, id, known, batch, input), id, Id(input))
    ensures forall e :: InThread(s, id, e) ==> InThread(AddOne(s, id, known, batch, input), id, e)
    ensures AddOne(s, id, known, batch, input).rows.Keys == s.rows.Keys + {Id(input)}
  {
  }

  /** An accepted batch adds exactly its ids, and leaves all of them in the thread. */
  lemma {:induction false} AddAllInThread(
      s: Store, id: nat, attached: set<string>, batch: set<string>, memories: seq<Input>)
    requires id < |s.threads|
    requires forall e :: e in Ids(memories) && e in s.rows ==> InThread(s, id, e)
    ensures var r := AddAll(s, id, attached, batch, memories);
      && r.rows.Keys == s.rows.Keys + Ids(memories)
      && forall e :: e in Ids(memories) || InThread(s, id, e) ==> InThread(r, id, e)
  {
    if memories == [] {
      assert Ids(memories) == {};
    } else {
      hide AddOne;
      var n := |memories| - 1;
      IdsSnoc(memories);
      AddAllInThread(s, id, attached, batch, memories[..n]);
      AddOneInThread(AddAll(s, id, attached, batch, memories[..n]), id, attached + Ids(memories[..n]), batch,
                     memories[n]);
    }
  }
}
