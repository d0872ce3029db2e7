/**
 The client's view of the service: every RPC is retried over an unreliable
 network, where a request or its answer may be lost, or the answer may be one
 the documented server would never give.
 */
module Network {
  import opened Wrappers
  import opened Retry
  import opened Store

  /** What becomes of one attempt. `applied` says whether the server acted on it. */
  datatype Fate =
    | Deliver
    | Fail(applied: bool, status: Status)
    | Forge(applied: bool, response: Response)

  /** The order in which concurrent requests reach the server, and in which they complete. */
  datatype Schedule = Schedule(exec: seq<nat>, done: seq<nat>)

  /** Attempts beyond the script are delivered; batches beyond the schedules run in order. */
  datatype World = World(store: Store, fates: seq<Fate>, schedules: seq<Schedule>, sinkFails: seq<bool>)

  function FateAt(fates: seq<Fate>, k: nat): Fate {
    if k < |fates| then fates[k] else Deliver
  }

  /** One attempt: the store it leaves, and the answer the client sees. */
  function Attempt(s: Store, fate: Fate, request: Request): (r: (Store, Reply))
    ensures r.1.Ok? ==> Answers(request, r.1.value)
    ensures r.0 == s || r.0 == Serve(s, request).0
    ensures fate.Deliver? ==> r == Serve(s, request)
    ensures r.1.Ok? && !fate.Forge? ==> r == Serve(s, request)
  {
    match fate
    case Deliver => Serve(s, request)
    case Fail(applied, status) => (if applied then Serve(s, request).0 else s, Err(status))
    case Forge(applied, response) =>
      if Answers(request, response) then (if applied then Serve(s, request).0 else s, Ok(response))
      else Serve(s, request)
  }

  function StoreAfter(s: Store, fates: seq<Fate>, request: Request, n: nat): Store {
    if n == 0 then s else Attempt(StoreAfter(s, fates, request, n - 1), FateAt(fates, n - 1), request).0
  }

  /** The answers to successive attempts of one request. */
  function Answering(s: Store, fates: seq<Fate>, request: Request): Operation<Response> {
    (k: nat) => Attempt(StoreAfter(s, fates, request, k), FateAt(fates, k), request).1
  }

  /** One RPC with its retries. */
  function Rpc(policy: Policy, w: World, request: Request): (r: (World, Reply))
    ensures r.1.Ok? ==> Answers(request, r.1.value)
    ensures r.0.schedules == w.schedules && r.0.sinkFails == w.sinkFails
  {
    var n := CallsMade(policy, Answering(w.store, w.fates, request), 1);
    (w.(store := StoreAfter(w.store, w.fates, request, n), fates := if n <= |w.fates| then w.fates[n..] else []),
     Answering(w.store, w.fates, request)(n - 1))
  }

  /**
   An import client, as the importer holds one behind `dyn ImportClient`: it may
   do anything to the world, but its answers are of the kind asked for.
   */
  type Client = f: (World, Request) -> (World, Reply)
    | forall w, r :: f(w, r).1.Ok? ==> Answers(r, f(w, r).1.value)
    witness (w: World, r: Request) => (w, Err(Status(Unknown, "")))

  /** The live gRPC client: each call is one RPC with its retries. */
  function LiveClient(policy: Policy): Client {
    (w: World, r: Request) => Rpc(policy, w, r)
  }

  /** The network loses messages but never makes up an answer. */
  ghost predicate Honest(w: World) {
    forall k :: 0 <= k < |w.fates| ==> !w.fates[k].Forge?
  }

  lemma AttemptEvolves(s: Store, fate: Fate, request: Request)
    ensures Evolves(s, Attempt(s, fate, request).0)
    ensures !request.AddMemoriesBatch? || !request.batch.upsertByExternalId ==>
      ContentKept(s, Attempt(s, fate, request).0)
  {
    ServeEvolves(s, request);
    if request.AddMemoriesBatch? && !request.batch.upsertByExternalId {
      InsertOnlyKeepsContent(s, request.batch);
    }
  }

  lemma {:induction false} StoreAfterEvolves(s: Store, fates: seq<Fate>, request: Request, n: nat)
    ensures Evolves(s, StoreAfter(s, fates, request, n))
    ensures !request.AddMemoriesBatch? || !request.batch.upsertByExternalId ==>
      ContentKept(s, StoreAfter(s, fates, request, n))
  {
    hide Serve, Attempt, Evolves, ContentKept;
    if n == 0 {
      StaysEvolves(s);
    } else {
      var before := StoreAfter(s, fates, request, n - 1);
      StoreAfterEvolves(s, fates, request, n - 1);
      AttemptEvolves(before, FateAt(fates, n - 1), request);
      EvolvesTransitive(s, before, StoreAfter(s, fates, request, n));
    }
  }

  lemma StaysEvolves(s: Store)
    ensures Evolves(s, s) && ContentKept(s, s)
  {
  }

  /**
   However often a request is lost, resent or answered wrongly, the store only
   moves forward; and no existing content changes without the upsert flag.
   */
  lemma RpcEvolves(policy: Policy, w: World, request: Request)
    ensures Evolves(w.store, Rpc(policy, w, request).0.store)
    ensures !request.AddMemoriesBatch? || !request.batch.upsertByExternalId ==>
      ContentKept(w.store, Rpc(policy, w, request).0.store)
  {
    var n := CallsMade(policy, Answering(w.store, w.fates, request), 1);
    StoreAfterEvolves(w.store, w.fates, request, n);
  }

  /** The store the last attempt of an RPC meets. */
  ghost function BeforeLast(policy: Policy, w: World, request: Request): Store {
    StoreAfter(w.store, w.fates, request, CallsMade(policy, Answering(w.store, w.fates, request), 1) - 1)
  }

  /** On an honest network a successful answer is the server's, given to the last attempt. */
  lemma RpcHonest(policy: Policy, w: World, request: Request)
    requires Honest(w)
    ensures Honest(Rpc(policy, w, request).0)
    ensures Rpc(policy, w, request).1.Ok? ==>
      Serve(BeforeLast(policy, w, request), request)
      == (Rpc(policy, w, request).0.store, Rpc(policy, w, request).1)
  {
    var n := CallsMade(policy, Answering(w.store, w.fates, request), 1);
    assert !FateAt(w.fates, n - 1).Forge?;
  }

  lemma {:induction false} IdleAttempts(s: Store, fates: seq<Fate>, request: Request, n: nat)
    requires Serve(s, request).0 == s
    ensures StoreAfter(s, fates, request, n) == s
  {
    hide Serve;
    if n > 0 {
      IdleAttempts(s, fates, request, n - 1);
    }
  }

  /** A request the server does nothing for changes nothing, and a successful answer is the server's. */
  lemma RpcIdle(policy: Policy, w: World, request: Request)
    requires Honest(w) && Serve(w.store, request).0 == w.store
    ensures var (w', reply) := Rpc(policy, w, request);
      w'.store == w.store && Honest(w') && (reply.Ok? ==> reply == Serve(w.store, request).1)
  {
    hide Serve, CallsMade, Honest, Attempt;
    var n := CallsMade(policy, Answering(w.store, w.fates, request), 1);
    RpcHonest(policy, w, request);
    IdleAttempts(w.store, w.fates, request, n);
    IdleAttempts(w.store, w.fates, request, n - 1);
  }

  /** A delivered request that the server grants is settled by its first attempt. */
  lemma RpcDelivered(policy: Policy, w: World, request: Request)
    requires w.fates == [] && Serve(w.store, request).1.Ok?
    ensures Rpc(policy, w, request) == (w.(store := Serve(w.store, request).0), Serve(w.store, request).1)
  {
    hide Serve;
    var op := Answering(w.store, w.fates, request);
    assert StoreAfter(w.store, w.fates, request, 0) == w.store;
    assert op(0) == Serve(w.store, request).1;
    assert Settles(policy, op, 1);
    assert StoreAfter(w.store, w.fates, request, 1) == Serve(w.store, request).0;
  }

  predicate IsPermutation(order: seq<nat>, n: nat) {
    |order| == n && (forall i :: 0 <= i < n ==> i in order) && (forall k :: 0 <= k < n ==> order[k] < n)
  }

  /** `order` if it is one, and the natural order otherwise. */
  function OrderOr(order: seq<nat>, n: nat): (r: seq<nat>)
    ensures |r| == n && (forall k :: 0 <= k < n ==> r[k] < n) && (forall i :: 0 <= i < n ==> i in r)
  {
    if IsPermutation(order, n) then order
    else Natural(n)
  }

  function Natural(n: nat): (r: seq<nat>)
    ensures |r| == n && (forall k :: 0 <= k < n ==> r[k] == k) && (forall i :: 0 <= i < n ==> i in r)
  {
    if n == 0 then [] else Natural(n - 1) + [n - 1]
  }

  function NextSchedule(w: World, n: nat): (r: (Schedule, World))
    ensures |r.0.exec| == n && forall k :: 0 <= k < n ==> r.0.exec[k] < n
    ensures |r.0.done| == n && forall k :: 0 <= k < n ==> r.0.done[k] < n
  {
    if w.schedules == [] then (Schedule(OrderOr([], n), OrderOr([], n)), w)
    else (Schedule(OrderOr(w.schedules[0].exec, n), OrderOr(w.schedules[0].done, n)),
          w.(schedules := w.schedules[1..]))
  }
}
