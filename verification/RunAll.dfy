/**
 A whole import: every discovered session in turn, over one client and one event
 sink, and the live client's calls with their retries.
 */
module RunAll {
  import opened Wrappers
  import opened Retry
  import opened Store
  import opened Network
  import opened ImportRun
  import opened Protocol
  import opened Importer

  /** What reading a discovered input comes to. */
  datatype SessionInput =
    | Unreadable
    | SkippedInput(filtered: nat)
    | Session(cfg: Config, items: seq<StreamItem>, filtered: nat)

  const UNREAD := SessionResult(None, None, false, 0, 0, 0, 0, Some(ReadFailed), false)

  function SkippedResult(filtered: nat): SessionResult {
    SessionResult(None, None, false, 0, 0, filtered, 0, None, true)
  }

  /** One session, up to and including its completion event. */
  ghost function SessionOutcome(input: SessionInput, w: World): State {
    match input
    case Unreadable => State(w, [], [], None, UNREAD)
    case SkippedInput(filtered) => State(w, [], [], None, SkippedResult(filtered))
    case Session(cfg, items, filtered) => EmitCompletion(cfg, RunStreaming(cfg, w, items, filtered))
  }

  /** An input that is not imported sends, announces and imports nothing; only an unreadable one fails. */
  lemma NotImported(input: SessionInput, w: World)
    requires !input.Session?
    ensures var r := SessionOutcome(input, w);
      && r.world == w && r.log == [] && r.events == []
      && r.result.threadId.None? && r.result.imported == 0 && r.result.duplicate == 0 && r.result.rewired == 0
      && (r.result.error.Some? <==> input.Unreadable?)
      && (r.result.suppressed <==> input.SkippedInput?)
      && r.result.filtered == if input.SkippedInput? then input.filtered else 0
  {
  }

  /** The world a session finds: the one the sessions before it left. */
  ghost function WorldBefore(inputs: seq<SessionInput>, w: World, i: nat): World
    requires i <= |inputs|
  {
    if i == 0 then w else SessionOutcome(inputs[i - 1], WorldBefore(inputs, w, i - 1)).world
  }

  ghost function OutcomeAt(inputs: seq<SessionInput>, w: World, i: nat): State
    requires i < |inputs|
  {
    SessionOutcome(inputs[i], WorldBefore(inputs, w, i))
  }

  /** The events of the first `n` sessions, session by session. */
  ghost function EventsOf(inputs: seq<SessionInput>, w: World, n: nat): seq<Event>
    requires n <= |inputs|
  {
    if n == 0 then [] else EventsOf(inputs, w, n - 1) + OutcomeAt(inputs, w, n - 1).events
  }

  method RunOne(input: SessionInput, w: World) returns (result: SessionResult, events: seq<Event>, w': World)
    ensures var st := SessionOutcome(input, w); result == st.result && events == st.events && w' == st.world
  {
    match input {
      case Unreadable => return UNREAD, [], w;
      case SkippedInput(filtered) => return SkippedResult(filtered), [], w;
      case Session(cfg, items, filtered) =>
        hide RunStreaming, EmitCompletion;
        var session := new SessionImport(cfg, w, filtered);
        session.RunImportStreaming(items);
        session.EmitSessionCompletion();
        return session.result, session.events, session.world;
    }
  }

  /** `run_all_with_event_sink`, once the inputs are discovered and read. */
  method RunAllSessions(inputs: seq<SessionInput>, w: World)
    returns (results: seq<SessionResult>, events: seq<Event>, w': World)
    ensures |results| == |inputs| && forall i :: 0 <= i < |inputs| ==> results[i] == OutcomeAt(inputs, w, i).result
    ensures events == EventsOf(inputs, w, |inputs|) && w' == WorldBefore(inputs, w, |inputs|)
  {
    hide SessionOutcome;
    results, events, w' := [], [], w;
    for i := 0 to |inputs|
      invariant |results| == i && forall k :: 0 <= k < i ==> results[k] == OutcomeAt(inputs, w, k).result
      invariant events == EventsOf(inputs, w, i) && w' == WorldBefore(inputs, w, i)
    {
      var result, more, next := RunOne(inputs[i], w');
      results, events, w' := results + [result], events + more, next;
    }
  }

  lemma {:induction false} EarlierStays(inputs: seq<SessionInput>, w: World, i: nat, n: nat)
    requires i <= n <= |inputs|
    ensures EventsOf(inputs, w, i) <= EventsOf(inputs, w, n)
    decreases n
  {
    hide OutcomeAt;
    if i < n {
      EarlierStays(inputs, w, i, n - 1);
    }
  }

  /**
   The event stream of an import is the sessions' events in discovery order, and
   each session contributes its thread's creation, if it is new, and its completion.
   */
  lemma SessionsInOrder(inputs: seq<SessionInput>, w: World, i: nat)
    requires i < |inputs|
    ensures var all := EventsOf(inputs, w, |inputs|);
      var mine := OutcomeAt(inputs, w, i).events;
      && EventsOf(inputs, w, i) + mine <= all
      && match inputs[i]
         case Session(cfg, items, filtered) =>
           var before := WorldBefore(inputs, w, i);
           var known := KnownBefore(cfg, before, items, filtered).0;
           SessionEvents(cfg, RunStreaming(cfg, before, items, filtered), known, mine)
         case _ => mine == []
  {
    hide RunStreaming, EmitCompletion, SessionEvents, KnownBefore;
    EarlierStays(inputs, w, i + 1, |inputs|);
    match inputs[i] {
      case Session(cfg, items, filtered) =>
        StreamingEvents(cfg, WorldBefore(inputs, w, i), items, filtered);
      case _ =>
    }
  }

  /** The attempts of one call, as the server sees them. */
  method Deliver(w: World, request: Request, calls: nat) returns (w': World)
    ensures w' == w.(store := StoreAfter(w.store, w.fates, request, calls),
                     fates := if calls <= |w.fates| then w.fates[calls..] else [])
  {
    hide Attempt;
    var store := w.store;
    for i := 0 to calls
      invariant store == StoreAfter(w.store, w.fates, request, i)
    {
      store := Attempt(store, FateAt(w.fates, i), request).0;
    }
    w' := w.(store := store, fates := if calls <= |w.fates| then w.fates[calls..] else []);
  }

  /** The live client's call: the store as the attempts left it, the retry loop's answer, a bounded sleep. */
  method CallLive(policy: Policy, w: World, request: Request, nanos: nat -> nat)
    returns (w': World, reply: Reply, slept: nat)
    ensures (w', reply) == Rpc(policy, w, request)
    ensures slept <= 2 * policy.maxDelayMs * if policy.maxAttempts == 0 then 0 else policy.maxAttempts - 1
  {
    hide CallsMade, Attempt, StoreAfter;
    var calls;
    reply, calls, slept := RetryStatus(policy, Answering(w.store, w.fates, request), nanos);
    w' := Deliver(w, request, calls);
    ScaledMonotone(2 * policy.maxDelayMs, calls - 1, if policy.maxAttempts == 0 then 0 else policy.maxAttempts - 1);
  }
}
