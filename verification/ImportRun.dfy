/**
 One session's import as a function of the session, the entries, and the world:
 every request sent, every answer received, every event and counter. The methods
 of `Importer` compute it; the theorems about runs are proved of it.
 */
module ImportRun {
  import opened Wrappers
  import opened Text
  import opened JsonTree
  import opened Canonical
  import opened CanonicalKey
  import opened ExternalId
  import opened Batching
  import opened Retry
  import opened Store
  import opened Network

  datatype RawConfig = RawConfig(
    session: Session, userId: I64, since: Option<int>, extraLabels: seq<string>,
    limits: Limits, client: Client, sha: Sha256Hex, encodedLen: Input -> nat,
    mediaIds: map<string, int>, writesEnabled: bool, sinkOn: bool, snapshot: map<string, nat>)

  const NO_SESSION := Session("", "", "", [], Null, None, [])

  /** The source id is short enough for the importer's `expect` never to fire. */
  type Config = c: RawConfig | ShortSource(c.session.sourceId)
    witness RawConfig(NO_SESSION, 0, None, [], DEFAULT_LIMITS, LiveClient(Policy(1, 0, 0, 0.0)),
                      (s: string) => s, (i: Input) => 0, map[], true, false, map[])

  predicate IsOpenCode(cfg: Config) {
    cfg.session.sourceId == "opencode"
  }

  datatype StreamItem = EntryItem(entry: Entry) | FilteredItem | WarnItem

  datatype Key = Key(importOrder: int, timestampMs: int)

  predicate KeyLe(a: Key, b: Key) {
    a.importOrder < b.importOrder || (a.importOrder == b.importOrder && a.timestampMs <= b.timestampMs)
  }

  function EntryKey(entry: Entry): Key {
    Key(entry.importOrder, entry.timestampMs)
  }

  /** The library's stable sort: an element goes behind every equal one before it. */
  function StableSort<T>(xs: seq<T>, key: T -> Key): (r: seq<T>)
    ensures multiset(r) == multiset(xs) && |r| == |xs|
  {
    if xs == [] then []
    else
      assert xs == xs[..|xs| - 1] + [xs[|xs| - 1]];
      StablePlace(StableSort(xs[..|xs| - 1], key), xs[|xs| - 1], key)
  }

  function StablePlace<T>(xs: seq<T>, x: T, key: T -> Key): (r: seq<T>)
    ensures multiset(r) == multiset(xs) + multiset{x} && |r| == |xs| + 1
  {
    if xs == [] || KeyLe(key(xs[|xs| - 1]), key(x)) then xs + [x]
    else
      assert xs == xs[..|xs| - 1] + [xs[|xs| - 1]];
      StablePlace(xs[..|xs| - 1], x, key) + [xs[|xs| - 1]]
  }

  ghost predicate InOrder<T>(xs: seq<T>, key: T -> Key) {
    forall i, j :: 0 <= i < j < |xs| ==> KeyLe(key(xs[i]), key(xs[j]))
  }

  /** An entry with its namespaced ids, and the batch input built from it. */
  datatype Prepared = Prepared(entry: Entry, input: Input)

  function PreparedKey(p: Prepared): Key {
    EntryKey(p.entry)
  }

  function NamespaceAll(cfg: Config, ids: seq<string>): (r: seq<string>)
    ensures |r| == |ids|
  {
    seq(|ids|, k requires 0 <= k < |ids| => NamespaceExternalId(cfg.sha, cfg.session.sourceId, cfg.userId, ids[k]))
  }

  function Namespaced(cfg: Config, entry: Entry): Entry {
    entry.(externalId := NamespaceExternalId(cfg.sha, cfg.session.sourceId, cfg.userId, entry.externalId),
           parentExternalIds := NamespaceAll(cfg, entry.parentExternalIds))
  }

  function InputOf(cfg: Config, entry: Entry): Input {
    Input(MemoryOf(cfg.session, entry, cfg.userId, MediaOf(cfg.mediaIds, entry.externalId)),
          entry.parentExternalIds)
  }

  /** OpenCode entries were namespaced by the preflight already. */
  function Prepare(cfg: Config, entry: Entry): Prepared {
    var e := if IsOpenCode(cfg) then entry else Namespaced(cfg, entry);
    Prepared(e, InputOf(cfg, e))
  }

  predicate IsEntryImportable(entry: Entry, since: Option<int>) {
    since.None? || entry.timestampMs >= since.value
  }

  function Measure(cfg: Config, p: Prepared): (r: Sized<Prepared>)
    ensures r.item == p
  {
    Sized(p, cfg.encodedLen(p.input))
  }

  function ItemsOf(chunk: seq<Sized<Prepared>>): (r: seq<Prepared>)
    ensures |r| == |chunk| && forall k :: 0 <= k < |r| ==> r[k] == chunk[k].item
  {
    seq(|chunk|, k requires 0 <= k < |chunk| => chunk[k].item)
  }

  function InputsOf(chunk: seq<Prepared>): (r: seq<Input>)
    ensures |r| == |chunk| && forall k :: 0 <= k < |r| ==> r[k] == chunk[k].input
  {
    seq(|chunk|, k requires 0 <= k < |chunk| => chunk[k].input)
  }

  function BuildLabels(session: Session, extra: seq<string>): seq<string> {
    NonEmpty(AddMissing(StripEach(session.sourceLabels), extra))
  }

  function StripEach(labels: seq<string>): seq<string> {
    seq(|labels|, k requires 0 <= k < |labels| => StripText(labels[k]))
  }

  function AddMissing(labels: seq<string>, extra: seq<string>): seq<string>
    decreases |extra|
  {
    if extra == [] then labels
    else
      var l := StripText(extra[0]);
      AddMissing(if l in labels then labels else labels + [l], extra[1..])
  }

  function NonEmpty(labels: seq<string>): seq<string> {
    if labels == [] then []
    else (if labels[0] == "" then [] else [labels[0]]) + NonEmpty(labels[1..])
  }

  datatype Event =
    | ThreadCreated(channel: string, thread: nat)
    | SessionCompleted(sessionKey: string, thread: nat, importedCount: nat, success: bool)

  datatype Exchange = Exchange(request: Request, reply: Reply)

  datatype ImportError =
    | ReadFailed | BatchFailed | MissingThreadId | OutcomeCount | RewireFailed | SinkFailed
    | ObservationsFailed | LabelsFailed | TargetLookupFailed | DuplicateLookupFailed
    | DuplicateOnlyBlocked | ParentLookupFailed | ParentCollision | DuplicateRewireFailed

  datatype SessionResult = SessionResult(
    sessionKey: Option<string>, threadId: Option<nat>, threadCreated: bool,
    imported: nat, duplicate: nat, filtered: nat, rewired: nat,
    error: Option<ImportError>, suppressed: bool)

  /** A run in progress. `log` and `events` are what this session did so far. */
  datatype State = State(
    world: World, log: seq<Exchange>, events: seq<Event>, current: Option<nat>, result: SessionResult)

  predicate Stopped(result: SessionResult) {
    result.error.Some? || result.suppressed
  }

  function Failed(st: State, error: ImportError): State {
    st.(result := st.result.(error := Some(error)))
  }

  function CountFiltered(st: State): State {
    st.(result := st.result.(filtered := st.result.filtered + 1))
  }

  function Invoke(cfg: Config, st: State, request: Request): (r: (State, Reply))
    ensures r.1.Ok? ==> Answers(request, r.1.value)
    ensures r.0.log == st.log + [Exchange(request, r.1)]
    ensures r.0.result == st.result && r.0.current == st.current && r.0.events == st.events
  {
    var (world, reply) := cfg.client(st.world, request);
    (st.(world := world, log := st.log + [Exchange(request, reply)]), reply)
  }

  /** The event is attempted; the sink may refuse it. */
  function Emit(st: State, event: Event): (State, bool) {
    var fails := st.world.sinkFails;
    (st.(events := st.events + [event], world := st.world.(sinkFails := if fails == [] then [] else fails[1..])),
     fails == [] || !fails[0])
  }

  function CanonicalSourceIdentity(session: Session): Option<Identity> {
    if session.sourceIdentity.Some? then session.sourceIdentity
    else if session.observations == [] then None
    else Some(session.observations[0])
  }

  function Endpoint(identity: Identity, userId: I64): SourceIdentity {
    SourceIdentity(userId, identity.source, identity.identityScope, identity.nativeId)
  }

  function SourceIdentityOf(cfg: Config): Option<SourceIdentity> {
    match CanonicalSourceIdentity(cfg.session)
    case None => None
    case Some(identity) => Some(Endpoint(identity, cfg.userId))
  }

  function TargetOf(cfg: Config, current: Option<nat>): Target {
    match current
    case Some(id) => ExistingThread(id)
    case None => Upsert(cfg.session.channel, cfg.userId)
  }

  function BatchOf(cfg: Config, current: Option<nat>, inputs: seq<Input>, isLast: bool): Batch {
    Batch(TargetOf(cfg, current), inputs, !IsOpenCode(cfg),
          if isLast || (IsOpenCode(cfg) && current.None?) then BuildLabels(cfg.session, cfg.extraLabels) else [],
          SourceIdentityOf(cfg))
  }

  /** Created outcomes count as imported, reused ones as duplicates. */
  function CountCreated(outcomes: seq<Outcome>): (n: nat)
    ensures n <= |outcomes|
  {
    if outcomes == [] then 0
    else CountCreated(outcomes[..|outcomes| - 1]) + if outcomes[|outcomes| - 1].created then 1 else 0
  }

  predicate NeedsRewire(o: Outcome) {
    !o.created && o.existingParentIdsEmpty && o.resolvedParentIds != [] && o.memoryId.Some?
  }

  /** One UpdateMemoryParents per reused row whose empty parents were resolved. */
  function JobsOf(id: nat, outcomes: seq<Outcome>): (jobs: seq<Request>)
    ensures forall j :: j in jobs ==> j.UpdateMemoryParents?
  {
    if outcomes == [] then []
    else
      var last := outcomes[|outcomes| - 1];
      JobsOf(id, outcomes[..|outcomes| - 1])
      + if NeedsRewire(last) then [UpdateMemoryParents(id, last.memoryId.value, last.resolvedParentIds)] else []
  }

  /** The jobs reach the server in the given order. */
  function RunJobs(cfg: Config, st: State, jobs: seq<Request>, order: seq<nat>): (r: State)
    requires forall k :: 0 <= k < |order| ==> order[k] < |jobs|
    ensures |r.log| == |st.log| + |order|
    ensures r.result == st.result && r.current == st.current && r.events == st.events
    decreases |order|
  {
    if order == [] then st
    else Invoke(cfg, RunJobs(cfg, st, jobs, order[..|order| - 1]), jobs[order[|order| - 1]]).0
  }

  /** Completions are read in order up to the first failed one. */
  function CountRewired(replies: seq<Reply>): (nat, bool) {
    if replies == [] then (0, true)
    else
      var (before, fine) := CountRewired(replies[..|replies| - 1]);
      var last := replies[|replies| - 1];
      if !fine then (before, false)
      else if last.Err? then (before, false)
      else (before + if last.value.ParentsDone? && last.value.rewired then 1 else 0, true)
  }

  function RepliesIn(log: seq<Exchange>, from: nat, order: seq<nat>): (r: seq<Reply>)
    requires forall k :: 0 <= k < |order| ==> from + order[k] < |log|
    ensures |r| == |order|
  {
    seq(|order|, k requires 0 <= k < |order| => log[from + order[k]].reply)
  }

  function CountOutcomes(st: State, outcomes: seq<Outcome>): State {
    var created := CountCreated(outcomes);
    st.(result := st.result.(
      imported := st.result.imported + created,
      duplicate := st.result.duplicate + (|outcomes| - created)))
  }

  /** The rewires counted, and the first failure, in completion order. */
  function Settle(ran: State, from: nat, done: seq<nat>): State
    requires forall k :: 0 <= k < |done| ==> from + done[k] < |ran.log|
  {
    var (rewired, fine) := CountRewired(RepliesIn(ran.log, from, done));
    var counted := ran.(result := ran.result.(rewired := ran.result.rewired + rewired));
    if fine then counted else Failed(counted, RewireFailed)
  }

  /** `run_rewire_pass`. */
  function RewirePass(cfg: Config, st: State, outcomes: seq<Outcome>, id: nat): State {
    var jobs := JobsOf(id, outcomes);
    var (schedule, world) := NextSchedule(st.world, |jobs|);
    var ran := RunJobs(cfg, CountOutcomes(st, outcomes).(world := world), jobs, schedule.exec);
    Settle(ran, |st.log|, schedule.done)
  }

  /** What an accepted batch's answer leads to. */
  function Receive(cfg: Config, st: State, sent: nat, reply: BatchReply): State {
    if reply.suppressed then st.(result := st.result.(suppressed := true))
    else if reply.threadId.None? then Failed(st, MissingThreadId)
    else
      var id := reply.threadId.value;
      var (announced, fine) := Announce(cfg, st, id, reply.threadCreated);
      if !fine then Failed(announced, SinkFailed)
      else
        var pinned := announced.(current := Some(id));
        if |reply.outcomes| != sent then Failed(pinned, OutcomeCount)
        else RewirePass(cfg, pinned, reply.outcomes, id)
  }

  /** The first thread id of a run is recorded, and its creation announced. */
  function Announce(cfg: Config, st: State, id: nat, created: bool): (State, bool) {
    if st.current.Some? then (st, true)
    else
      var known := st.(result := st.result.(threadId := Some(id), threadCreated := created));
      if created && cfg.sinkOn then Emit(known, ThreadCreated(cfg.session.channel, id)) else (known, true)
  }

  /** Send one chunk and deal with the answer. */
  function Flush(cfg: Config, st: State, chunk: seq<Prepared>, isLast: bool): State {
    var batch := BatchOf(cfg, st.current, InputsOf(StableSort(chunk, PreparedKey)), isLast);
    var (sent, reply) := Invoke(cfg, st, AddMemoriesBatch(batch));
    match reply
    case Err(_) => Failed(sent, BatchFailed)
    case Ok(response) => Receive(cfg, sent, |chunk|, response.reply)
  }

  /** The session's identity is one the service can record observations for. */
  predicate Recordable(cfg: Config) {
    var identity := CanonicalSourceIdentity(cfg.session);
    identity.Some? && (cfg.session.observations != [] || identity.value.identityScope.Known?)
  }

  /** `finalize_thread_group_observations`. */
  function Finalize(cfg: Config, st: State): State {
    if !Recordable(cfg) || !cfg.writesEnabled || Stopped(st.result) || st.result.threadId.None? then st
    else
      var subject := Endpoint(CanonicalSourceIdentity(cfg.session).value, cfg.userId);
      var (recorded, reply) := Invoke(cfg, st, RecordObservations(st.result.threadId.value, subject));
      if reply.Err? then Failed(recorded, ObservationsFailed) else recorded
  }

  /** What an exact lookup said about a row an OpenCode entry already has. */
  datatype ExistingMemory = ExistingMemory(memoryId: string, parentIdsEmpty: bool, threadIds: set<nat>)

  datatype Duplicate = Duplicate(entry: Entry, existing: ExistingMemory)

  /** The checks of `lookup_opencode_memories`, in their order; failing one is an error. */
  function CheckFound(cfg: Config, found: FoundMemory, entry: Entry, target: Option<nat>): Option<ExistingMemory> {
    if !found.hasMemory || !found.hasData then None
    else if found.externalId != Some(entry.externalId) then None
    else if found.userId != Some(cfg.userId) then None
    else if found.threadIds == {} then None
    else if target.None? || target.value !in found.threadIds then None
    else if found.memoryId.None? then None
    else Some(ExistingMemory(found.memoryId.value, found.parentIdsEmpty, found.threadIds))
  }

  datatype LookedUp = LookedUp(newEntries: seq<Entry>, existing: map<string, ExistingMemory>)

  /** The lookup of one entry, on top of what the ones before it found. */
  function LookupOne(cfg: Config, st: State, seen: LookedUp, entry: Entry, target: Option<nat>)
    : (State, Option<LookedUp>)
  {
    var (asked, reply) := Invoke(cfg, st, FindMemory(entry.externalId));
    if reply.Err? then (asked, None)
    else if reply.value.found.None? then (asked, Some(seen.(newEntries := seen.newEntries + [entry])))
    else match CheckFound(cfg, reply.value.found.value, entry, target)
      case None => (asked, None)
      case Some(existing) => (asked, Some(seen.(existing := seen.existing[entry.externalId := existing])))
  }

  /** `lookup_opencode_memories` over the entries, or its failure. */
  function LookupAll(cfg: Config, st: State, entries: seq<Entry>, target: Option<nat>): (State, Option<LookedUp>) {
    if entries == [] then (st, Some(LookedUp([], map[])))
    else match LookupAll(cfg, st, entries[..|entries| - 1], target)
      case (before, None) => (before, None)
      case (before, Some(seen)) => LookupOne(cfg, before, seen, entries[|entries| - 1], target)
  }

  function EntriesOf(items: seq<StreamItem>): seq<Entry> {
    if items == [] then []
    else
      EntriesOf(items[..|items| - 1])
      + if items[|items| - 1].EntryItem? then [items[|items| - 1].entry] else []
  }

  function NamespaceEntries(cfg: Config, entries: seq<Entry>): (r: seq<Entry>)
    ensures |r| == |entries|
  {
    seq(|entries|, k requires 0 <= k < |entries| => Namespaced(cfg, entries[k]))
  }

  function DuplicatesIn(entries: seq<Entry>, existing: map<string, ExistingMemory>): seq<Duplicate> {
    if entries == [] then []
    else
      var last := entries[|entries| - 1];
      DuplicatesIn(entries[..|entries| - 1], existing)
      + if last.externalId in existing then [Duplicate(last, existing[last.externalId])] else []
  }

  /** The snapshot first, the authoritative lookup on a miss. */
  function TargetThread(cfg: Config, st: State, entries: seq<Entry>): (State, Result<Option<nat>, ImportError>) {
    if entries == [] then (st, Ok(None))
    else if cfg.session.channel in cfg.snapshot then (st, Ok(Some(cfg.snapshot[cfg.session.channel])))
    else
      var (asked, reply) := Invoke(cfg, st, FindThread(cfg.session.channel, cfg.userId));
      if reply.Err? then (asked, Err(TargetLookupFailed)) else (asked, Ok(reply.value.thread))
  }

  datatype Preflighted = Preflighted(
    newEntries: seq<Entry>, duplicates: seq<Duplicate>, thread: Option<nat>, duplicateCount: nat)

  /** `preflight_opencode_duplicates`. */
  function Preflight(cfg: Config, st: State, items: seq<StreamItem>): (State, Result<Preflighted, ImportError>) {
    var entries := NamespaceEntries(cfg, EntriesOf(items));
    match TargetThread(cfg, st, entries)
    case (asked, Err(error)) => (asked, Err(error))
    case (asked, Ok(target)) =>
      match LookupAll(cfg, asked, entries, target)
      case (looked, None) => (looked, Err(DuplicateLookupFailed))
      case (looked, Some(seen)) =>
        var n := |entries| - |seen.newEntries|;
        (looked, Ok(Preflighted(seen.newEntries, DuplicatesIn(entries, seen.existing), target, if n < 0 then 0 else n)))
  }

  function ApplyOpenCodeLabels(cfg: Config, st: State, id: nat): State {
    var labels := BuildLabels(cfg.session, cfg.extraLabels);
    if labels == [] then st
    else
      var (sent, reply) := Invoke(cfg, st, AddLabels(id, labels));
      if reply.Err? then Failed(sent, LabelsFailed) else sent
  }

  /** Whether a duplicate's parents may be filled at all. */
  predicate Rewritable(d: Duplicate) {
    d.existing.parentIdsEmpty && |d.existing.threadIds| == 1 && d.entry.parentExternalIds != []
  }

  /** The parents found in the session's own thread, each once, or the error met. */
  function ParentLookups(cfg: Config, st: State, parents: seq<string>, id: nat)
    : (State, Result<seq<string>, ImportError>)
  {
    if parents == [] then (st, Ok([]))
    else
      var p := parents[|parents| - 1];
      match ParentLookups(cfg, st, parents[..|parents| - 1], id)
      case (before, Err(error)) => (before, Err(error))
      case (before, Ok(ids)) =>
        var (asked, reply) := Invoke(cfg, before, FindMemory(p));
        if reply.Err? then (asked, Err(ParentLookupFailed))
        else if reply.value.found.None? then (asked, Ok(ids))
        else (asked, CheckParent(cfg, reply.value.found.value, p, id, ids))
  }

  function CheckParent(cfg: Config, found: FoundMemory, p: string, id: nat, ids: seq<string>)
    : Result<seq<string>, ImportError>
  {
    if !found.hasMemory || !found.hasData || found.externalId != Some(p) then Err(ParentLookupFailed)
    else if found.userId != Some(cfg.userId) then Err(ParentCollision)
    else if id !in found.threadIds then Ok(ids)
    else if found.memoryId.None? then Err(ParentLookupFailed)
    else if found.memoryId.value in ids then Ok(ids)
    else Ok(ids + [found.memoryId.value])
  }

  function RewireOne(cfg: Config, st: State, d: Duplicate, id: nat): State {
    if !Rewritable(d) then st
    else match ParentLookups(cfg, st, d.entry.parentExternalIds, id)
      case (asked, Err(error)) => Failed(asked, error)
      case (asked, Ok(parents)) =>
        if parents == [] then asked
        else
          var (sent, reply) := Invoke(cfg, asked, UpdateMemoryParents(id, d.existing.memoryId, parents));
          if reply.Err? then Failed(sent, DuplicateRewireFailed)
          else if reply.value.rewired then sent.(result := sent.result.(rewired := sent.result.rewired + 1))
          else sent
  }

  /** `rewire_opencode_duplicates`: stops at the first failure. */
  function RewireDuplicates(cfg: Config, st: State, duplicates: seq<Duplicate>, id: nat): State
    decreases |duplicates|
  {
    if duplicates == [] then st
    else
      var next := RewireOne(cfg, st, duplicates[0], id);
      if Stopped(next.result) then next else RewireDuplicates(cfg, next, duplicates[1..], id)
  }

  /** The end of the stream: the last chunk, or the duplicate-only tail. */
  function Close(cfg: Config, st: State, pending: seq<Sized<Prepared>>, duplicates: seq<Duplicate>): State {
    if pending == [] then
      if IsOpenCode(cfg) && st.result.duplicate > 0 && !cfg.writesEnabled then Failed(st, DuplicateOnlyBlocked)
      else
        var recorded := Finalize(cfg, st);
        if Stopped(recorded.result) || !IsOpenCode(cfg) || recorded.result.duplicate == 0 || recorded.current.None?
        then recorded
        else
          var labelled := ApplyOpenCodeLabels(cfg, recorded, recorded.current.value);
          if Stopped(labelled.result) then labelled
          else RewireDuplicates(cfg, labelled, duplicates, recorded.current.value)
    else
      var flushed := Flush(cfg, st, ItemsOf(pending), true);
      if Stopped(flushed.result) then flushed
      else
        var recorded := Finalize(cfg, flushed);
        if Stopped(recorded.result) || !IsOpenCode(cfg) || recorded.current.None? then recorded
        else RewireDuplicates(cfg, recorded, duplicates, recorded.current.value)
  }

  /** The streaming loop, with `pending` in the builder. */
  function StreamFrom(
      cfg: Config, st: State, items: seq<StreamItem>, pending: seq<Sized<Prepared>>, duplicates: seq<Duplicate>)
    : State
    decreases |items|
  {
    if items == [] then Close(cfg, st, pending, duplicates)
    else match items[0]
      case EntryItem(entry) =>
        var p := Prepare(cfg, entry);
        var next := Measure(cfg, p);
        if !IsEntryImportable(p.entry, cfg.since) then
          StreamFrom(cfg, CountFiltered(st), items[1..], pending, duplicates)
        else if Overflows(pending, next.size, cfg.limits) then
          var flushed := Flush(cfg, st, ItemsOf(pending), false);
          if Stopped(flushed.result) then flushed
          else StreamFrom(cfg, flushed, items[1..], [next], duplicates)
        else StreamFrom(cfg, st, items[1..], pending + [next], duplicates)
      case _ => StreamFrom(cfg, CountFiltered(st), items[1..], pending, duplicates)
  }

  function Start(cfg: Config, w: World, filtered: nat): State {
    State(w, [], [], None, SessionResult(Some(cfg.session.channel), None, false, 0, 0, filtered, 0, None, false))
  }

  function EntryItems(entries: seq<Entry>): (r: seq<StreamItem>)
    ensures |r| == |entries| && forall k :: 0 <= k < |r| ==> r[k] == EntryItem(entries[k])
  {
    seq(|entries|, k requires 0 <= k < |entries| => EntryItem(entries[k]))
  }

  /** The state the OpenCode preflight hands to the streaming loop. */
  function AfterPreflight(st: State, p: Preflighted): State {
    st.(current := p.thread,
        result := st.result.(duplicate := st.result.duplicate + p.duplicateCount, threadId := p.thread))
  }

  /** `run_import_streaming_with_event_sink`. */
  function RunStreaming(cfg: Config, w: World, items: seq<StreamItem>, filtered: nat): State {
    var st := Start(cfg, w, filtered);
    if !IsOpenCode(cfg) then StreamFrom(cfg, st, items, [], [])
    else match Preflight(cfg, st, items)
      case (asked, Err(error)) => Failed(asked, error)
      case (asked, Ok(p)) => StreamFrom(cfg, AfterPreflight(asked, p), EntryItems(p.newEntries), [], p.duplicates)
  }

  function Importable(entries: seq<Entry>, since: Option<int>): (r: seq<Entry>)
    ensures |r| <= |entries|
  {
    if entries == [] then []
    else
      Importable(entries[..|entries| - 1], since)
      + if IsEntryImportable(entries[|entries| - 1], since) then [entries[|entries| - 1]] else []
  }

  function PrepareAll(cfg: Config, entries: seq<Entry>): (r: seq<Prepared>)
    ensures |r| == |entries| && forall k :: 0 <= k < |r| ==> r[k] == Prepare(cfg, entries[k])
  {
    seq(|entries|, k requires 0 <= k < |entries| => Prepare(cfg, entries[k]))
  }

  function MeasureAll(cfg: Config, ps: seq<Prepared>): (r: seq<Sized<Prepared>>)
    ensures |r| == |ps| && forall k :: 0 <= k < |r| ==> r[k] == Measure(cfg, ps[k])
  {
    seq(|ps|, k requires 0 <= k < |ps| => Measure(cfg, ps[k]))
  }

  /** The ranges of `ps` that travel together, cut from `i` on with `start..i` still open. */
  ghost function CutsOf(cfg: Config, limits: Limits, ps: seq<Prepared>, start: nat, i: nat): (ranges: seq<Range>)
    requires start <= i <= |ps|
    ensures forall k :: 0 <= k < |ranges| ==> ranges[k].lo <= ranges[k].hi <= |ps|
    ensures start < |ps| ==> ranges != []
  {
    CutInBounds(Sizes(MeasureAll(cfg, ps)), start, i, limits);
    Cut(Sizes(MeasureAll(cfg, ps)), start, i, limits)
  }

  /** The vector path's loop over its chunks, each sent as it stands. */
  ghost function SendChunks(cfg: Config, st: State, ps: seq<Prepared>, ranges: seq<Range>): State
    requires forall k :: 0 <= k < |ranges| ==> ranges[k].lo <= ranges[k].hi <= |ps|
    decreases |ranges|
  {
    if ranges == [] then st
    else
      var sent := FlushSorted(cfg, st, ps[ranges[0].lo..ranges[0].hi], |ranges| == 1);
      if Stopped(sent.result) then sent else SendChunks(cfg, sent, ps, ranges[1..])
  }

  /** A chunk of the vector path: sorted with the whole session, not on its own. */
  function FlushSorted(cfg: Config, st: State, chunk: seq<Prepared>, isLast: bool): State {
    var batch := BatchOf(cfg, st.current, InputsOf(chunk), isLast);
    var (sent, reply) := Invoke(cfg, st, AddMemoriesBatch(batch));
    match reply
    case Err(_) => Failed(sent, BatchFailed)
    case Ok(response) => Receive(cfg, sent, |chunk|, response.reply)
  }

  /** `run_import_with_event_sink`, for any source but OpenCode. */
  ghost function RunVector(cfg: Config, w: World, entries: seq<Entry>, filtered: nat): State {
    var sorted := StableSort(entries, EntryKey);
    var importable := Importable(sorted, cfg.since);
    var st := Start(cfg, w, filtered + (|entries| - |importable|));
    if importable == [] then st else SendVector(cfg, st, PrepareAll(cfg, importable))
  }

  /** The prepared entries in their chunks, then the observations. */
  ghost function SendVector(cfg: Config, st: State, ps: seq<Prepared>): State {
    var sent := SendChunks(cfg, st, ps, CutsOf(cfg, DEFAULT_LIMITS, ps, 0, 0));
    if Stopped(sent.result) then sent else Finalize(cfg, sent)
  }

  /** `emit_session_completion`. */
  function EmitCompletion(cfg: Config, st: State): State {
    if !cfg.sinkOn || st.result.sessionKey.None? || st.result.threadId.None? then st
    else
      var event := SessionCompleted(st.result.sessionKey.value, st.result.threadId.value,
                                    st.result.imported + st.result.duplicate, st.result.error.None?);
      var (emitted, fine) := Emit(st, event);
      if fine then emitted else Failed(emitted, SinkFailed)
  }
}
