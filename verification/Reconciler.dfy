/**
 The embedding reconciler as a transition system: starts from any number of
 callers, the worker's item steps, its errors and panics, and the finisher, in
 every interleaving the locks allow.
 */
module Reconciler {
  import opened Wrappers

  datatype TableLabel = Memory | Thread | ReflectionIntent

  datatype ReportKind = MemoryText | MemoryMedia | ThreadKind | IntentKind

  const ALL_KINDS: set<ReportKind> := {MemoryText, MemoryMedia, ThreadKind, IntentKind}

  function KindOf(table: TableLabel, vectorKind: string): ReportKind {
    match table
    case Memory => if vectorKind == "image" then MemoryMedia else MemoryText
    case Thread => ThreadKind
    case ReflectionIntent => IntentKind
  }

  datatype TargetState = Complete | FailedBefore | Stale | Unverified | Missing

  predicate NeedsDispatch(state: TargetState, retryFailed: bool) {
    match state
    case Complete => false
    case FailedBefore => retryFailed
    case _ => true
  }

  datatype Force = NoForce | ForceAll | Entities(table: TableLabel, ids: set<int>)

  predicate Covers(force: Force, table: TableLabel, entityId: int) {
    match force
    case NoForce => false
    case ForceAll => true
    case Entities(t, ids) => t == table && entityId in ids
  }

  datatype Options = Options(retryFailed: bool, force: Force)

  datatype Item =
    | Target(table: TableLabel, entityId: int, vectorKind: string, state: TargetState)
    | Orphan(table: TableLabel, entityId: int, vectorKind: string)
    | CaptionMissing(entityId: int, mediaObjectId: int)

  /** The kind an item's failure is counted under. */
  function ItemKind(item: Item): ReportKind {
    match item
    case CaptionMissing(_, _) => KindOf(Memory, "caption")
    case _ => KindOf(item.table, item.vectorKind)
  }

  predicate Wanted(options: Options, item: Item) {
    item.Target? && (NeedsDispatch(item.state, options.retryFailed) || Covers(options.force, item.table, item.entityId))
  }

  datatype KindProgress = KindProgress(
    failedToDispatch: nat, missing: nat, stale: nat, unverified: nat, failed: nat,
    orphan: nat, dispatched: nat, complete: nat)

  const NO_PROGRESS := KindProgress(0, 0, 0, 0, 0, 0, 0, 0)

  datatype TaskStatus = Running | Completed | Failed

  datatype Progress = Progress(
    status: TaskStatus, kinds: map<ReportKind, KindProgress>, captionsRequested: nat, error: Option<string>)

  function Fresh(): Progress {
    Progress(Running, map k | k in ALL_KINDS :: NO_PROGRESS, 0, None)
  }

  function Bump(p: Progress, kind: ReportKind, f: KindProgress -> KindProgress): Progress {
    if kind in p.kinds then p.(kinds := p.kinds[kind := f(p.kinds[kind])]) else p
  }

  function CountState(k: KindProgress, state: TargetState): KindProgress {
    match state
    case Complete => k.(complete := k.complete + 1)
    case Missing => k.(missing := k.missing + 1)
    case Stale => k.(stale := k.stale + 1)
    case Unverified => k.(unverified := k.unverified + 1)
    case FailedBefore => k.(failed := k.failed + 1)
  }

  function CountDispatched(k: KindProgress): KindProgress {
    k.(dispatched := k.dispatched + 1)
  }

  function CountFailure(k: KindProgress): KindProgress {
    k.(failedToDispatch := k.failedToDispatch + 1)
  }

  function CountOrphan(k: KindProgress): KindProgress {
    k.(orphan := k.orphan + 1)
  }

  /** What `handle` counts before it dispatches anything. */
  function BeginProgress(p: Progress, item: Item): Progress {
    match item
    case Target(_, _, _, state) => Bump(p, ItemKind(item), k => CountState(k, state))
    case Orphan(_, _, _) => Bump(p, ItemKind(item), CountOrphan)
    case CaptionMissing(_, _) => p
  }

  /** How the dispatch or deletion of one item ends. */
  datatype Ending = Enqueued | Nothing | ItemFailed | Unregistered(message: string)

  /** The endings an item can have. */
  predicate Possible(options: Options, item: Item, ending: Ending) {
    match item
    case Target(_, _, _, _) => Wanted(options, item) || ending.Nothing?
    case Orphan(_, _, _) => ending.Nothing? || ending.ItemFailed?
    case CaptionMissing(_, _) => true
  }

  function SettleProgress(p: Progress, item: Item, ending: Ending): Progress {
    match ending
    case Enqueued =>
      if item.CaptionMissing? then p.(captionsRequested := p.captionsRequested + 1)
      else Bump(p, ItemKind(item), CountDispatched)
    case ItemFailed => Bump(p, ItemKind(item), CountFailure)
    case _ => p
  }

  /** Where a task's worker and finisher are. */
  datatype Phase =
    | Scanning
    | Handling(item: Item)
    | Ended(error: Option<string>)
    | Stamped(error: Option<string>)
    | Gone

  /** `begun` are the items the worker has taken so far. */
  datatype Task = Task(options: Options, progress: Progress, finishedAt: Option<nat>, phase: Phase, begun: seq<Item>)

  datatype System = System(tasks: map<string, Task>)

  datatype Step =
    | StartStep(options: Options, freshId: string)
    | BeginStep(id: string, item: Item)
    | SettleStep(id: string, ending: Ending)
    | EndStep(id: string, error: Option<string>)
    | PanicStep(id: string)
    | StampStep(id: string, now: nat)
    | PublishStep(id: string)

  ghost predicate HasRunning(s: System) {
    exists id :: id in s.tasks && s.tasks[id].progress.status == Running
  }

  /** `start_task`: the running task's id, or a new task under the fresh id. */
  ghost function StartTask(s: System, options: Options, freshId: string): (System, string) {
    if HasRunning(s) then
      var id :| id in s.tasks && s.tasks[id].progress.status == Running;
      (s, id)
    else
      (System(s.tasks[freshId := Task(options, Fresh(), None, Scanning, [])]), freshId)
  }

  predicate Enabled(s: System, step: Step) {
    match step
    case StartStep(_, freshId) => freshId !in s.tasks
    case BeginStep(id, _) => id in s.tasks && s.tasks[id].phase.Scanning?
    case SettleStep(id, ending) =>
      id in s.tasks && s.tasks[id].phase.Handling? && Possible(s.tasks[id].options, s.tasks[id].phase.item, ending)
    case EndStep(id, _) => id in s.tasks && s.tasks[id].phase.Scanning?
    case PanicStep(id) => id in s.tasks && (s.tasks[id].phase.Scanning? || s.tasks[id].phase.Handling?)
    case StampStep(id, _) => id in s.tasks && s.tasks[id].phase.Ended?
    case PublishStep(id) => id in s.tasks && s.tasks[id].phase.Stamped?
  }

  function Published(t: Task): Task
    requires t.phase.Stamped?
  {
    match t.phase.error
    case None => t.(progress := t.progress.(status := Completed), phase := Gone)
    case Some(e) => t.(progress := t.progress.(status := Failed, error := Some(e)), phase := Gone)
  }

  /** The one task a worker or finisher step is about, after the step. */
  function TaskAfter(t: Task, step: Step): Task
    requires !step.StartStep? && (step.SettleStep? ==> t.phase.Handling?)
    requires (step.StampStep? ==> t.phase.Ended?) && (step.PublishStep? ==> t.phase.Stamped?)
  {
    match step
    case BeginStep(_, item) =>
      t.(progress := BeginProgress(t.progress, item), phase := Handling(item), begun := t.begun + [item])
    case SettleStep(_, ending) =>
      t.(progress := SettleProgress(t.progress, t.phase.item, ending),
         phase := if ending.Unregistered? then Ended(Some(ending.message)) else Scanning)
    case EndStep(_, error) => t.(phase := Ended(error))
    case PanicStep(_) => t.(phase := Ended(Some("embedding task panicked")))
    case StampStep(_, now) => t.(finishedAt := Some(now), phase := Stamped(t.phase.error))
    case PublishStep(_) => Published(t)
  }

  ghost function Apply(s: System, step: Step): System
    requires Enabled(s, step)
  {
    if step.StartStep? then StartTask(s, step.options, step.freshId).0
    else s.(tasks := s.tasks[step.id := TaskAfter(s.tasks[step.id], step)])
  }

  /** The system after the steps, from one that never ran anything; none if a step was not possible. */
  ghost function After(steps: seq<Step>): Option<System> {
    if steps == [] then Some(System(map[]))
    else match After(steps[..|steps| - 1])
      case None => None
      case Some(s) => if Enabled(s, steps[|steps| - 1]) then Some(Apply(s, steps[|steps| - 1])) else None
  }

  // What the counters mean, counted over the items themselves.

  ghost function Count(items: seq<Item>, p: Item -> bool): nat {
    if items == [] then 0
    else Count(items[..|items| - 1], p) + if p(items[|items| - 1]) then 1 else 0
  }

  /** What a kind's line in the report is about: memories with an image or with anything else, threads, intents. */
  ghost predicate Concerns(kind: ReportKind, table: TableLabel, vectorKind: string) {
    match kind
    case MemoryText => table == Memory && vectorKind != "image"
    case MemoryMedia => table == Memory && vectorKind == "image"
    case ThreadKind => table == Thread
    case IntentKind => table == ReflectionIntent
  }

  ghost predicate ItemOf(kind: ReportKind, i: Item) {
    if i.CaptionMissing? then kind == MemoryText else Concerns(kind, i.table, i.vectorKind)
  }

  lemma KindIsItemOf(i: Item, kind: ReportKind)
    ensures ItemKind(i) == kind <==> ItemOf(kind, i)
  {
  }

  ghost function IsTarget(kind: ReportKind, state: TargetState): Item -> bool {
    (i: Item) => i.Target? && ItemOf(kind, i) && i.state == state
  }

  ghost function IsOrphan(kind: ReportKind): Item -> bool {
    (i: Item) => i.Orphan? && ItemOf(kind, i)
  }

  /** A target that is to be dispatched: not complete, failed ones only on request; or forced. */
  ghost predicate ToDispatch(options: Options, i: Item) {
    i.Target? &&
    ( || i.state in {Missing, Stale, Unverified}
      || (i.state == FailedBefore && options.retryFailed)
      || options.force.ForceAll?
      || (options.force.Entities? && options.force.table == i.table && i.entityId in options.force.ids))
  }

  lemma WantedIsToDispatch(options: Options, i: Item)
    ensures Wanted(options, i) <==> ToDispatch(options, i)
  {
  }

  ghost function IsWanted(options: Options, kind: ReportKind): Item -> bool {
    (i: Item) => ToDispatch(options, i) && ItemOf(kind, i)
  }

  /** Every state counter is the number of items taken in that state. */
  ghost predicate CountsItems(k: KindProgress, kind: ReportKind, begun: seq<Item>) {
    && k.complete == Count(begun, IsTarget(kind, Complete))
    && k.missing == Count(begun, IsTarget(kind, Missing))
    && k.stale == Count(begun, IsTarget(kind, Stale))
    && k.unverified == Count(begun, IsTarget(kind, Unverified))
    && k.failed == Count(begun, IsTarget(kind, FailedBefore))
    && k.orphan == Count(begun, IsOrphan(kind))
  }

  /** Items whose dispatch came to something: a job, a caption request, a failure. */
  ghost function Resolved(p: Progress): nat
    requires p.kinds.Keys == ALL_KINDS
  {
    p.captionsRequested
    + ResolvedIn(p.kinds[MemoryText]) + ResolvedIn(p.kinds[MemoryMedia])
    + ResolvedIn(p.kinds[ThreadKind]) + ResolvedIn(p.kinds[IntentKind])
  }

  function ResolvedIn(k: KindProgress): nat {
    k.dispatched + k.failedToDispatch
  }

  /** Items that are through, one in flight aside. */
  ghost function Handled(t: Task): nat {
    if t.phase.Handling? && t.begun != [] then |t.begun| - 1 else |t.begun|
  }

  ghost predicate CountersHold(t: Task) {
    && t.progress.kinds.Keys == ALL_KINDS
    && (t.phase.Handling? ==> t.begun != [] && t.begun[|t.begun| - 1] == t.phase.item)
    && (forall kind :: kind in ALL_KINDS ==> CountsItems(t.progress.kinds[kind], kind, t.begun))
    && Resolved(t.progress) <= Handled(t)
  }

  ghost predicate StatusHolds(t: Task) {
    && (t.progress.status == Running <==> !t.phase.Gone?)
    && (t.finishedAt.Some? <==> t.phase.Stamped? || t.phase.Gone?)
    && (t.progress.error.Some? <==> t.progress.status == Failed)
  }

  ghost predicate SingleFlight(s: System) {
    forall i, j ::
      (i in s.tasks && j in s.tasks
        && s.tasks[i].progress.status == Running && s.tasks[j].progress.status == Running)
      ==> i == j
  }

  /** One task at most is running, and every task's status, stamp and error agree. */
  ghost predicate Orderly(s: System) {
    SingleFlight(s) && forall id :: id in s.tasks ==> StatusHolds(s.tasks[id])
  }

  ghost predicate Counted(s: System) {
    forall id :: id in s.tasks ==> CountersHold(s.tasks[id])
  }

  ghost predicate Inv(s: System) {
    Orderly(s) && Counted(s)
  }

  lemma CountSnoc(items: seq<Item>, item: Item, p: Item -> bool)
    ensures Count(items + [item], p) == Count(items, p) + if p(item) then 1 else 0
  {
    assert (items + [item])[..|items|] == items;
  }

  lemma BeginCounts(k: KindProgress, kind: ReportKind, begun: seq<Item>, item: Item, k': KindProgress)
    requires CountsItems(k, kind, begun)
    requires k' == if ItemKind(item) != kind || item.CaptionMissing? then k
      else if item.Target? then CountState(k, item.state) else CountOrphan(k)
    ensures CountsItems(k', kind, begun + [item]) && ResolvedIn(k') == ResolvedIn(k)
  {
    hide KindOf, ItemOf;
    KindIsItemOf(item, kind);
    CountSnoc(begun, item, IsTarget(kind, Complete));
    CountSnoc(begun, item, IsTarget(kind, Missing));
    CountSnoc(begun, item, IsTarget(kind, Stale));
    CountSnoc(begun, item, IsTarget(kind, Unverified));
    CountSnoc(begun, item, IsTarget(kind, FailedBefore));
    CountSnoc(begun, item, IsOrphan(kind));
  }

  lemma BeginKeepsCounters(t: Task, item: Item)
    requires CountersHold(t) && t.phase.Scanning?
    ensures CountersHold(TaskAfter(t, BeginStep("", item)))
  {
    hide Count, CountsItems, KindOf, ItemKind;
    var t' := TaskAfter(t, BeginStep("", item));
    forall kind | kind in ALL_KINDS
      ensures CountsItems(t'.progress.kinds[kind], kind, t'.begun)
      ensures ResolvedIn(t'.progress.kinds[kind]) == ResolvedIn(t.progress.kinds[kind])
    {
      BeginCounts(t.progress.kinds[kind], kind, t.begun, item, t'.progress.kinds[kind]);
    }
  }

  lemma BumpResolves(p: Progress, kind: ReportKind, f: KindProgress -> KindProgress)
    requires p.kinds.Keys == ALL_KINDS && ResolvedIn(f(p.kinds[kind])) == ResolvedIn(p.kinds[kind]) + 1
    ensures Bump(p, kind, f).kinds.Keys == ALL_KINDS && Resolved(Bump(p, kind, f)) == Resolved(p) + 1
  {
  }

  lemma SameCounts(k: KindProgress, kind: ReportKind, begun: seq<Item>, k': KindProgress)
    requires CountsItems(k, kind, begun) && (k' == k || k' == CountDispatched(k) || k' == CountFailure(k))
    ensures CountsItems(k', kind, begun)
  {
    hide Count;
  }

  lemma SettleKeepsCounters(t: Task, ending: Ending)
    requires CountersHold(t) && t.phase.Handling?
    ensures CountersHold(TaskAfter(t, SettleStep("", ending)))
  {
    hide Count, KindOf, ItemKind, CountsItems, Resolved, ResolvedIn;
    var t', item := TaskAfter(t, SettleStep("", ending)), t.phase.item;
    forall kind | kind in ALL_KINDS ensures CountsItems(t'.progress.kinds[kind], kind, t'.begun) {
      SameCounts(t.progress.kinds[kind], kind, t.begun, t'.progress.kinds[kind]);
    }
    SettleResolves(t.progress, item, ending);
  }

  lemma SettleResolves(p: Progress, item: Item, ending: Ending)
    requires p.kinds.Keys == ALL_KINDS
    ensures SettleProgress(p, item, ending).kinds.Keys == ALL_KINDS
    ensures Resolved(SettleProgress(p, item, ending)) <= Resolved(p) + 1
  {
    hide KindOf, ItemKind;
    var kind := ItemKind(item);
    BumpResolves(p, kind, CountDispatched);
    BumpResolves(p, kind, CountFailure);
  }

  lemma TaskStepCounts(t: Task, step: Step)
    requires CountersHold(t) && !step.StartStep?
    requires step.BeginStep? ==> t.phase.Scanning?
    requires step.SettleStep? ==> t.phase.Handling?
    requires (step.StampStep? ==> t.phase.Ended?) && (step.PublishStep? ==> t.phase.Stamped?)
    ensures CountersHold(TaskAfter(t, step))
  {
    hide CountsItems, KindOf;
    match step {
      case BeginStep(_, item) => BeginKeepsCounters(t, item);
      case SettleStep(_, ending) => SettleKeepsCounters(t, ending);
      case _ =>
    }
  }

  lemma FreshHolds(options: Options)
    ensures CountersHold(Task(options, Fresh(), None, Scanning, []))
  {
    hide CountsItems;
    forall kind | kind in ALL_KINDS ensures CountsItems(NO_PROGRESS, kind, []) {
      NothingCounted(kind);
    }
  }

  lemma NothingCounted(kind: ReportKind)
    ensures CountsItems(NO_PROGRESS, kind, [])
  {
    hide IsTarget, IsOrphan;
  }

  /** A step is about one task at most. */
  lemma ApplyElsewhere(s: System, step: Step, id: string)
    requires Enabled(s, step) && id in s.tasks
    ensures id in Apply(s, step).tasks
    ensures Apply(s, step).tasks[id]
         == if step.StartStep? || step.id != id then s.tasks[id] else TaskAfter(s.tasks[id], step)
  {
    hide TaskAfter, Fresh;
  }

  lemma OnlyStartsAdd(s: System, step: Step, id: string)
    requires Enabled(s, step) && id in Apply(s, step).tasks && id !in s.tasks
    ensures step.StartStep? && !HasRunning(s)
    ensures Apply(s, step).tasks[id] == Task(step.options, Fresh(), None, Scanning, [])
  {
    hide TaskAfter, Fresh;
  }

  lemma StepKeepsCounted(s: System, step: Step)
    requires Counted(s) && Enabled(s, step)
    ensures Counted(Apply(s, step))
  {
    hide CountersHold, TaskAfter, Apply, Fresh;
    forall id | id in Apply(s, step).tasks ensures CountersHold(Apply(s, step).tasks[id]) {
      if id in s.tasks {
        ApplyElsewhere(s, step, id);
        if !step.StartStep? && step.id == id {
          TaskStepCounts(s.tasks[id], step);
        }
      } else {
        OnlyStartsAdd(s, step, id);
        FreshHolds(step.options);
      }
    }
  }

  ghost predicate KindForward(k: KindProgress, k': KindProgress) {
    && k.failedToDispatch <= k'.failedToDispatch && k.missing <= k'.missing && k.stale <= k'.stale
    && k.unverified <= k'.unverified && k.failed <= k'.failed && k.orphan <= k'.orphan
    && k.dispatched <= k'.dispatched && k.complete <= k'.complete
  }

  /** What counting does to one task: counters up, nothing else. */
  ghost predicate CountsUp(p: Progress, p': Progress) {
    && p'.status == p.status && p'.error == p.error
    && p.kinds.Keys == p'.kinds.Keys
    && p.captionsRequested <= p'.captionsRequested
    && forall kind :: kind in p.kinds ==> KindForward(p.kinds[kind], p'.kinds[kind])
  }

  lemma BeginCountsUp(p: Progress, item: Item)
    ensures CountsUp(p, BeginProgress(p, item))
  {
    hide KindOf, ItemKind;
  }

  lemma SettleCountsUp(p: Progress, item: Item, ending: Ending)
    ensures CountsUp(p, SettleProgress(p, item, ending))
  {
    hide KindOf, ItemKind;
  }

  lemma StepKeepsOrderly(s: System, step: Step)
    requires Orderly(s) && Enabled(s, step)
    ensures Orderly(Apply(s, step))
  {
    hide BeginProgress, SettleProgress, KindForward;
    match step {
      case BeginStep(id, item) => BeginCountsUp(s.tasks[id].progress, item);
      case SettleStep(id, ending) => SettleCountsUp(s.tasks[id].progress, s.tasks[id].phase.item, ending);
      case _ =>
    }
  }

  /** Every step of every caller, worker and finisher keeps the invariant. */
  lemma StepKeepsInv(s: System, step: Step)
    requires Inv(s) && Enabled(s, step)
    ensures Inv(Apply(s, step))
  {
    hide Orderly, Counted, Enabled, Apply;
    StepKeepsOrderly(s, step);
    StepKeepsCounted(s, step);
  }

  /** The invariant holds after every interleaving. */
  lemma {:induction false} RunKeepsInv(steps: seq<Step>)
    requires After(steps).Some?
    ensures Inv(After(steps).value)
  {
    if steps != [] {
      hide Inv, Enabled;
      var n := |steps| - 1;
      RunKeepsInv(steps[..n]);
      StepKeepsInv(After(steps[..n]).value, steps[n]);
    } else {
      assert Inv(System(map[]));
    }
  }

  // Starting.

  /** A start during a run adds nothing and returns the id of the one task running. */
  lemma StartDuringRun(s: System, options: Options, freshId: string, id: string)
    requires SingleFlight(s) && id in s.tasks && s.tasks[id].progress.status == Running
    ensures StartTask(s, options, freshId) == (s, id)
  {
    assert HasRunning(s);
  }

  /** Otherwise exactly one task is added, running and untouched. */
  lemma StartWhenIdle(s: System, options: Options, freshId: string)
    requires !HasRunning(s) && freshId !in s.tasks
    ensures var (s', id) := StartTask(s, options, freshId);
      && id == freshId && s'.tasks.Keys == s.tasks.Keys + {id}
      && s'.tasks[id].progress.status == Running && s'.tasks[id].begun == []
      && forall other :: other in s.tasks ==> s'.tasks[other] == s.tasks[other]
  {
  }

  // Time only moves forward.

  /** A task that is over never changes; one that is not only counts up, and is stamped once. */
  ghost predicate TaskForward(t: Task, t': Task) {
    && t'.options == t.options
    && (t.progress.status != Running ==> t' == t)
    && (t.finishedAt.Some? ==> t'.finishedAt == t.finishedAt)
    && t.begun <= t'.begun
    && t.progress.kinds.Keys == t'.progress.kinds.Keys == ALL_KINDS
    && t.progress.captionsRequested <= t'.progress.captionsRequested
    && forall kind :: kind in ALL_KINDS ==> KindForward(t.progress.kinds[kind], t'.progress.kinds[kind])
  }

  ghost predicate Forward(s: System, s': System) {
    forall id :: id in s.tasks ==> id in s'.tasks && TaskForward(s.tasks[id], s'.tasks[id])
  }

  lemma TaskStepForward(s: System, step: Step)
    requires Enabled(s, step) && !step.StartStep?
    requires StatusHolds(s.tasks[step.id]) && s.tasks[step.id].progress.kinds.Keys == ALL_KINDS
    ensures TaskForward(s.tasks[step.id], TaskAfter(s.tasks[step.id], step))
  {
    hide BeginProgress, SettleProgress;
    var t := s.tasks[step.id];
    match step {
      case BeginStep(_, item) => BeginCountsUp(t.progress, item);
      case SettleStep(_, ending) => SettleCountsUp(t.progress, t.phase.item, ending);
      case _ =>
    }
  }

  lemma TaskForwardSelf(t: Task)
    requires CountersHold(t)
    ensures t.progress.kinds.Keys == ALL_KINDS && TaskForward(t, t)
  {
  }

  lemma StepForward(s: System, step: Step)
    requires Inv(s) && Enabled(s, step)
    ensures Forward(s, Apply(s, step))
  {
    hide StatusHolds, CountersHold, TaskAfter, TaskForward, SingleFlight, Apply;
    forall id | id in s.tasks ensures id in Apply(s, step).tasks && TaskForward(s.tasks[id], Apply(s, step).tasks[id]) {
      ApplyElsewhere(s, step, id);
      TaskForwardSelf(s.tasks[id]);
      if !step.StartStep? && step.id == id {
        TaskStepForward(s, step);
      }
    }
  }

  lemma TaskForwardJoins(a: Task, b: Task, c: Task)
    requires TaskForward(a, b) && TaskForward(b, c)
    ensures TaskForward(a, c)
  {
    hide KindForward;
    assert a.begun <= b.begun <= c.begun;
    forall kind | kind in ALL_KINDS ensures KindForward(a.progress.kinds[kind], c.progress.kinds[kind]) {
      KindForwardJoins(a.progress.kinds[kind], b.progress.kinds[kind], c.progress.kinds[kind]);
    }
  }

  lemma KindForwardJoins(a: KindProgress, b: KindProgress, c: KindProgress)
    requires KindForward(a, b) && KindForward(b, c)
    ensures KindForward(a, c)
  {
  }

  lemma ForwardJoins(a: System, b: System, c: System)
    requires Forward(a, b) && Forward(b, c)
    ensures Forward(a, c)
  {
    hide TaskForward;
    forall id | id in a.tasks ensures id in c.tasks && TaskForward(a.tasks[id], c.tasks[id]) {
      TaskForwardJoins(a.tasks[id], b.tasks[id], c.tasks[id]);
    }
  }

  lemma {:induction false} EarlierPossible(steps: seq<Step>, n: nat)
    requires After(steps).Some? && n <= |steps|
    ensures After(steps[..n]).Some?
    decreases |steps|
  {
    if n == |steps| {
      assert steps[..n] == steps;
    } else {
      EarlierPossible(steps[..|steps| - 1], n);
      assert steps[..|steps| - 1][..n] == steps[..n];
    }
  }

  /** Between any two moments of any interleaving the tasks only moved forward. */
  lemma {:induction false} RunForward(steps: seq<Step>, n: nat)
    requires After(steps).Some? && n <= |steps|
    ensures After(steps[..n]).Some? && Forward(After(steps[..n]).value, After(steps).value)
    decreases |steps|
  {
    hide Inv, Enabled, Forward;
    EarlierPossible(steps, n);
    RunKeepsInv(steps[..n]);
    if n == |steps| {
      assert steps[..n] == steps;
      ForwardSelf(After(steps).value);
    } else {
      var init := steps[..|steps| - 1];
      assert init[..n] == steps[..n];
      RunForward(init, n);
      RunKeepsInv(init);
      StepForward(After(init).value, steps[|steps| - 1]);
      ForwardJoins(After(steps[..n]).value, After(init).value, After(steps).value);
    }
  }

  lemma ForwardSelf(s: System)
    requires Inv(s)
    ensures Forward(s, s)
  {
    forall id | id in s.tasks {
      TaskForwardSelf(s.tasks[id]);
    }
  }

  // Watching.

  /** What a caller asking for a task's progress is shown. */
  ghost function ProgressOf(s: System, id: string): Option<Progress> {
    if id in s.tasks then Some(s.tasks[id].progress) else None
  }

  /**
   Two answers about one task, at any two moments of any interleaving: a task once
   shown stays shown, its counters never go back, and an answer that it is over
   is its last, given only once the stamp is set.
   */
  lemma {:induction false} ProgressOnlyAdvances(steps: seq<Step>, n: nat, id: string)
    requires After(steps).Some? && n <= |steps|
    ensures After(steps[..n]).Some?
    ensures var earlier, later := ProgressOf(After(steps[..n]).value, id), ProgressOf(After(steps).value, id);
      earlier.Some? ==>
        && later.Some?
        && (earlier.value.status != Running ==> later == earlier)
        && (later.value.status != Running ==> After(steps).value.tasks[id].finishedAt.Some?)
        && earlier.value.captionsRequested <= later.value.captionsRequested
        && earlier.value.kinds.Keys == later.value.kinds.Keys == ALL_KINDS
        && forall kind :: kind in ALL_KINDS ==> KindForward(earlier.value.kinds[kind], later.value.kinds[kind])
  {
    hide After, KindForward, CountersHold, SingleFlight;
    RunForward(steps, n);
    RunKeepsInv(steps);
    if id in After(steps[..n]).value.tasks {
      assert TaskForward(After(steps[..n]).value.tasks[id], After(steps).value.tasks[id]);
      assert StatusHolds(After(steps).value.tasks[id]);
    }
  }

  // Finishing.

  ghost function Publications(steps: seq<Step>, id: string): nat {
    if steps == [] then 0
    else
      Publications(steps[..|steps| - 1], id)
      + if steps[|steps| - 1] == PublishStep(id) then 1 else 0
  }

  ghost predicate IsOver(s: System, id: string) {
    id in s.tasks && s.tasks[id].progress.status != Running
  }

  lemma StepPublishes(s: System, step: Step, id: string)
    requires Orderly(s) && Enabled(s, step)
    ensures IsOver(Apply(s, step), id) <==> IsOver(s, id) || step == PublishStep(id)
    ensures step == PublishStep(id) ==> !IsOver(s, id) && s.tasks[id].finishedAt.Some?
  {
    hide KindOf, SingleFlight;
  }

  /** A task's end is published at most once, and it is over exactly when it was. */
  lemma {:induction false} PublishedOnce(steps: seq<Step>, id: string)
    requires After(steps).Some?
    ensures Publications(steps, id) == if IsOver(After(steps).value, id) then 1 else 0
  {
    if steps != [] {
      hide Orderly, Enabled, Apply, IsOver;
      var n := |steps| - 1;
      RunKeepsInv(steps[..n]);
      PublishedOnce(steps[..n], id);
      StepPublishes(After(steps[..n]).value, steps[n], id);
    }
  }

  /** What the finisher makes of a worker's result. */
  ghost predicate FinishedAs(t: Task, error: Option<string>, now: nat) {
    && t.finishedAt == Some(now)
    && t.progress.status == (if error.None? then Completed else Failed)
    && t.progress.error == error
  }

  /**
   However a worker ended, its finisher can take its two steps, nobody else can
   take them away or change the task in between, and they end it for good.
   */
  lemma EndedFinishes(s: System, id: string, error: Option<string>, now: nat)
    requires Orderly(s) && id in s.tasks && s.tasks[id].phase == Ended(error)
    ensures Enabled(s, StampStep(id, now))
    ensures var stamped := Apply(s, StampStep(id, now));
      && stamped.tasks[id].progress.status == Running
      && Enabled(stamped, PublishStep(id))
      && FinishedAs(Apply(stamped, PublishStep(id)).tasks[id], error, now)
  {
    assert StatusHolds(s.tasks[id]);
  }

  /** The only step that changes a task whose worker has ended is its finisher's next one. */
  lemma FinisherAlone(s: System, step: Step, id: string)
    requires Enabled(s, step) && id in s.tasks
    requires
      || (s.tasks[id].phase.Ended? && !(step.StampStep? && step.id == id))
      || (s.tasks[id].phase.Stamped? && step != PublishStep(id))
      || s.tasks[id].phase.Gone?
    ensures id in Apply(s, step).tasks && Apply(s, step).tasks[id] == s.tasks[id]
  {
    hide TaskAfter, Fresh;
  }

  // Nothing is dispatched that was not wanted.

  ghost function InFlight(t: Task, kind: ReportKind): nat {
    if t.phase.Handling? && IsWanted(t.options, kind)(t.phase.item) then 1 else 0
  }

  ghost predicate OnlyWanted(t: Task) {
    t.progress.kinds.Keys == ALL_KINDS
    && forall kind :: kind in ALL_KINDS ==>
      t.progress.kinds[kind].dispatched + InFlight(t, kind) <= Count(t.begun, IsWanted(t.options, kind))
  }

  lemma TaskOnlyWanted(s: System, step: Step)
    requires Enabled(s, step) && !step.StartStep? && OnlyWanted(s.tasks[step.id])
    ensures OnlyWanted(TaskAfter(s.tasks[step.id], step))
  {
    hide Count, KindOf, ToDispatch, ItemOf;
    match step {
      case BeginStep(_, item) => BeginOnlyWanted(s.tasks[step.id], item);
      case SettleStep(_, ending) => SettleOnlyWanted(s.tasks[step.id], ending);
      case _ =>
    }
  }

  lemma BeginOnlyWanted(t: Task, item: Item)
    requires t.phase.Scanning? && OnlyWanted(t)
    ensures OnlyWanted(TaskAfter(t, BeginStep("", item)))
  {
    hide Count, KindOf, ToDispatch, ItemOf;
    forall kind | kind in ALL_KINDS {
      CountSnoc(t.begun, item, IsWanted(t.options, kind));
    }
  }

  lemma SettleOnlyWanted(t: Task, ending: Ending)
    requires t.phase.Handling? && OnlyWanted(t) && Possible(t.options, t.phase.item, ending)
    ensures OnlyWanted(TaskAfter(t, SettleStep("", ending)))
  {
    hide Count, KindOf, ToDispatch, ItemOf, Wanted;
    WantedIsToDispatch(t.options, t.phase.item);
    forall kind | kind in ALL_KINDS {
      KindIsItemOf(t.phase.item, kind);
    }
  }

  /** In every interleaving, jobs of a kind were only enqueued for wanted targets of that kind. */
  lemma {:induction false} DispatchesOnlyWanted(steps: seq<Step>, id: string)
    requires After(steps).Some? && id in After(steps).value.tasks
    ensures OnlyWanted(After(steps).value.tasks[id])
  {
    if steps != [] {
      hide OnlyWanted, TaskAfter, Enabled, Apply;
      var n := |steps| - 1;
      var s, step := After(steps[..n]).value, steps[n];
      if id in s.tasks {
        DispatchesOnlyWanted(steps[..n], id);
        ApplyElsewhere(s, step, id);
        if !step.StartStep? && step.id == id {
          TaskOnlyWanted(s, step);
        }
      } else {
        OnlyStartsAdd(s, step, id);
        assert forall kind :: kind in ALL_KINDS ==> Fresh().kinds[kind].dispatched == 0;
      }
    }
  }

  lemma {:induction false} WantedByState(options: Options, kind: ReportKind, items: seq<Item>)
    requires !options.retryFailed && options.force.NoForce?
    ensures Count(items, IsWanted(options, kind))
         == Count(items, IsTarget(kind, Missing)) + Count(items, IsTarget(kind, Stale))
            + Count(items, IsTarget(kind, Unverified))
  {
    if items != [] {
      hide ItemOf;
      WantedByState(options, kind, items[..|items| - 1]);
    }
  }

  /** Without retries or force, no more jobs than missing, stale and unverified targets together. */
  lemma PlainRunDispatches(steps: seq<Step>, id: string, kind: ReportKind)
    requires After(steps).Some? && id in After(steps).value.tasks && kind in ALL_KINDS
    requires var o := After(steps).value.tasks[id].options; !o.retryFailed && o.force.NoForce?
    ensures var t := After(steps).value.tasks[id];
      && t.progress.kinds.Keys == ALL_KINDS
      && var k := t.progress.kinds[kind]; k.dispatched <= k.missing + k.stale + k.unverified
  {
    hide Count, IsWanted, IsTarget, After;
    var t := After(steps).value.tasks[id];
    RunKeepsInv(steps);
    assert CountersHold(t);
    DispatchesOnlyWanted(steps, id);
    WantedByState(t.options, kind, t.begun);
  }

  // What was enqueued is counted, and nothing else: counted over the steps themselves.

  /** The item task `id` took last. */
  ghost function LastBegun(steps: seq<Step>, id: string): Option<Item> {
    if steps == [] then None
    else
      var last := steps[|steps| - 1];
      if last.BeginStep? && last.id == id then Some(last.item) else LastBegun(steps[..|steps| - 1], id)
  }

  /** The items of task `id` that were settled, each with how it ended. */
  ghost function Settlements(steps: seq<Step>, id: string): seq<(Item, Ending)> {
    if steps == [] then []
    else
      var init, last := steps[..|steps| - 1], steps[|steps| - 1];
      var before := Settlements(init, id);
      if last.SettleStep? && last.id == id && LastBegun(init, id).Some?
      then before + [(LastBegun(init, id).value, last.ending)] else before
  }

  ghost function CountEnded(ended: seq<(Item, Ending)>, p: (Item, Ending) -> bool): nat {
    if ended == [] then 0
    else
      var last := ended[|ended| - 1];
      CountEnded(ended[..|ended| - 1], p) + if p(last.0, last.1) then 1 else 0
  }

  lemma CountEndedSnoc(ended: seq<(Item, Ending)>, item: Item, ending: Ending, p: (Item, Ending) -> bool)
    ensures CountEnded(ended + [(item, ending)], p) == CountEnded(ended, p) + if p(item, ending) then 1 else 0
  {
    assert (ended + [(item, ending)])[..|ended|] == ended;
  }

  ghost function EnqueuedOf(kind: ReportKind): (Item, Ending) -> bool {
    (i: Item, e: Ending) => e.Enqueued? && i.Target? && ItemOf(kind, i)
  }

  ghost function FailedOf(kind: ReportKind): (Item, Ending) -> bool {
    (i: Item, e: Ending) => e.ItemFailed? && ItemOf(kind, i)
  }

  ghost function CaptionAsked(): (Item, Ending) -> bool {
    (i: Item, e: Ending) => e.Enqueued? && i.CaptionMissing?
  }

  /** The three outcome counters are the numbers of items that ended that way. */
  ghost predicate CountsEndings(p: Progress, ended: seq<(Item, Ending)>) {
    && p.kinds.Keys == ALL_KINDS
    && p.captionsRequested == CountEnded(ended, CaptionAsked())
    && forall kind :: kind in ALL_KINDS ==>
      && p.kinds[kind].dispatched == CountEnded(ended, EnqueuedOf(kind))
      && p.kinds[kind].failedToDispatch == CountEnded(ended, FailedOf(kind))
  }

  lemma BeginKeepsEndings(p: Progress, item: Item, ended: seq<(Item, Ending)>)
    requires CountsEndings(p, ended)
    ensures CountsEndings(BeginProgress(p, item), ended)
  {
    hide CountEnded, KindOf, ItemKind;
  }

  lemma SettleCountsEnding(options: Options, p: Progress, item: Item, ending: Ending, ended: seq<(Item, Ending)>)
    requires CountsEndings(p, ended) && Possible(options, item, ending)
    ensures CountsEndings(SettleProgress(p, item, ending), ended + [(item, ending)])
  {
    hide CountEnded, KindOf, ItemKind, ItemOf, Wanted;
    CountEndedSnoc(ended, item, ending, CaptionAsked());
    forall kind | kind in ALL_KINDS
      ensures CountEnded(ended + [(item, ending)], EnqueuedOf(kind))
           == CountEnded(ended, EnqueuedOf(kind))
              + if ending.Enqueued? && item.Target? && ItemKind(item) == kind then 1 else 0
      ensures CountEnded(ended + [(item, ending)], FailedOf(kind))
           == CountEnded(ended, FailedOf(kind)) + if ending.ItemFailed? && ItemKind(item) == kind then 1 else 0
    {
      KindIsItemOf(item, kind);
      CountEndedSnoc(ended, item, ending, EnqueuedOf(kind));
      CountEndedSnoc(ended, item, ending, FailedOf(kind));
    }
  }

  lemma FreshCountsEndings()
    ensures CountsEndings(Fresh(), [])
  {
    hide EnqueuedOf, FailedOf, CaptionAsked;
  }

  /** Before its start a task has neither taken nor settled anything. */
  lemma {:induction false} NothingBefore(steps: seq<Step>, id: string)
    requires After(steps).Some? && id !in After(steps).value.tasks
    ensures LastBegun(steps, id) == None && Settlements(steps, id) == []
  {
    if steps != [] {
      hide TaskAfter, Fresh;
      NothingBefore(steps[..|steps| - 1], id);
    }
  }

  /** The item in hand is the last one begun. */
  lemma {:induction false} InHand(steps: seq<Step>, id: string)
    requires After(steps).Some? && id in After(steps).value.tasks
    ensures var t := After(steps).value.tasks[id]; t.phase.Handling? ==> LastBegun(steps, id) == Some(t.phase.item)
  {
    if steps != [] {
      hide BeginProgress, SettleProgress, Possible;
      var n := |steps| - 1;
      if id in After(steps[..n]).value.tasks {
        InHand(steps[..n], id);
      }
    }
  }

  lemma TaskStepEndings(s: System, step: Step, ended: seq<(Item, Ending)>)
    requires Enabled(s, step) && !step.StartStep? && CountsEndings(s.tasks[step.id].progress, ended)
    ensures var t := s.tasks[step.id];
      CountsEndings(TaskAfter(t, step).progress,
                    if step.SettleStep? then ended + [(t.phase.item, step.ending)] else ended)
  {
    hide CountEnded, BeginProgress, SettleProgress, Possible;
    var t := s.tasks[step.id];
    match step {
      case BeginStep(_, item) => BeginKeepsEndings(t.progress, item, ended);
      case SettleStep(_, ending) => SettleCountsEnding(t.options, t.progress, t.phase.item, ending, ended);
      case _ =>
    }
  }

  /**
   After every interleaving: of each kind as many jobs are reported as targets of that
   kind were enqueued, as many failures as items of it failed, and as many captions as
   were asked for.
   */
  lemma {:induction false} EndingsAreCounted(steps: seq<Step>, id: string)
    requires After(steps).Some? && id in After(steps).value.tasks
    ensures CountsEndings(After(steps).value.tasks[id].progress, Settlements(steps, id))
  {
    if steps != [] {
      hide CountsEndings, TaskAfter, Enabled, Apply;
      var n := |steps| - 1;
      var s, step := After(steps[..n]).value, steps[n];
      if id in s.tasks {
        EndingsAreCounted(steps[..n], id);
        ApplyElsewhere(s, step, id);
        InHand(steps[..n], id);
        if !step.StartStep? && step.id == id {
          TaskStepEndings(s, step, Settlements(steps[..n], id));
          SettlesInHand(s, step);
        }
      } else {
        OnlyStartsAdd(s, step, id);
        NothingBefore(steps[..n], id);
        FreshCountsEndings();
      }
    }
  }

  lemma SettlesInHand(s: System, step: Step)
    requires Enabled(s, step)
    ensures step.SettleStep? ==> s.tasks[step.id].phase.Handling?
  {
  }

  // How a task turns out is how its worker ended.

  /** How the worker of task `id` ended, if it did: its error, or none. */
  ghost function WorkerEnd(steps: seq<Step>, id: string): Option<Option<string>> {
    if steps == [] then None
    else match steps[|steps| - 1]
      case EndStep(i, error) => if i == id then Some(error) else WorkerEnd(steps[..|steps| - 1], id)
      case PanicStep(i) =>
        if i == id then Some(Some("embedding task panicked")) else WorkerEnd(steps[..|steps| - 1], id)
      case SettleStep(i, Unregistered(message)) =>
        if i == id then Some(Some(message)) else WorkerEnd(steps[..|steps| - 1], id)
      case _ => WorkerEnd(steps[..|steps| - 1], id)
  }

  /** While it works the task runs; once over, it failed with the worker's error, or completed if there was none. */
  ghost predicate TurnsOutAs(t: Task, end: Option<Option<string>>) {
    match t.phase
    case Scanning => end == None
    case Handling(_) => end == None
    case Ended(error) => end == Some(error)
    case Stamped(error) => end == Some(error)
    case Gone =>
      && end.Some?
      && t.progress.status == (if end.value.Some? then Failed else Completed)
      && t.progress.error == end.value
  }

  lemma TaskStepTurnsOut(s: System, step: Step, end: Option<Option<string>>)
    requires Enabled(s, step) && !step.StartStep? && StatusHolds(s.tasks[step.id])
    requires TurnsOutAs(s.tasks[step.id], end)
    ensures TurnsOutAs(TaskAfter(s.tasks[step.id], step), EndAfter(step, end))
  {
    hide BeginProgress, SettleProgress, Possible;
  }

  /** What one step of a task does to how its worker ended. */
  ghost function EndAfter(step: Step, end: Option<Option<string>>): Option<Option<string>> {
    match step
    case EndStep(_, error) => Some(error)
    case PanicStep(_) => Some(Some("embedding task panicked"))
    case SettleStep(_, Unregistered(message)) => Some(Some(message))
    case _ => end
  }

  lemma WorkerEndStep(steps: seq<Step>, id: string)
    requires steps != []
    ensures var init, last := steps[..|steps| - 1], steps[|steps| - 1];
      WorkerEnd(steps, id)
      == if !last.StartStep? && last.id == id then EndAfter(last, WorkerEnd(init, id)) else WorkerEnd(init, id)
  {
  }

  lemma {:induction false} NoEndBefore(steps: seq<Step>, id: string)
    requires After(steps).Some? && id !in After(steps).value.tasks
    ensures WorkerEnd(steps, id) == None
  {
    if steps != [] {
      hide TaskAfter, Fresh, WorkerEnd;
      NoEndBefore(steps[..|steps| - 1], id);
      WorkerEndStep(steps, id);
    }
  }

  /**
   After every interleaving: a task that is over completed if its scan ended without an
   error, and failed with the error otherwise, a panic and missing workers included.
   */
  lemma {:induction false} TurnsOutAsItEnded(steps: seq<Step>, id: string)
    requires After(steps).Some? && id in After(steps).value.tasks
    ensures TurnsOutAs(After(steps).value.tasks[id], WorkerEnd(steps, id))
  {
    if steps != [] {
      hide TurnsOutAs, TaskAfter, Enabled, Apply, WorkerEnd, EndAfter, CountersHold, SingleFlight;
      var n := |steps| - 1;
      var s, step := After(steps[..n]).value, steps[n];
      WorkerEndStep(steps, id);
      if id in s.tasks {
        TurnsOutAsItEnded(steps[..n], id);
        RunKeepsInv(steps[..n]);
        assert StatusHolds(s.tasks[id]);
        ApplyElsewhere(s, step, id);
        if !step.StartStep? && step.id == id {
          TaskStepTurnsOut(s, step, WorkerEnd(steps[..n], id));
        }
      } else {
        OnlyStartsAdd(s, step, id);
        NoEndBefore(steps[..n], id);
        FreshTurnsOut(step.options);
      }
    }
  }

  lemma FreshTurnsOut(options: Options)
    ensures TurnsOutAs(Task(options, Fresh(), None, Scanning, []), None)
  {
  }
}
