/**
 The reconciler's objects: the lock-protected task map, a task's progress, the
 worker's paging loop and the finisher. Each object has a view in the transition
 system, and each method moves that view by steps of the system.
 */
module ReconcilerTask {
  import opened Wrappers
  import R = Reconciler

  datatype StartError = RebuildPending | NoSpace

  datatype HandleError = Unregistered(message: string) | ItemError

  /** How the dispatcher's answer for an item ends it; unwanted targets are never dispatched. */
  function EndingOf(options: R.Options, item: R.Item, answer: R.Ending): (ending: R.Ending)
    ensures R.Possible(options, item, ending)
  {
    match item
    case Target(_, _, _, _) => if R.Wanted(options, item) then answer else R.Nothing
    case Orphan(_, _, _) => if answer.ItemFailed? then answer else R.Nothing
    case CaptionMissing(_, _) => answer
  }

  /** A scanning task once one more item is handled. */
  function ItemDone(t: R.Task, item: R.Item, answer: R.Ending): R.Task
    requires t.phase.Scanning?
  {
    R.TaskAfter(R.TaskAfter(t, R.BeginStep("", item)), R.SettleStep("", EndingOf(t.options, item, answer)))
  }

  /** The task once its worker has taken the items, or stopped on the way. */
  function Worked(t: R.Task, items: seq<R.Item>, answers: nat -> R.Ending): R.Task {
    if items == [] then t
    else
      var n := |items| - 1;
      var before := Worked(t, items[..n], answers);
      if before.phase.Scanning? then ItemDone(before, items[n], answers(n)) else before
  }

  /** The task once its worker is done: stopped on the way, or at the end of the scan. */
  function WorkerDone(t: R.Task, items: seq<R.Item>, answers: nat -> R.Ending, scanError: Option<string>): R.Task {
    var worked := Worked(t, items, answers);
    if worked.phase.Scanning? then R.TaskAfter(worked, R.EndStep("", scanError)) else worked
  }

  lemma {:induction false} StopStays(t: R.Task, items: seq<R.Item>, n: nat, answers: nat -> R.Ending)
    requires n <= |items| && !Worked(t, items[..n], answers).phase.Scanning?
    ensures Worked(t, items, answers) == Worked(t, items[..n], answers)
    decreases |items|
  {
    hide ItemDone;
    if n == |items| {
      assert items[..n] == items;
    } else {
      var init := items[..|items| - 1];
      assert init[..n] == items[..n];
      StopStays(t, init, n, answers);
    }
  }

  function Flatten(pages: seq<seq<R.Item>>): seq<R.Item> {
    if pages == [] then [] else Flatten(pages[..|pages| - 1]) + pages[|pages| - 1]
  }

  lemma {:induction false} FlattenPrefix(pages: seq<seq<R.Item>>, i: nat)
    requires i <= |pages|
    ensures Flatten(pages[..i]) <= Flatten(pages)
    decreases |pages|
  {
    var n := |pages| - 1;
    if i <= n {
      assert pages[..n][..i] == pages[..i];
      FlattenPrefix(pages[..n], i);
    } else {
      assert pages[..i] == pages;
    }
  }

  /** What a worker that ran leaves as it was. */
  lemma {:induction false} WorkedHolds(t: R.Task, items: seq<R.Item>, answers: nat -> R.Ending)
    requires t.phase.Scanning? && R.StatusHolds(t)
    ensures var w := Worked(t, items, answers);
      && R.StatusHolds(w) && w.progress.status == t.progress.status && w.options == t.options
      && (w.phase.Scanning? || w.phase.Ended?)
  {
    hide R.KindOf, R.ItemKind, EndingOf;
    if items != [] {
      WorkedHolds(t, items[..|items| - 1], answers);
    }
  }

  /** The targets of a kind that are to be dispatched and whose dispatch is answered with a job. */
  ghost function Enqueues(options: R.Options, items: seq<R.Item>, answers: nat -> R.Ending, kind: R.ReportKind): nat {
    if items == [] then 0
    else
      var n := |items| - 1;
      Enqueues(options, items[..n], answers, kind)
      + if R.ToDispatch(options, items[n]) && R.ItemOf(kind, items[n]) && answers(n).Enqueued? then 1 else 0
  }

  lemma ItemDispatches(t: R.Task, item: R.Item, answer: R.Ending, kind: R.ReportKind)
    requires t.phase.Scanning? && t.progress.kinds.Keys == R.ALL_KINDS && kind in R.ALL_KINDS
    ensures var t' := ItemDone(t, item, answer);
      && t'.progress.kinds.Keys == R.ALL_KINDS && t'.options == t.options
      && t'.progress.kinds[kind].dispatched == t.progress.kinds[kind].dispatched
         + if R.ToDispatch(t.options, item) && R.ItemOf(kind, item) && answer.Enqueued? then 1 else 0
  {
    hide R.ItemOf, R.ItemKind, R.ToDispatch, R.Wanted, R.BeginProgress, R.SettleProgress;
    R.KindIsItemOf(item, kind);
    R.WantedIsToDispatch(t.options, item);
    BeginDispatchesNothing(t.progress, item, kind);
    SettleDispatches(R.BeginProgress(t.progress, item), item, EndingOf(t.options, item, answer), kind);
    Dispatchable(t.options, item);
  }

  lemma Dispatchable(options: R.Options, item: R.Item)
    ensures R.ToDispatch(options, item) ==> item.Target?
  {
  }

  lemma BeginDispatchesNothing(p: R.Progress, item: R.Item, kind: R.ReportKind)
    requires p.kinds.Keys == R.ALL_KINDS && kind in R.ALL_KINDS
    ensures var p' := R.BeginProgress(p, item);
      p'.kinds.Keys == R.ALL_KINDS && p'.kinds[kind].dispatched == p.kinds[kind].dispatched
  {
    hide R.ItemKind;
  }

  lemma SettleDispatches(p: R.Progress, item: R.Item, ending: R.Ending, kind: R.ReportKind)
    requires p.kinds.Keys == R.ALL_KINDS && kind in R.ALL_KINDS
    ensures var p' := R.SettleProgress(p, item, ending);
      && p'.kinds.Keys == R.ALL_KINDS
      && p'.kinds[kind].dispatched == p.kinds[kind].dispatched
         + if ending.Enqueued? && !item.CaptionMissing? && R.ItemKind(item) == kind then 1 else 0
  {
    hide R.ItemKind;
  }

  /** A worker that is not stopped reports a job for every target to be dispatched that got one. */
  lemma {:induction false} AllDispatched(
      t: R.Task, items: seq<R.Item>, answers: nat -> R.Ending, kind: R.ReportKind)
    requires t.phase.Scanning? && t.progress.kinds.Keys == R.ALL_KINDS && kind in R.ALL_KINDS
    requires Worked(t, items, answers).phase.Scanning?
    ensures var w := Worked(t, items, answers);
      && w.progress.kinds.Keys == R.ALL_KINDS && w.options == t.options
      && w.progress.kinds[kind].dispatched
         == t.progress.kinds[kind].dispatched + Enqueues(t.options, items, answers, kind)
  {
    if items != [] {
      hide ItemDone, R.ItemOf, R.ToDispatch;
      var n := |items| - 1;
      AllDispatched(t, items[..n], answers, kind);
      ItemDispatches(Worked(t, items[..n], answers), items[n], answers(n), kind);
    }
  }

  class Task {
    const options: R.Options
    var progress: R.Progress
    var finishedAt: Option<nat>
    ghost var phase: R.Phase
    ghost var begun: seq<R.Item>

    constructor (options: R.Options)
      ensures View() == R.Task(options, R.Fresh(), None, R.Scanning, [])
    {
      this.options := options;
      progress, finishedAt := R.Fresh(), None;
      phase, begun := R.Scanning, [];
    }

    ghost function View(): R.Task
      reads this
    {
      R.Task(options, progress, finishedAt, phase, begun)
    }

    method Bump(kind: R.ReportKind, f: R.KindProgress -> R.KindProgress)
      modifies `progress
      ensures progress == R.Bump(old(progress), kind, f)
    {
      if kind in progress.kinds {
        progress := progress.(kinds := progress.kinds[kind := f(progress.kinds[kind])]);
      }
    }

    /** `handle`, given what the dispatcher or the deletion answers if it is asked. */
    method Handle(item: R.Item, answer: R.Ending) returns (r: Result<(), HandleError>)
      modifies `progress
      ensures var ending := EndingOf(options, item, answer);
        && progress == (if ending.ItemFailed? then R.BeginProgress(old(progress), item)
                        else R.SettleProgress(R.BeginProgress(old(progress), item), item, ending))
        && r == match ending
                case Unregistered(message) => Err(Unregistered(message))
                case ItemFailed => Err(ItemError)
                case _ => Ok(())
    {
      var kind := R.ItemKind(item);
      match item {
        case Target(table, entityId, _, state) =>
          Bump(kind, k => R.CountState(k, state));
          if !(R.NeedsDispatch(state, options.retryFailed) || R.Covers(options.force, table, entityId)) {
            return Ok(());
          }
          match answer {
            case Enqueued => Bump(kind, R.CountDispatched);
            case Nothing =>
            case ItemFailed => return Err(ItemError);
            case Unregistered(message) => return Err(Unregistered(message));
          }
        case Orphan(_, _, _) =>
          Bump(kind, R.CountOrphan);
          if answer.ItemFailed? {
            return Err(ItemError);
          }
        case CaptionMissing(_, _) =>
          match answer {
            case Enqueued => progress := progress.(captionsRequested := progress.captionsRequested + 1);
            case Nothing =>
            case ItemFailed => return Err(ItemError);
            case Unregistered(message) => return Err(Unregistered(message));
          }
      }
      return Ok(());
    }

    /** One item of the worker's loop: its own failure is counted, only missing workers stop the run. */
    method HandleItem(item: R.Item, answer: R.Ending) returns (stop: Option<string>)
      requires phase.Scanning?
      modifies `progress, `phase, `begun
      ensures View() == ItemDone(old(View()), item, answer)
      ensures phase == if stop.Some? then R.Ended(stop) else R.Scanning
    {
      hide EndingOf, R.BeginProgress, R.ItemKind;
      ghost var ending := EndingOf(options, item, answer);
      var r := Handle(item, answer);
      if r.Err? && r.error.ItemError? {
        Bump(R.ItemKind(item), R.CountFailure);
      }
      stop := if r.Err? && r.error.Unregistered? then Some(r.error.message) else None;
      begun := begun + [item];
      phase := if stop.Some? then R.Ended(stop) else R.Scanning;
    }

    /** One page, after the items `done`. */
    method RunPage(page: seq<R.Item>, answers: nat -> R.Ending, ghost before: R.Task, ghost done: seq<R.Item>, n: nat)
      returns (stop: Option<string>)
      requires n == |done| && View() == Worked(before, done, answers) && phase.Scanning?
      modifies `progress, `phase, `begun
      ensures View() == Worked(before, done + page, answers)
      ensures phase == if stop.Some? then R.Ended(stop) else R.Scanning
    {
      hide ItemDone;
      assert done + page[..0] == done;
      for j := 0 to |page|
        invariant View() == Worked(before, done + page[..j], answers) && phase.Scanning?
      {
        assert (done + page[..j + 1])[..n + j] == done + page[..j];
        stop := HandleItem(page[j], answers(n + j));
        if stop.Some? {
          assert (done + page)[..n + j + 1] == done + page[..j + 1];
          StopStays(before, done + page, n + j + 1, answers);
          return;
        }
      }
      assert page[..|page|] == page;
      return None;
    }

    /** `run`: the scanner's pages, until they end, the scan fails, or nothing can be dispatched. */
    method Run(pages: seq<seq<R.Item>>, scanError: Option<string>, answers: nat -> R.Ending)
      returns (error: Option<string>)
      requires phase.Scanning?
      modifies `progress, `phase, `begun
      ensures View() == WorkerDone(old(View()), Flatten(pages), answers, scanError)
      ensures phase == R.Ended(error)
    {
      ghost var before := View();
      assert Worked(before, [], answers) == before;
      hide Worked;
      var n: nat := 0;
      for i := 0 to |pages|
        invariant n == |Flatten(pages[..i])|
        invariant View() == Worked(before, Flatten(pages[..i]), answers) && phase.Scanning?
      {
        assert pages[..i + 1][..i] == pages[..i];
        var stop := RunPage(pages[i], answers, before, Flatten(pages[..i]), n);
        n := n + |pages[i]|;
        if stop.Some? {
          FlattenPrefix(pages, i + 1);
          assert Flatten(pages)[..n] == Flatten(pages[..i + 1]);
          StopStays(before, Flatten(pages), n, answers);
          return stop;
        }
      }
      assert pages[..|pages|] == pages;
      phase := R.Ended(scanError);
      return scanError;
    }

    /** The finisher's first step. */
    method Stamp(now: nat)
      requires phase.Ended?
      modifies `finishedAt, `phase
      ensures View() == R.TaskAfter(old(View()), R.StampStep("", now))
    {
      finishedAt := Some(now);
      phase := R.Stamped(phase.error);
    }

    /** Its second: only a stamped task gets its final status. */
    method Publish(error: Option<string>)
      requires phase == R.Stamped(error)
      modifies `progress, `phase
      ensures View() == R.TaskAfter(old(View()), R.PublishStep(""))
    {
      match error {
        case None => progress := progress.(status := R.Completed);
        case Some(e) => progress := progress.(status := R.Failed, error := Some(e));
      }
      phase := R.Gone;
    }
  }

  // The worker's loop makes moves of the transition system and no others.

  /** The steps the worker of task `id` takes over these items. */
  ghost function StepsOf(id: string, t: R.Task, items: seq<R.Item>, answers: nat -> R.Ending): seq<R.Step> {
    if items == [] then []
    else
      var n := |items| - 1;
      var before := StepsOf(id, t, items[..n], answers);
      if Worked(t, items[..n], answers).phase.Scanning?
      then before + [R.BeginStep(id, items[n]), R.SettleStep(id, EndingOf(t.options, items[n], answers(n)))]
      else before
  }

  /** And the one it ends with, unless it was stopped. */
  ghost function EndOf(id: string, t: R.Task, items: seq<R.Item>, answers: nat -> R.Ending, scanError: Option<string>)
    : seq<R.Step>
  {
    if Worked(t, items, answers).phase.Scanning? then [R.EndStep(id, scanError)] else []
  }

  lemma {:induction false} OneMoreStep(steps: seq<R.Step>, a: R.Step)
    requires R.After(steps).Some? && R.Enabled(R.After(steps).value, a)
    ensures R.After(steps + [a]) == Some(R.Apply(R.After(steps).value, a))
  {
    hide R.Enabled, R.Apply;
    assert (steps + [a])[..|steps|] == steps;
  }

  /** The system with one task's state replaced. */
  ghost function With(s: R.System, id: string, t: R.Task): R.System {
    R.System(s.tasks[id := t])
  }

  lemma ItemSteps(s: R.System, id: string, t: R.Task, item: R.Item, answer: R.Ending)
    requires t.phase.Scanning?
    ensures var now, begin := With(s, id, t), R.BeginStep(id, item);
      var settle := R.SettleStep(id, EndingOf(t.options, item, answer));
      && R.Enabled(now, begin) && R.Enabled(R.Apply(now, begin), settle)
      && R.Apply(R.Apply(now, begin), settle) == With(s, id, ItemDone(t, item, answer))
  {
    hide R.BeginProgress, R.SettleProgress, EndingOf, R.Possible;
  }

  lemma {:induction false} ItemsAreSteps(
      before: seq<R.Step>, id: string, t: R.Task, items: seq<R.Item>, answers: nat -> R.Ending)
    requires R.After(before).Some? && id in R.After(before).value.tasks && R.After(before).value.tasks[id] == t
    requires t.phase.Scanning? && R.StatusHolds(t)
    ensures R.After(before + StepsOf(id, t, items, answers))
         == Some(With(R.After(before).value, id, Worked(t, items, answers)))
  {
    hide R.Enabled, R.Apply, R.After, EndingOf, ItemDone, R.StatusHolds;
    if items == [] {
      assert before + [] == before;
      assert With(R.After(before).value, id, t).tasks == R.After(before).value.tasks;
    } else {
      var n := |items| - 1;
      ItemsAreSteps(before, id, t, items[..n], answers);
      WorkedHolds(t, items[..n], answers);
      var now := Worked(t, items[..n], answers);
      if now.phase.Scanning? {
        var so := before + StepsOf(id, t, items[..n], answers);
        var a, b := R.BeginStep(id, items[n]), R.SettleStep(id, EndingOf(t.options, items[n], answers(n)));
        ItemSteps(R.After(before).value, id, now, items[n], answers(n));
        OneMoreStep(so, a);
        OneMoreStep(so + [a], b);
        assert before + StepsOf(id, t, items, answers) == so + [a] + [b];
      }
    }
  }

  /**
   In any reachable system in which task `id` is scanning, what its worker does is
   a run of the system: begins, settlings and an end, and no other task changes.
   */
  lemma {:induction false} RunIsSteps(
      before: seq<R.Step>, id: string, items: seq<R.Item>, answers: nat -> R.Ending, scanError: Option<string>)
    requires R.After(before).Some? && id in R.After(before).value.tasks
    requires R.After(before).value.tasks[id].phase.Scanning?
    ensures var s := R.After(before).value;
      var t := s.tasks[id];
      R.After(before + StepsOf(id, t, items, answers) + EndOf(id, t, items, answers, scanError))
      == Some(With(s, id, WorkerDone(t, items, answers, scanError)))
  {
    hide R.After, Worked, StepsOf, R.CountersHold, R.SingleFlight;
    R.RunKeepsInv(before);
    var t := R.After(before).value.tasks[id];
    assert R.StatusHolds(t);
    ItemsAreSteps(before, id, t, items, answers);
    var so := before + StepsOf(id, t, items, answers);
    if Worked(t, items, answers).phase.Scanning? {
      OneMoreStep(so, R.EndStep(id, scanError));
      var now := With(R.After(before).value, id, Worked(t, items, answers));
      assert R.Apply(now, R.EndStep(id, scanError)).tasks
          == With(R.After(before).value, id, WorkerDone(t, items, answers, scanError)).tasks;
    } else {
      assert so + [] == so;
    }
  }

  lemma WithKeepsOrderly(s: R.System, id: string, t: R.Task)
    requires R.Orderly(s) && id in s.tasks && R.StatusHolds(t)
    requires t.progress.status == s.tasks[id].progress.status
    ensures R.Orderly(With(s, id, t))
  {
    hide R.StatusHolds;
  }

  class EmbeddingReconciler {
    var tasks: map<string, Task>

    constructor ()
      ensures Valid() && View() == R.System(map[])
    {
      tasks := map[];
    }

    ghost function View(): R.System
      reads this, tasks.Values
    {
      R.System(map id | id in tasks :: tasks[id].View())
    }

    ghost predicate Valid()
      reads this, tasks.Values
    {
      && R.Orderly(View())
      && forall i, j :: i in tasks && j in tasks && i != j ==> tasks[i] != tasks[j]
    }

    /** `start_task`: the id of the running task, or of the one inserted because none was. */
    method StartTask(options: R.Options, freshId: string) returns (id: string)
      requires Valid() && freshId !in tasks
      modifies this
      ensures Valid() && (View(), id) == R.StartTask(old(View()), options, freshId)
      ensures forall other :: other in old(tasks) ==> other in tasks && tasks[other] == old(tasks)[other]
      ensures id in tasks && tasks[id].progress.status.Running?
    {
      ghost var before := View();
      var ids := tasks.Keys;
      while ids != {}
        invariant ids <= tasks.Keys
        invariant forall other :: other in tasks && other !in ids ==> !tasks[other].progress.status.Running?
      {
        var other :| other in ids;
        if tasks[other].progress.status.Running? {
          assert before.tasks[other].progress.status.Running?;
          R.StartDuringRun(before, options, freshId, other);
          return other;
        }
        ids := ids - {other};
      }
      assert !R.HasRunning(before);
      R.StepKeepsOrderly(before, R.StartStep(options, freshId));
      var task := new Task(options);
      id := freshId;
      tasks := tasks[id := task];
      assert View().tasks == R.StartTask(before, options, freshId).0.tasks;
    }

    /** `start`: refused during a rebuild and without a space. */
    method Start(options: R.Options, rebuilding: bool, hasSpace: bool, freshId: string)
      returns (r: Result<string, StartError>)
      requires Valid() && freshId !in tasks
      modifies this
      ensures Valid()
      ensures r.Err? <==> rebuilding || !hasSpace
      ensures r.Err? ==> View() == old(View()) && r.error == if rebuilding then RebuildPending else NoSpace
      ensures r.Ok? ==> (View(), r.value) == R.StartTask(old(View()), options, freshId)
    {
      if rebuilding {
        return Err(RebuildPending);
      }
      if !hasSpace {
        return Err(NoSpace);
      }
      var id := StartTask(options, freshId);
      return Ok(id);
    }

    /** The spawned worker. */
    method Work(id: string, pages: seq<seq<R.Item>>, scanError: Option<string>, answers: nat -> R.Ending)
      returns (error: Option<string>)
      requires Valid() && id in tasks && tasks[id].phase.Scanning?
      modifies tasks[id]
      ensures Valid() && tasks[id].phase == R.Ended(error)
      ensures View() == With(old(View()), id, WorkerDone(old(tasks[id].View()), Flatten(pages), answers, scanError))
    {
      hide Worked, Flatten, R.SingleFlight;
      ghost var before, t := View(), tasks[id].View();
      assert before.tasks[id] == t;
      WorkedHolds(t, Flatten(pages), answers);
      WithKeepsOrderly(before, id, WorkerDone(t, Flatten(pages), answers, scanError));
      hide R.Orderly;
      error := tasks[id].Run(pages, scanError, answers);
      assert View().tasks == With(before, id, tasks[id].View()).tasks;
    }

    /** The spawned finisher: the stamp, then the status. */
    method Finish(id: string, error: Option<string>, now: nat)
      requires Valid() && id in tasks && tasks[id].phase == R.Ended(error)
      modifies tasks[id]
      ensures Valid() && R.Enabled(old(View()), R.StampStep(id, now))
      ensures var stamped := R.Apply(old(View()), R.StampStep(id, now));
        R.Enabled(stamped, R.PublishStep(id)) && View() == R.Apply(stamped, R.PublishStep(id))
    {
      ghost var before := View();
      ghost var stamped := R.Apply(before, R.StampStep(id, now));
      R.StepKeepsOrderly(before, R.StampStep(id, now));
      tasks[id].Stamp(now);
      assert View().tasks == stamped.tasks;
      R.StepKeepsOrderly(stamped, R.PublishStep(id));
      tasks[id].Publish(error);
      assert View().tasks == R.Apply(stamped, R.PublishStep(id)).tasks;
    }

    method ProgressOf(id: string) returns (p: Option<R.Progress>)
      ensures p == R.ProgressOf(View(), id)
    {
      if id !in tasks {
        return None;
      }
      return Some(tasks[id].progress);
    }
  }
}
