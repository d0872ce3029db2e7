/**
 What a run does besides its batches, over every client: whether it records its
 observations, for which thread and identity, and how many links it reports.
 */
module Tail {
  import opened Wrappers
  import opened Canonical
  import opened Batching
  import opened Store
  import opened Network
  import opened ImportRun
  import opened Refinement
  import Rewire
  import Protocol

  ghost function RecordsOf(log: seq<Exchange>): seq<Exchange> {
    if log == [] then []
    else
      var last := log[|log| - 1];
      RecordsOf(log[..|log| - 1]) + if last.request.RecordObservations? then [last] else []
  }

  ghost predicate Granted(x: Exchange) {
    x.request.UpdateMemoryParents? && x.reply == Ok(ParentsDone(true))
  }

  /** The updates that were answered as having filled a row's links. */
  ghost function Grants(log: seq<Exchange>): nat {
    if log == [] then 0 else Grants(log[..|log| - 1]) + if Granted(log[|log| - 1]) then 1 else 0
  }

  /** Nothing recorded yet, and every granted update reported. */
  ghost predicate Before(st: State) {
    RecordsOf(st.log) == [] && (!Stopped(st.result) ==> st.result.rewired == Grants(st.log))
  }

  lemma OneMore(log: seq<Exchange>, x: Exchange)
    ensures RecordsOf(log + [x]) == RecordsOf(log) + if x.request.RecordObservations? then [x] else []
    ensures Grants(log + [x]) == Grants(log) + if Granted(x) then 1 else 0
  {
    assert (log + [x])[..|log|] == log;
  }

  /** Nothing was recorded or granted in between, and nothing is reported differently. */
  ghost predicate Else(st: State, r: State) {
    RecordsOf(r.log) == RecordsOf(st.log) && Grants(r.log) == Grants(st.log) && r.result == st.result
  }

  lemma ElseJoins(a: State, b: State, c: State)
    requires Else(a, b) && Else(b, c)
    ensures Else(a, c)
  {
  }

  lemma ElseSelf(st: State)
    ensures Else(st, st)
  {
  }

  /** A request that is neither a record nor an update matters for neither. */
  lemma InvokeElse(cfg: Config, st: State, request: Request)
    requires !request.RecordObservations? && !request.UpdateMemoryParents?
    ensures Else(st, Invoke(cfg, st, request).0)
  {
    OneMore(st.log, Exchange(request, Invoke(cfg, st, request).1));
  }

  lemma InvokeUpdate(cfg: Config, st: State, request: Request)
    requires request.UpdateMemoryParents?
    ensures var (r, reply) := Invoke(cfg, st, request);
      && RecordsOf(r.log) == RecordsOf(st.log)
      && Grants(r.log) == Grants(st.log) + if reply.Ok? && reply.value.rewired then 1 else 0
  {
    OneMore(st.log, Exchange(request, Invoke(cfg, st, request).1));
  }

  // The rewire pass.

  /** Which of the exchanges from `from` on are granted updates. */
  ghost function GrantedAt(log: seq<Exchange>, from: nat): nat -> bool {
    (i: nat) => from + i < |log| && Granted(log[from + i])
  }

  lemma NaturalSnoc(n: nat)
    requires n > 0
    ensures |Natural(n)| == n && Natural(n)[..n - 1] == Natural(n - 1) && Natural(n)[n - 1] == n - 1
  {
  }

  lemma {:induction false} GrantsAfter(log: seq<Exchange>, from: nat, n: nat)
    requires from + n <= |log|
    ensures Grants(log[..from + n]) == Grants(log[..from]) + Rewire.CountIf(Natural(n), GrantedAt(log, from))
  {
    if n > 0 {
      hide Grants, RecordsOf, Granted;
      hide Natural;
      GrantsAfter(log, from, n - 1);
      NaturalSnoc(n);
      assert log[..from + n] == log[..from + n - 1] + [log[from + n - 1]];
      OneMore(log[..from + n - 1], log[from + n - 1]);
    }
  }

  ghost predicate IsUpdate(x: Exchange) {
    x.request.UpdateMemoryParents? && (x.reply.Ok? ==> x.reply.value.ParentsDone?)
  }

  lemma {:induction false} ReadsGranted(log: seq<Exchange>, from: nat, done: seq<nat>)
    requires forall k :: 0 <= k < |done| ==> from + done[k] < |log|
    requires forall k :: from <= k < |log| ==> IsUpdate(log[k])
    requires CountRewired(RepliesIn(log, from, done)).1
    ensures CountRewired(RepliesIn(log, from, done)).0 == Rewire.CountIf(done, GrantedAt(log, from))
  {
    if done != [] {
      var n := |done| - 1;
      var replies := RepliesIn(log, from, done);
      assert replies[..n] == RepliesIn(log, from, done[..n]);
      var x := log[from + done[n]];
      CountSnoc(replies);
      ReadsGranted(log, from, done[..n]);
      assert replies[n] == x.reply && IsUpdate(x);
      assert Granted(x) <==> x.reply.Ok? && x.reply.value.rewired;
    }
  }

  lemma CountSnoc(replies: seq<Reply>)
    requires replies != [] && CountRewired(replies).1
    ensures var n := |replies| - 1;
      && CountRewired(replies[..n]).1 && replies[n].Ok?
      && CountRewired(replies).0
         == CountRewired(replies[..n]).0 + if replies[n].value.ParentsDone? && replies[n].value.rewired then 1 else 0
  {
  }

  lemma {:induction false} RunJobsElse(cfg: Config, st: State, jobs: seq<Request>, order: seq<nat>)
    requires forall k :: 0 <= k < |order| ==> order[k] < |jobs|
    requires forall j :: j in jobs ==> j.UpdateMemoryParents?
    ensures var r := RunJobs(cfg, st, jobs, order);
      && RecordsOf(r.log) == RecordsOf(st.log) && st.log <= r.log
      && forall k :: |st.log| <= k < |r.log| ==> IsUpdate(r.log[k])
  {
    if order != [] {
      hide Invoke, RecordsOf;
      var n := |order| - 1;
      var before := RunJobs(cfg, st, jobs, order[..n]);
      RunJobsElse(cfg, st, jobs, order[..n]);
      InvokeUpdate(cfg, before, jobs[order[n]]);
    }
  }

  lemma RewirePassBefore(cfg: Config, st: State, outcomes: seq<Outcome>, id: nat)
    requires Before(st) && !Stopped(st.result)
    ensures Before(RewirePass(cfg, st, outcomes, id))
  {
    hide JobsOf, RunJobs, CountRewired, NextSchedule, RecordsOf, Grants, CountOutcomes;
    var jobs := JobsOf(id, outcomes);
    var (schedule, world) := NextSchedule(st.world, |jobs|);
    var counted := CountOutcomes(st, outcomes).(world := world);
    Rewire.SchedulesPermute(st.world, |jobs|);
    Rewire.CountingKeeps(st, outcomes);
    RewiredStays(st, outcomes);
    RunJobsElse(cfg, counted, jobs, schedule.exec);
    var ran, from, n := RunJobs(cfg, counted, jobs, schedule.exec), |st.log|, |jobs|;
    if CountRewired(RepliesIn(ran.log, from, schedule.done)).1 {
      ReadsGranted(ran.log, from, schedule.done);
      Rewire.PermutationIsNatural(schedule.done, n);
      Rewire.CountIfPermuted(schedule.done, Natural(n), GrantedAt(ran.log, from));
      GrantsAfter(ran.log, from, n);
      assert ran.log[..from + n] == ran.log && ran.log[..from] == st.log;
    }
  }

  lemma RewiredStays(st: State, outcomes: seq<Outcome>)
    ensures CountOutcomes(st, outcomes).result.rewired == st.result.rewired
    ensures Stopped(CountOutcomes(st, outcomes).result) == Stopped(st.result)
  {
  }

  lemma ReceiveBefore(cfg: Config, st: State, sent: nat, reply: BatchReply)
    requires Before(st) && !Stopped(st.result)
    ensures Before(Receive(cfg, st, sent, reply))
  {
    hide RewirePass, RecordsOf, Grants;
    if !reply.suppressed && reply.threadId.Some? {
      var (announced, fine) := Announce(cfg, st, reply.threadId.value, reply.threadCreated);
      RewirePassBefore(cfg, announced.(current := reply.threadId), reply.outcomes, reply.threadId.value);
    }
  }

  lemma {:induction false} FlushBefore(cfg: Config, st: State, chunk: seq<Prepared>, isLast: bool)
    requires Before(st) && !Stopped(st.result)
    ensures Before(Flush(cfg, st, chunk, isLast))
  {
    hide Receive, StableSort, BatchOf, RecordsOf, Grants, Invoke;
    var batch := BatchOf(cfg, st.current, InputsOf(StableSort(chunk, PreparedKey)), isLast);
    var (sent, reply) := Invoke(cfg, st, AddMemoriesBatch(batch));
    FlushUnfold(cfg, st, chunk, isLast, batch);
    InvokeElse(cfg, st, AddMemoriesBatch(batch));
    if reply.Ok? {
      ReceiveBefore(cfg, sent, |chunk|, reply.value.reply);
    }
  }

  // The tail.

  /** The service can record observations for the session: it has some, or an identity of known scope. */
  ghost predicate HasSubject(session: Session, identity: Identity) {
    Protocol.IsIdentityOf(session, identity) && (session.observations != [] || identity.identityScope.Known?)
  }

  /** The one record there may be is for the session's thread and identity, and only with writes enabled. */
  ghost predicate RecordsFit(cfg: Config, r: State) {
    var records := RecordsOf(r.log);
    records != [] ==>
      && |records| == 1 && cfg.writesEnabled
      && records[0].request.RecordObservations?
      && r.result.threadId == Some(records[0].request.subjectThread)
      && exists identity :: HasSubject(cfg.session, identity)
           && Protocol.Endpoints(records[0].request.subject, identity, cfg.userId)
  }

  /** What holds once the run is past its batches. */
  ghost predicate Past(cfg: Config, r: State) {
    && RecordsFit(cfg, r)
    && (!Stopped(r.result) ==>
        && r.result.rewired == Grants(r.log)
        && (RecordsOf(r.log) != [] <==>
            && cfg.writesEnabled && r.result.threadId.Some?
            && exists identity :: HasSubject(cfg.session, identity)))
  }

  lemma RecordableMeans(cfg: Config)
    ensures Recordable(cfg) <==> exists identity :: HasSubject(cfg.session, identity)
    ensures Recordable(cfg) ==> HasSubject(cfg.session, CanonicalSourceIdentity(cfg.session).value)
  {
    if Recordable(cfg) {
      assert HasSubject(cfg.session, CanonicalSourceIdentity(cfg.session).value);
    }
    if exists identity :: HasSubject(cfg.session, identity) {
      var identity :| HasSubject(cfg.session, identity);
      assert identity == CanonicalSourceIdentity(cfg.session).value;
    }
  }

  lemma FinalizePast(cfg: Config, st: State)
    requires Before(st)
    ensures Past(cfg, Finalize(cfg, st)) && Finalize(cfg, st).result.threadId == st.result.threadId
  {
    hide RecordsOf, Grants, Recordable, Invoke, Granted;
    RecordableMeans(cfg);
    if Recordable(cfg) && cfg.writesEnabled && !Stopped(st.result) && st.result.threadId.Some? {
      var identity := CanonicalSourceIdentity(cfg.session).value;
      var subject := Endpoint(identity, cfg.userId);
      var request := RecordObservations(st.result.threadId.value, subject);
      var x := Exchange(request, Invoke(cfg, st, request).1);
      OneMore(st.log, x);
      NotGranted(x);
      assert RecordsOf(st.log) + [x] == [x];
      assert HasSubject(cfg.session, identity) && Protocol.Endpoints(subject, identity, cfg.userId);
    }
  }

  lemma NotGranted(x: Exchange)
    requires !x.request.UpdateMemoryParents?
    ensures !Granted(x)
  {
  }

  /** What comes after the record records nothing, and reports every granted update. */
  ghost predicate Adds(st: State, r: State) {
    && RecordsOf(r.log) == RecordsOf(st.log)
    && r.result.threadId == st.result.threadId
    && (Stopped(st.result) ==> Stopped(r.result))
    && (!Stopped(r.result) ==> r.result.rewired + Grants(st.log) == st.result.rewired + Grants(r.log))
  }

  lemma AddsKeepsPast(cfg: Config, st: State, r: State)
    requires Past(cfg, st) && Adds(st, r)
    ensures Past(cfg, r)
  {
    hide RecordsOf, Grants;
  }

  lemma ApplyLabelsAdds(cfg: Config, st: State, id: nat)
    ensures Adds(st, ApplyOpenCodeLabels(cfg, st, id))
  {
    hide RecordsOf, Grants, BuildLabels, Invoke;
    InvokeElse(cfg, st, AddLabels(id, BuildLabels(cfg.session, cfg.extraLabels)));
  }

  lemma {:induction false} ParentLookupsElse(cfg: Config, st: State, parents: seq<string>, id: nat)
    ensures Else(st, ParentLookups(cfg, st, parents, id).0)
  {
    hide Else, Invoke, CheckParent;
    ElseSelf(st);
    if parents != [] {
      var n := |parents| - 1;
      var before := ParentLookups(cfg, st, parents[..n], id).0;
      ParentLookupsElse(cfg, st, parents[..n], id);
      InvokeElse(cfg, before, FindMemory(parents[n]));
      ElseJoins(st, before, Invoke(cfg, before, FindMemory(parents[n])).0);
    }
  }

  lemma RewireOneAdds(cfg: Config, st: State, d: Duplicate, id: nat)
    ensures Adds(st, RewireOne(cfg, st, d, id))
  {
    hide RecordsOf, Grants, Invoke, ParentLookups;
    if Rewritable(d) {
      ParentLookupsElse(cfg, st, d.entry.parentExternalIds, id);
      var (asked, found) := ParentLookups(cfg, st, d.entry.parentExternalIds, id);
      if found.Ok? && found.value != [] {
        InvokeUpdate(cfg, asked, UpdateMemoryParents(id, d.existing.memoryId, found.value));
      }
    }
  }

  lemma {:induction false} RewireDuplicatesAdd(cfg: Config, st: State, duplicates: seq<Duplicate>, id: nat)
    requires !Stopped(st.result)
    ensures Adds(st, RewireDuplicates(cfg, st, duplicates, id))
    decreases |duplicates|
  {
    if duplicates != [] {
      hide RewireOne, RecordsOf, Grants;
      var next := RewireOne(cfg, st, duplicates[0], id);
      RewireOneAdds(cfg, st, duplicates[0], id);
      if !Stopped(next.result) {
        RewireDuplicatesAdd(cfg, next, duplicates[1..], id);
      }
    }
  }

  lemma {:induction false} ClosePast(
      cfg: Config, st: State, pending: seq<Sized<Prepared>>, duplicates: seq<Duplicate>)
    requires Before(st) && !Stopped(st.result)
    ensures Past(cfg, Close(cfg, st, pending, duplicates))
  {
    hide Flush, Finalize, RewireDuplicates, ApplyOpenCodeLabels, Before, Past, Adds;
    var last := if pending == [] then st else Flush(cfg, st, ItemsOf(pending), true);
    if pending != [] {
      FlushBefore(cfg, st, ItemsOf(pending), true);
    }
    StoppedIsPast(cfg, st, Failed(st, DuplicateOnlyBlocked));
    if Stopped(last.result) {
      StoppedIsPast(cfg, last, last);
    } else {
      FinalizePast(cfg, last);
      var recorded := Finalize(cfg, last);
      if !Stopped(recorded.result) && recorded.current.Some? {
        var id := recorded.current.value;
        var labelled := ApplyOpenCodeLabels(cfg, recorded, id);
        ApplyLabelsAdds(cfg, recorded, id);
        AddsKeepsPast(cfg, recorded, labelled);
        RewireDuplicatesAdd(cfg, recorded, duplicates, id);
        AddsKeepsPast(cfg, recorded, RewireDuplicates(cfg, recorded, duplicates, id));
        if !Stopped(labelled.result) {
          RewireDuplicatesAdd(cfg, labelled, duplicates, id);
          AddsKeepsPast(cfg, labelled, RewireDuplicates(cfg, labelled, duplicates, id));
        }
      }
    }
  }

  lemma StoppedIsPast(cfg: Config, st: State, r: State)
    requires Before(st) && r.log == st.log && Stopped(r.result)
    ensures Past(cfg, r)
  {
    hide RecordsOf, Grants;
  }

  lemma {:induction false} StreamPast(
      cfg: Config, st: State, items: seq<StreamItem>, pending: seq<Sized<Prepared>>, duplicates: seq<Duplicate>)
    requires Before(st) && !Stopped(st.result)
    ensures Past(cfg, StreamFrom(cfg, st, items, pending, duplicates))
    decreases |items|
  {
    hide StreamFrom, Flush, Close, SentOf, Measure, Overflows, Before, Past;
    if items == [] {
      StreamEnd(cfg, st, pending, duplicates);
      ClosePast(cfg, st, pending, duplicates);
    } else {
      StreamStep(cfg, st, items, pending, duplicates);
      if SentOf(cfg, items[0]) == [] {
        CountingIsBefore(st);
        StreamPast(cfg, CountFiltered(st), items[1..], pending, duplicates);
      } else {
        var next := Measure(cfg, SentOf(cfg, items[0])[0]);
        if Overflows(pending, next.size, cfg.limits) {
          var flushed := Flush(cfg, st, ItemsOf(pending), false);
          FlushBefore(cfg, st, ItemsOf(pending), false);
          if Stopped(flushed.result) {
            StoppedIsPast(cfg, flushed, flushed);
          } else {
            StreamPast(cfg, flushed, items[1..], [next], duplicates);
          }
        } else {
          StreamPast(cfg, st, items[1..], pending + [next], duplicates);
        }
      }
    }
  }

  lemma CountingIsBefore(st: State)
    requires Before(st)
    ensures Before(CountFiltered(st)) && Stopped(CountFiltered(st).result) == Stopped(st.result)
  {
    hide RecordsOf, Grants;
  }

  lemma {:induction false} LookupAllElse(cfg: Config, st: State, entries: seq<Entry>, target: Option<nat>)
    ensures Else(st, LookupAll(cfg, st, entries, target).0)
  {
    hide Else, Invoke, CheckFound;
    ElseSelf(st);
    if entries != [] {
      var n := |entries| - 1;
      var before := LookupAll(cfg, st, entries[..n], target).0;
      LookupAllElse(cfg, st, entries[..n], target);
      InvokeElse(cfg, before, FindMemory(entries[n].externalId));
      ElseJoins(st, before, Invoke(cfg, before, FindMemory(entries[n].externalId)).0);
    }
  }

  lemma PreflightElse(cfg: Config, st: State, items: seq<StreamItem>)
    ensures Else(st, Preflight(cfg, st, items).0)
  {
    hide LookupAll, DuplicatesIn, Invoke, Else;
    var entries := NamespaceEntries(cfg, EntriesOf(items));
    ElseSelf(st);
    InvokeElse(cfg, st, FindThread(cfg.session.channel, cfg.userId));
    var (asked, target) := TargetThread(cfg, st, entries);
    if target.Ok? {
      LookupAllElse(cfg, asked, entries, target.value);
      ElseJoins(st, asked, LookupAll(cfg, asked, entries, target.value).0);
    }
  }

  /**
   Over every client: a run records its observations at most once, for its own thread and
   identity; one that completes recorded them exactly if it has a thread and a subject and
   writes are enabled, and reports as many rewired rows as updates were granted.
   */
  lemma RecordsExactly(cfg: Config, w: World, items: seq<StreamItem>, filtered: nat)
    ensures Past(cfg, RunStreaming(cfg, w, items, filtered))
  {
    hide StreamFrom, Preflight, Past, RecordsOf, Grants;
    var st := Start(cfg, w, filtered);
    NothingLogged(st);
    if !IsOpenCode(cfg) {
      StreamPast(cfg, st, items, [], []);
    } else {
      PreflightElse(cfg, st, items);
      var (asked, found) := Preflight(cfg, st, items);
      match found {
        case Ok(p) => StreamPast(cfg, AfterPreflight(asked, p), EntryItems(p.newEntries), [], p.duplicates);
        case Err(error) => StoppedIsPast(cfg, asked, Failed(asked, error));
      }
    }
  }

  lemma NothingLogged(st: State)
    requires st.log == []
    ensures RecordsOf(st.log) == [] && Grants(st.log) == 0
  {
  }
}
