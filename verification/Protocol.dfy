/**
 What every streaming run does, whatever client it talks to: which thread its
 requests name, where the labels go, which events it attempts, and what its
 counters count.
 */
module Protocol {
  import opened Wrappers
  import opened Text
  import opened Canonical
  import opened CanonicalKey
  import opened Batching
  import opened Store
  import opened Network
  import opened ImportRun
  import opened Refinement

  /** The AddMemoriesBatch exchanges of a log, in order. */
  ghost function BatchesOf(log: seq<Exchange>): (b: seq<Exchange>)
    ensures forall x :: x in b ==> x.request.AddMemoriesBatch?
  {
    if log == [] then []
    else
      var last := log[|log| - 1];
      BatchesOf(log[..|log| - 1]) + if last.request.AddMemoriesBatch? then [last] else []
  }

  /** The thread an answer named, if it took the batch. */
  ghost function Named(x: Exchange): Option<nat> {
    if x.reply.Ok? && x.reply.value.BatchDone? && !x.reply.value.reply.suppressed
    then x.reply.value.reply.threadId else None
  }

  /** The entries of the batches that were taken. */
  ghost function Acknowledged(b: seq<Exchange>): nat {
    if b == [] then 0
    else
      var last := b[|b| - 1];
      Acknowledged(b[..|b| - 1])
      + if last.request.AddMemoriesBatch? && Named(last).Some? then |last.request.batch.memories| else 0
  }

  /** The outcomes of rows that were created, or of rows that were there. */
  ghost function OutcomesWith(outcomes: seq<Outcome>, created: bool): nat {
    if outcomes == [] then 0
    else OutcomesWith(outcomes[1..], created) + if outcomes[0].created == created then 1 else 0
  }

  /** The same over the batches that were taken and answered with an outcome for each entry. */
  ghost function Tally(b: seq<Exchange>, created: bool): nat {
    if b == [] then 0
    else
      var last := b[|b| - 1];
      Tally(b[..|b| - 1], created)
      + if last.request.AddMemoriesBatch? && Named(last).Some?
           && |last.reply.value.reply.outcomes| == |last.request.batch.memories|
        then OutcomesWith(last.reply.value.reply.outcomes, created) else 0
  }

  /** The first answer to name a thread. */
  ghost function FirstNaming(b: seq<Exchange>): (reply: Option<BatchReply>)
    ensures reply.Some? ==> reply.value.threadId.Some?
  {
    if b == [] then None
    else
      var before := FirstNaming(b[..|b| - 1]);
      if before.Some? then before
      else if Named(b[|b| - 1]).Some? then Some(b[|b| - 1].reply.value.reply) else None
  }

  /** The thread known after these exchanges, with `known` at the start. */
  ghost function ThreadAfter(b: seq<Exchange>, known: Option<nat>): Option<nat> {
    if b == [] then known else Named(b[|b| - 1])
  }

  /**
   The first request upserts the thread exactly when none is known; each later
   one names the thread the previous answer returned.
   */
  ghost predicate Chained(cfg: Config, b: seq<Exchange>, known: Option<nat>) {
    forall k :: 0 <= k < |b| ==> ChainedAt(cfg, b[k], b[..k], known)
  }

  /** The adapter's identity of the session: its own, or that of its first observation. */
  ghost predicate IsIdentityOf(session: Session, identity: Identity) {
    if session.sourceIdentity.Some? then identity == session.sourceIdentity.value
    else session.observations != [] && identity == session.observations[0]
  }

  /** A request carries that identity, with the owner filled in, if there is one. */
  ghost predicate CarriesIdentity(cfg: Config, carried: Option<SourceIdentity>) {
    && (carried.None? ==> cfg.session.sourceIdentity.None? && cfg.session.observations == [])
    && (carried.Some? ==>
        exists identity :: IsIdentityOf(cfg.session, identity) && Endpoints(carried.value, identity, cfg.userId))
  }

  ghost predicate Endpoints(carried: SourceIdentity, identity: Identity, userId: I64) {
    && carried.userId == userId && carried.source == identity.source
    && carried.identityScope == identity.identityScope && carried.nativeId == identity.nativeId
  }

  /** One request, given the ones before it. */
  ghost predicate ChainedAt(cfg: Config, x: Exchange, before: seq<Exchange>, known: Option<nat>) {
    && x.request.AddMemoriesBatch?
    && CarriesIdentity(cfg, x.request.batch.sourceIdentity)
    && (IsOpenCode(cfg) && ThreadAfter(before, known).None? ==>
        x.request.batch.labels == BuildLabels(cfg.session, cfg.extraLabels))
    && x.request.batch.target == TargetOf(cfg, ThreadAfter(before, known))
    && x.request.batch.upsertByExternalId == !IsOpenCode(cfg)
    && (before != [] ==> ThreadAfter(before, known).Some?)
  }

  ghost predicate Unlabelled(b: seq<Exchange>) {
    forall k :: 0 <= k < |b| ==> b[k].request.AddMemoriesBatch? && b[k].request.batch.labels == []
  }

  /** Labels travel on the last request, if the run succeeded, and but for OpenCode on no other. */
  ghost predicate LabelledLast(cfg: Config, b: seq<Exchange>, succeeded: bool) {
    && (b != [] && !IsOpenCode(cfg) ==> Unlabelled(b[..|b| - 1]))
    && (b != [] && succeeded ==>
        && b[|b| - 1].request.AddMemoriesBatch?
        && b[|b| - 1].request.batch.labels == BuildLabels(cfg.session, cfg.extraLabels))
  }

  /** The answer says that the session's re-import is forbidden. */
  ghost predicate SaysSuppressed(x: Exchange) {
    x.reply.Ok? && x.reply.value.BatchDone? && x.reply.value.reply.suppressed
  }

  /**
   The session's thread is the one known, or the first one named; it is new, and
   its creation announced, exactly if the answer that first named it said so.
   */
  ghost predicate Reports(cfg: Config, st: State, b: seq<Exchange>, known: Option<nat>) {
    var first := if known.Some? then None else FirstNaming(b);
    && st.result.threadId == (if first.Some? then first.value.threadId else known)
    && st.result.threadCreated == (first.Some? && first.value.threadCreated)
    && st.events == if first.Some? && first.value.threadCreated && cfg.sinkOn
                    then [ThreadCreated(cfg.session.channel, first.value.threadId.value)] else []
  }

  /** Created rows count as imported, rows that were there as duplicates, on top of those known before. */
  ghost predicate Counts(st: State, b: seq<Exchange>, base: nat) {
    st.result.imported == Tally(b, true) && st.result.duplicate == base + Tally(b, false)
  }

  /** The batches a run got to count: all, but for the one whose announcement the sink refused. */
  ghost function CountedIn(r: State, b: seq<Exchange>): seq<Exchange> {
    if r.result.error == Some(SinkFailed) && b != [] then b[..|b| - 1] else b
  }

  ghost function Taken(st: State): nat {
    st.result.imported + st.result.duplicate
  }

  /** What holds between two requests of a run. */
  ghost predicate Underway(cfg: Config, st: State, known: Option<nat>, base: nat) {
    var b := BatchesOf(st.log);
    && !Stopped(st.result)
    && st.result.sessionKey == Some(cfg.session.channel)
    && Chained(cfg, b, known)
    && (!IsOpenCode(cfg) ==> Unlabelled(b))
    && st.current == ThreadAfter(b, known)
    && (b != [] ==> st.current.Some?)
    && Reports(cfg, st, b, known)
    && Counts(st, b, base)
    && Taken(st) == base + Acknowledged(b)
  }

  /** What holds of a run that is over, failed or not. */
  ghost predicate Over(cfg: Config, r: State, known: Option<nat>, base: nat) {
    var b := BatchesOf(r.log);
    && r.result.sessionKey == Some(cfg.session.channel)
    && Chained(cfg, b, known)
    && LabelledLast(cfg, b, !Stopped(r.result))
    && (r.result.suppressed <==> b != [] && SaysSuppressed(b[|b| - 1]))
    && Reports(cfg, r, b, known)
    && Counts(r, CountedIn(r, b), base)
    && Taken(r) <= base + Acknowledged(b)
    && (!Stopped(r.result) ==> Taken(r) == base + Acknowledged(b))
  }

  /** Everything but the log, the world and the rewire counter is as it was; no batch was sent. */
  ghost predicate Quiet(st: State, r: State) {
    && BatchesOf(r.log) == BatchesOf(st.log)
    && r.events == st.events
    && r.current == st.current
    && r.result.(rewired := 0, error := None) == st.result.(rewired := 0, error := None)
    && (r.result.error == Some(SinkFailed) ==> st.result.error == Some(SinkFailed))
  }

  lemma InvokeQuiet(cfg: Config, st: State, request: Request)
    requires !request.AddMemoriesBatch?
    ensures Quiet(st, Invoke(cfg, st, request).0)
  {
    var r := Invoke(cfg, st, request).0;
    assert r.log[..|r.log| - 1] == st.log;
  }

  lemma {:induction false} RunJobsQuiet(cfg: Config, st: State, jobs: seq<Request>, order: seq<nat>)
    requires forall k :: 0 <= k < |order| ==> order[k] < |jobs|
    requires forall j :: j in jobs ==> !j.AddMemoriesBatch?
    ensures Quiet(st, RunJobs(cfg, st, jobs, order))
  {
    if order != [] {
      var n := |order| - 1;
      RunJobsQuiet(cfg, st, jobs, order[..n]);
      InvokeQuiet(cfg, RunJobs(cfg, st, jobs, order[..n]), jobs[order[n]]);
    }
  }

  lemma FinalizeQuiet(cfg: Config, st: State)
    ensures Quiet(st, Finalize(cfg, st))
    ensures Stopped(st.result) ==> Stopped(Finalize(cfg, st).result)
  {
    if Recordable(cfg) && cfg.writesEnabled && !Stopped(st.result) && st.result.threadId.Some? {
      var subject := Endpoint(CanonicalSourceIdentity(cfg.session).value, cfg.userId);
      InvokeQuiet(cfg, st, RecordObservations(st.result.threadId.value, subject));
    }
  }

  lemma {:induction false} ParentLookupsQuiet(cfg: Config, st: State, parents: seq<string>, id: nat)
    ensures var (r, found) := ParentLookups(cfg, st, parents, id);
      Quiet(st, r) && (found.Err? ==> found.error != SinkFailed)
  {
    if parents != [] {
      var n := |parents| - 1;
      ParentLookupsQuiet(cfg, st, parents[..n], id);
      InvokeQuiet(cfg, ParentLookups(cfg, st, parents[..n], id).0, FindMemory(parents[n]));
    }
  }

  lemma RewireOneQuiet(cfg: Config, st: State, d: Duplicate, id: nat)
    ensures Quiet(st, RewireOne(cfg, st, d, id))
  {
    hide ParentLookups;
    if Rewritable(d) {
      ParentLookupsQuiet(cfg, st, d.entry.parentExternalIds, id);
      var (asked, found) := ParentLookups(cfg, st, d.entry.parentExternalIds, id);
      if found.Ok? && found.value != [] {
        InvokeQuiet(cfg, asked, UpdateMemoryParents(id, d.existing.memoryId, found.value));
      }
    }
  }

  lemma {:induction false} RewireDuplicatesQuiet(cfg: Config, st: State, duplicates: seq<Duplicate>, id: nat)
    ensures Quiet(st, RewireDuplicates(cfg, st, duplicates, id))
    decreases |duplicates|
  {
    if duplicates != [] {
      hide RewireOne;
      RewireOneQuiet(cfg, st, duplicates[0], id);
      RewireDuplicatesQuiet(cfg, RewireOne(cfg, st, duplicates[0], id), duplicates[1..], id);
    }
  }

  lemma ApplyLabelsQuiet(cfg: Config, st: State, id: nat)
    ensures Quiet(st, ApplyOpenCodeLabels(cfg, st, id))
  {
    InvokeQuiet(cfg, st, AddLabels(id, BuildLabels(cfg.session, cfg.extraLabels)));
  }

  lemma {:induction false} CreatedOrNot(outcomes: seq<Outcome>)
    ensures OutcomesWith(outcomes, true) + OutcomesWith(outcomes, false) == |outcomes|
  {
    if outcomes != [] {
      CreatedOrNot(outcomes[1..]);
    }
  }

  lemma {:induction false} OutcomesSnoc(outcomes: seq<Outcome>, o: Outcome, created: bool)
    ensures OutcomesWith(outcomes + [o], created)
         == OutcomesWith(outcomes, created) + if o.created == created then 1 else 0
  {
    if outcomes != [] {
      OutcomesSnoc(outcomes[1..], o, created);
      assert (outcomes + [o])[1..] == outcomes[1..] + [o];
    }
  }

  lemma {:induction false} CountCreatedIsTally(outcomes: seq<Outcome>)
    ensures CountCreated(outcomes) == OutcomesWith(outcomes, true)
  {
    if outcomes != [] {
      var n := |outcomes| - 1;
      CountCreatedIsTally(outcomes[..n]);
      OutcomesSnoc(outcomes[..n], outcomes[n], true);
      assert outcomes[..n] + [outcomes[n]] == outcomes;
    }
  }

  lemma RewirePassCounts(cfg: Config, st: State, outcomes: seq<Outcome>, id: nat)
    requires !Stopped(st.result)
    ensures var r := RewirePass(cfg, st, outcomes, id);
      && BatchesOf(r.log) == BatchesOf(st.log) && r.events == st.events && r.current == st.current
      && r.result.(imported := 0, duplicate := 0, rewired := 0, error := None)
         == st.result.(imported := 0, duplicate := 0, rewired := 0, error := None)
      && r.result.error != Some(SinkFailed)
      && r.result.imported == st.result.imported + OutcomesWith(outcomes, true)
      && r.result.duplicate == st.result.duplicate + OutcomesWith(outcomes, false)
  {
    hide JobsOf, CountCreated, NextSchedule, RunJobs, CountRewired, BatchesOf, OutcomesWith;
    var jobs := JobsOf(id, outcomes);
    var (schedule, world) := NextSchedule(st.world, |jobs|);
    CreatedOrNot(outcomes);
    CountCreatedIsTally(outcomes);
    RunJobsQuiet(cfg, CountOutcomes(st, outcomes).(world := world), jobs, schedule.exec);
  }

  /** What the answer to a batch of `sent` entries does to the run. */
  lemma ReceiveEffect(cfg: Config, st: State, sent: nat, reply: BatchReply)
    requires !Stopped(st.result)
    ensures var r := Receive(cfg, st, sent, reply);
      var names := !reply.suppressed && reply.threadId.Some?;
      var first := names && st.current.None?;
      var counts := names && |reply.outcomes| == sent && r.result.error != Some(SinkFailed);
      && BatchesOf(r.log) == BatchesOf(st.log)
      && r.result.sessionKey == st.result.sessionKey && r.result.filtered == st.result.filtered
      && r.result.threadId == (if first then reply.threadId else st.result.threadId)
      && r.result.threadCreated == (if first then reply.threadCreated else st.result.threadCreated)
      && r.events == (if first && reply.threadCreated && cfg.sinkOn
                      then st.events + [ThreadCreated(cfg.session.channel, reply.threadId.value)] else st.events)
      && r.result.imported == st.result.imported + (if counts then OutcomesWith(reply.outcomes, true) else 0)
      && r.result.duplicate == st.result.duplicate + (if counts then OutcomesWith(reply.outcomes, false) else 0)
      && (r.result.suppressed <==> reply.suppressed)
      && (!Stopped(r.result) ==> counts && r.current == reply.threadId)
  {
    hide RewirePass, OutcomesWith, BatchesOf;
    if !reply.suppressed && reply.threadId.Some? {
      var id := reply.threadId.value;
      var (announced, fine) := Announce(cfg, st, id, reply.threadCreated);
      if fine && |reply.outcomes| == sent {
        RewirePassCounts(cfg, announced.(current := Some(id)), reply.outcomes, id);
      }
    }
  }

  /** The exchange a flush adds to the log. */
  ghost function Sent(cfg: Config, st: State, chunk: seq<Prepared>, isLast: bool): (x: Exchange) {
    var batch := BatchOf(cfg, st.current, InputsOf(StableSort(chunk, PreparedKey)), isLast);
    Exchange(AddMemoriesBatch(batch), Invoke(cfg, st, AddMemoriesBatch(batch)).1)
  }

  lemma OneMoreBatch(b: seq<Exchange>, x: Exchange, created: bool)
    ensures Acknowledged(b + [x]) == Acknowledged(b)
      + if x.request.AddMemoriesBatch? && Named(x).Some? then |x.request.batch.memories| else 0
    ensures Tally(b + [x], created) == Tally(b, created)
      + if x.request.AddMemoriesBatch? && Named(x).Some?
           && |x.reply.value.reply.outcomes| == |x.request.batch.memories|
        then OutcomesWith(x.reply.value.reply.outcomes, created) else 0
    ensures FirstNaming(b + [x]) == if FirstNaming(b).Some? then FirstNaming(b)
      else if Named(x).Some? then Some(x.reply.value.reply) else None
  {
    hide OutcomesWith;
    assert (b + [x])[..|b|] == b;
  }

  /** What one flush sends, and what it leaves behind. */
  lemma FlushSends(cfg: Config, st: State, chunk: seq<Prepared>, isLast: bool)
    requires !Stopped(st.result)
    ensures var r := Flush(cfg, st, chunk, isLast);
      var x := Sent(cfg, st, chunk, isLast);
      var first := Named(x).Some? && st.current.None?;
      var counts := Named(x).Some? && |x.reply.value.reply.outcomes| == |chunk|
                    && r.result.error != Some(SinkFailed);
      && BatchesOf(r.log) == BatchesOf(st.log) + [x]
      && r.result.sessionKey == st.result.sessionKey && r.result.filtered == st.result.filtered
      && r.result.threadId == (if first then Named(x) else st.result.threadId)
      && r.result.threadCreated
         == (if first then x.reply.value.reply.threadCreated else st.result.threadCreated)
      && r.events == (if first && x.reply.value.reply.threadCreated && cfg.sinkOn
                      then st.events + [ThreadCreated(cfg.session.channel, Named(x).value)] else st.events)
      && r.result.imported == st.result.imported
         + (if counts then OutcomesWith(x.reply.value.reply.outcomes, true) else 0)
      && r.result.duplicate == st.result.duplicate
         + (if counts then OutcomesWith(x.reply.value.reply.outcomes, false) else 0)
      && (r.result.suppressed <==> SaysSuppressed(x))
      && (!Stopped(r.result) ==> counts && r.current == Named(x))
  {
    hide Receive, StableSort, BatchOf, OutcomesWith;
    var batch := BatchOf(cfg, st.current, InputsOf(StableSort(chunk, PreparedKey)), isLast);
    var (sent, reply) := Invoke(cfg, st, AddMemoriesBatch(batch));
    assert sent.log[..|sent.log| - 1] == st.log;
    if reply.Ok? {
      ReceiveEffect(cfg, sent, |chunk|, reply.value.reply);
    }
  }

  lemma ChainExtends(cfg: Config, b: seq<Exchange>, x: Exchange, known: Option<nat>)
    requires Chained(cfg, b, known) && ChainedAt(cfg, x, b, known)
    ensures Chained(cfg, b + [x], known)
  {
    var b' := b + [x];
    forall k | 0 <= k < |b'| ensures ChainedAt(cfg, b'[k], b'[..k], known) {
      assert k < |b| ==> b'[..k] == b[..k];
      assert k == |b| ==> b'[..k] == b;
    }
  }

  lemma NamedIsFirst(b: seq<Exchange>)
    requires b != [] && Named(b[|b| - 1]).Some?
    ensures FirstNaming(b).Some?
  {
  }

  /** One more batch, reported and counted. */
  lemma FlushReports(cfg: Config, st: State, chunk: seq<Prepared>, isLast: bool, known: Option<nat>, base: nat)
    requires Underway(cfg, st, known, base)
    ensures var r := Flush(cfg, st, chunk, isLast);
      var b := BatchesOf(st.log) + [Sent(cfg, st, chunk, isLast)];
      && BatchesOf(r.log) == b
      && Reports(cfg, r, b, known) && Counts(r, CountedIn(r, b), base)
      && Taken(r) <= base + Acknowledged(b)
      && (!Stopped(r.result) ==> Taken(r) == base + Acknowledged(b) && Taken(r) == Taken(st) + |chunk|)
  {
    hide Flush, Sent, Chained, ChainedAt, BuildLabels, Unlabelled, BatchesOf, OutcomesWith, Tally, FirstNaming,
         Acknowledged;
    var b, x := BatchesOf(st.log), Sent(cfg, st, chunk, isLast);
    FlushSends(cfg, st, chunk, isLast);
    SentInOrder(cfg, st, chunk, isLast, known, base);
    OneMoreBatch(b, x, true);
    OneMoreBatch(b, x, false);
    assert (b + [x])[..|b|] == b;
    if b != [] {
      NamedIsFirst(b);
    } else {
      NothingNamed();
    }
    if Named(x).Some? {
      CreatedOrNot(x.reply.value.reply.outcomes);
    }
  }

  lemma NothingNamed()
    ensures FirstNaming([]) == None
  {
  }

  /** A flush in the middle keeps the run underway, or ends it in order. */
  lemma FlushKeeps(cfg: Config, st: State, chunk: seq<Prepared>, isLast: bool, known: Option<nat>, base: nat)
    requires Underway(cfg, st, known, base)
    ensures var r := Flush(cfg, st, chunk, isLast);
      && (Stopped(r.result) || isLast ==> Over(cfg, r, known, base))
      && (!Stopped(r.result) && !isLast ==> Underway(cfg, r, known, base))
      && (!Stopped(r.result) ==> Taken(r) == Taken(st) + |chunk|)
      && r.result.filtered == st.result.filtered
  {
    hide Flush, Sent, Reports, Counts, Chained, ChainedAt, BuildLabels, Unlabelled, LabelledLast, BatchesOf,
         Acknowledged;
    var b, x := BatchesOf(st.log), Sent(cfg, st, chunk, isLast);
    FlushSends(cfg, st, chunk, isLast);
    SentInOrder(cfg, st, chunk, isLast, known, base);
    ChainExtends(cfg, b, x, known);
    FlushReports(cfg, st, chunk, isLast, known, base);
    LabelsExtend(cfg, b, x, isLast);
    assert (b + [x])[|b|] == x;
  }

  lemma LabelsExtend(cfg: Config, b: seq<Exchange>, x: Exchange, isLast: bool)
    requires (!IsOpenCode(cfg) ==> Unlabelled(b)) && x.request.AddMemoriesBatch?
    requires isLast ==> x.request.batch.labels == BuildLabels(cfg.session, cfg.extraLabels)
    requires !isLast && !IsOpenCode(cfg) ==> x.request.batch.labels == []
    ensures !isLast && !IsOpenCode(cfg) ==> Unlabelled(b + [x])
    ensures LabelledLast(cfg, b + [x], false) && (isLast ==> LabelledLast(cfg, b + [x], true))
  {
    hide BuildLabels;
    assert (b + [x])[..|b|] == b;
  }

  lemma SentInOrder(cfg: Config, st: State, chunk: seq<Prepared>, isLast: bool, known: Option<nat>, base: nat)
    requires Underway(cfg, st, known, base)
    ensures var x := Sent(cfg, st, chunk, isLast);
      && ChainedAt(cfg, x, BatchesOf(st.log), known)
      && x.request.AddMemoriesBatch? && |x.request.batch.memories| == |chunk|
      && (isLast ==> x.request.batch.labels == BuildLabels(cfg.session, cfg.extraLabels))
      && (!isLast && !IsOpenCode(cfg) ==> x.request.batch.labels == [])
  {
    hide StableSort, BuildLabels, Chained, Reports, Counts, Acknowledged, CarriesIdentity, SourceIdentityOf;
    IdentityCarried(cfg);
  }

  lemma IdentityCarried(cfg: Config)
    ensures CarriesIdentity(cfg, SourceIdentityOf(cfg))
  {
    if SourceIdentityOf(cfg).Some? {
      var identity := CanonicalSourceIdentity(cfg.session).value;
      assert IsIdentityOf(cfg.session, identity) && Endpoints(SourceIdentityOf(cfg).value, identity, cfg.userId);
    }
  }

  lemma NothingLeft(cfg: Config, st: State, known: Option<nat>, base: nat)
    requires Underway(cfg, st, known, base) && BatchesOf(st.log) == []
    ensures Over(cfg, st, known, base)
  {
  }

  lemma QuietKeepsOver(cfg: Config, st: State, r: State, known: Option<nat>, base: nat)
    requires Over(cfg, st, known, base) && Quiet(st, r) && !Stopped(st.result)
    ensures Over(cfg, r, known, base)
  {
  }

  /** The whole tail of a run is quiet once its last chunk is sent. */
  lemma CloseKeeps(
      cfg: Config, st: State, pending: seq<Sized<Prepared>>, duplicates: seq<Duplicate>, known: Option<nat>, base: nat)
    requires Underway(cfg, st, known, base) && (pending == [] ==> BatchesOf(st.log) == [])
    ensures var r := Close(cfg, st, pending, duplicates);
      && Over(cfg, r, known, base)
      && (!Stopped(r.result) ==> Taken(r) == Taken(st) + |pending|)
      && r.result.filtered == st.result.filtered
  {
    hide Flush, Finalize, RewireDuplicates, ApplyOpenCodeLabels, Over, Chained, Reports, Counts, BatchesOf,
         Acknowledged;
    var last := if pending == [] then st else Flush(cfg, st, ItemsOf(pending), true);
    if pending == [] {
      NothingLeft(cfg, st, known, base);
    } else {
      FlushKeeps(cfg, st, ItemsOf(pending), true, known, base);
    }
    if !Stopped(last.result) {
      QuietKeepsOver(cfg, last, Failed(last, DuplicateOnlyBlocked), known, base);
      FinalizeQuiet(cfg, last);
      var recorded := Finalize(cfg, last);
      QuietKeepsOver(cfg, last, recorded, known, base);
      if !Stopped(recorded.result) && recorded.current.Some? {
        var id := recorded.current.value;
        ApplyLabelsQuiet(cfg, recorded, id);
        var labelled := ApplyOpenCodeLabels(cfg, recorded, id);
        QuietKeepsOver(cfg, recorded, labelled, known, base);
        RewireDuplicatesQuiet(cfg, recorded, duplicates, id);
        RewireDuplicatesQuiet(cfg, labelled, duplicates, id);
        QuietKeepsOver(cfg, recorded, RewireDuplicates(cfg, recorded, duplicates, id), known, base);
        if !Stopped(labelled.result) {
          QuietKeepsOver(cfg, labelled, RewireDuplicates(cfg, labelled, duplicates, id), known, base);
        }
      }
    }
  }

  /** The streaming loop keeps the protocol and loses no entry. */
  lemma {:induction false} StreamKeeps(
      cfg: Config, st: State, items: seq<StreamItem>, pending: seq<Sized<Prepared>>, duplicates: seq<Duplicate>,
      known: Option<nat>, base: nat)
    requires Underway(cfg, st, known, base) && (pending == [] ==> BatchesOf(st.log) == [])
    ensures var r := StreamFrom(cfg, st, items, pending, duplicates);
      && Over(cfg, r, known, base)
      && (!Stopped(r.result) ==>
          Taken(r) + r.result.filtered == Taken(st) + st.result.filtered + |pending| + |items|)
    decreases |items|
  {
    hide StreamFrom, Flush, Close, SentOf, Measure, Overflows, Over;
    if items == [] {
      StreamEnd(cfg, st, pending, duplicates);
      CloseKeeps(cfg, st, pending, duplicates, known, base);
    } else {
      StreamStep(cfg, st, items, pending, duplicates);
      if SentOf(cfg, items[0]) == [] {
        StreamKeeps(cfg, CountFiltered(st), items[1..], pending, duplicates, known, base);
      } else {
        var next := Measure(cfg, SentOf(cfg, items[0])[0]);
        if Overflows(pending, next.size, cfg.limits) {
          FlushKeeps(cfg, st, ItemsOf(pending), false, known, base);
          var flushed := Flush(cfg, st, ItemsOf(pending), false);
          if !Stopped(flushed.result) {
            StreamKeeps(cfg, flushed, items[1..], [next], duplicates, known, base);
          }
        } else {
          StreamKeeps(cfg, st, items[1..], pending + [next], duplicates, known, base);
        }
      }
    }
  }

  lemma LookupOneQuiet(cfg: Config, st: State, seen: LookedUp, entry: Entry, target: Option<nat>)
    ensures var (r, seen') := LookupOne(cfg, st, seen, entry, target);
      && Quiet(st, r) && r.result == st.result
      && (seen'.Some? ==> |seen'.value.newEntries| <= |seen.newEntries| + 1)
  {
    hide CheckFound, BatchesOf;
    InvokeQuiet(cfg, st, FindMemory(entry.externalId));
  }

  lemma {:induction false} LookupAllQuiet(cfg: Config, st: State, entries: seq<Entry>, target: Option<nat>)
    ensures var (r, seen) := LookupAll(cfg, st, entries, target);
      Quiet(st, r) && r.result == st.result && (seen.Some? ==> |seen.value.newEntries| <= |entries|)
  {
    if entries != [] {
      hide LookupOne, BatchesOf;
      var n := |entries| - 1;
      LookupAllQuiet(cfg, st, entries[..n], target);
      var (before, seen) := LookupAll(cfg, st, entries[..n], target);
      if seen.Some? {
        LookupOneQuiet(cfg, before, seen.value, entries[n], target);
      }
    }
  }

  lemma PreflightQuiet(cfg: Config, st: State, items: seq<StreamItem>)
    ensures var (r, p) := Preflight(cfg, st, items);
      && Quiet(st, r) && r.result == st.result
      && (p.Ok? ==> p.value.duplicateCount + |p.value.newEntries| == |EntriesOf(items)|)
  {
    hide LookupAll, DuplicatesIn;
    var entries := NamespaceEntries(cfg, EntriesOf(items));
    InvokeQuiet(cfg, st, FindThread(cfg.session.channel, cfg.userId));
    var (asked, target) := TargetThread(cfg, st, entries);
    if target.Ok? {
      LookupAllQuiet(cfg, asked, entries, target.value);
    }
  }

  /** The thread and the duplicates a run starts out with. */
  ghost function KnownBefore(cfg: Config, w: World, items: seq<StreamItem>, filtered: nat): (r: (Option<nat>, nat)) {
    if !IsOpenCode(cfg) then (None, 0)
    else match Preflight(cfg, Start(cfg, w, filtered), items).1
      case Ok(p) => (p.thread, p.duplicateCount)
      case Err(_) => (None, 0)
  }

  /** The items a run accounts for: OpenCode's preflight drops everything but entries. */
  ghost function Accountable(cfg: Config, items: seq<StreamItem>): nat {
    if IsOpenCode(cfg) then |EntriesOf(items)| else |items|
  }

  /**
   The protocol of every streaming run, over every client: requests are pinned to
   one thread and carry the session's identity, labels go last, a run is suppressed
   exactly if the last answer says so, the thread's creation is announced exactly if the
   answer that first named it says so, the rows answered as created are counted as
   imported and the others as duplicates, counts never exceed what was acknowledged,
   and a run that is neither failed nor suppressed has counted every item once.
   */
  lemma StreamingProtocol(cfg: Config, w: World, items: seq<StreamItem>, filtered: nat)
    ensures var r := RunStreaming(cfg, w, items, filtered);
      var (known, base) := KnownBefore(cfg, w, items, filtered);
      && Over(cfg, r, known, base)
      && (!Stopped(r.result) ==> Taken(r) + r.result.filtered == filtered + Accountable(cfg, items))
  {
    hide StreamFrom, Preflight;
    var st := Start(cfg, w, filtered);
    if !IsOpenCode(cfg) {
      StreamKeeps(cfg, st, items, [], [], None, 0);
    } else {
      PreflightQuiet(cfg, st, items);
      var (asked, found) := Preflight(cfg, st, items);
      match found {
        case Ok(p) =>
          StreamKeeps(cfg, AfterPreflight(asked, p), EntryItems(p.newEntries), [], p.duplicates, p.thread,
                      p.duplicateCount);
        case Err(_) =>
      }
    }
  }

  /** A session's events: its creation, if the first answer to name its thread says so, and its completion. */
  ghost predicate SessionEvents(cfg: Config, r: State, known: Option<nat>, events: seq<Event>) {
    var first := if known.Some? then None else FirstNaming(BatchesOf(r.log));
    var created := if first.Some? && first.value.threadCreated
      then [ThreadCreated(cfg.session.channel, first.value.threadId.value)] else [];
    var completed := if r.result.threadId.Some? then
        [SessionCompleted(cfg.session.channel, r.result.threadId.value, Taken(r), r.result.error.None?)] else [];
    events == if cfg.sinkOn then created + completed else []
  }

  /**
   A session's creation is attempted exactly when no thread was known and the first
   answer to name one said that it is new; its completion exactly when a thread id was
   obtained, and it reports success exactly when no error had occurred by then.
   */
  lemma StreamingEvents(cfg: Config, w: World, items: seq<StreamItem>, filtered: nat)
    ensures var r := RunStreaming(cfg, w, items, filtered);
      SessionEvents(cfg, r, KnownBefore(cfg, w, items, filtered).0, EmitCompletion(cfg, r).events)
  {
    hide RunStreaming, KnownBefore, Chained, LabelledLast, Counts;
    StreamingProtocol(cfg, w, items, filtered);
  }
}
