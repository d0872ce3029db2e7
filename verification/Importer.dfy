/**
 The importer as it runs: a session's counters, pinned thread and builder updated
 in place by loops over entries, chunks and replies. Each method is proved to do
 what the functions of `ImportRun` say.
 */
module Importer {
  import opened Wrappers
  import opened Canonical
  import opened Batching
  import opened Store
  import opened Network
  import opened ImportRun
  import opened Refinement
  import opened Protocol
  import Rewire

  class SessionImport {
    const cfg: Config
    var world: World
    var log: seq<Exchange>
    var events: seq<Event>
    var currentThreadId: Option<nat>
    var result: SessionResult

    constructor (cfg: Config, world: World, filtered: nat)
      ensures this.cfg == cfg && Now() == Start(cfg, world, filtered)
    {
      this.cfg, this.world := cfg, world;
      log, events, currentThreadId := [], [], None;
      result := SessionResult(Some(cfg.session.channel), None, false, 0, 0, filtered, 0, None, false);
    }

    function Now(): State
      reads this
    {
      State(world, log, events, currentThreadId, result)
    }

    /** The state once the caller has dealt with what a step returned. */
    ghost function Then(error: Option<ImportError>): State
      reads this
    {
      if error.Some? then Failed(Now(), error.value) else Now()
    }

    method Call(request: Request) returns (reply: Reply)
      modifies this
      ensures (Now(), reply) == Invoke(cfg, old(Now()), request)
      ensures reply.Ok? ==> Answers(request, reply.value)
    {
      var (world', reply') := cfg.client(world, request);
      world, reply := world', reply';
      log := log + [Exchange(request, reply)];
    }

    method Announce(event: Event) returns (fine: bool)
      modifies this
      ensures (Now(), fine) == Emit(old(Now()), event)
    {
      var fails := world.sinkFails;
      events := events + [event];
      world := world.(sinkFails := if fails == [] then [] else fails[1..]);
      fine := fails == [] || !fails[0];
    }

    /** Count the outcomes, and collect an update for each reused row with parents to fill. */
    method CountOutcomes(outcomes: seq<Outcome>, id: nat) returns (jobs: seq<Request>)
      modifies `result
      ensures Now() == ImportRun.CountOutcomes(old(Now()), outcomes) && jobs == JobsOf(id, outcomes)
    {
      ghost var before := result;
      ghost var created := 0;
      jobs := [];
      for i := 0 to |outcomes|
        invariant jobs == JobsOf(id, outcomes[..i]) && created == CountCreated(outcomes[..i])
        invariant result == before.(
          imported := before.imported + created, duplicate := before.duplicate + (i - created))
      {
        var o := outcomes[i];
        OutcomeStep(id, outcomes, i);
        if o.created {
          result := result.(imported := result.imported + 1);
          created := created + 1;
        } else {
          result := result.(duplicate := result.duplicate + 1);
          if o.existingParentIdsEmpty && o.resolvedParentIds != [] && o.memoryId.Some? {
            jobs := jobs + [UpdateMemoryParents(id, o.memoryId.value, o.resolvedParentIds)];
          }
        }
      }
      assert outcomes[..|outcomes|] == outcomes;
    }

    /** Send the updates in the order they happen to reach the server. */
    method SendJobs(jobs: seq<Request>, order: seq<nat>) returns (replies: seq<Reply>)
      requires forall k :: 0 <= k < |order| ==> order[k] < |jobs|
      modifies this
      ensures Now() == RunJobs(cfg, old(Now()), jobs, order) && |replies| == |order|
      ensures forall k :: 0 <= k < |order| ==> replies[k] == log[|old(log)| + k].reply
    {
      hide Invoke;
      ghost var before := Now();
      replies := [];
      for i := 0 to |order|
        invariant Now() == RunJobs(cfg, before, jobs, order[..i])
        invariant |replies| == i && forall k :: 0 <= k < i ==> replies[k] == log[|before.log| + k].reply
      {
        assert order[..i + 1][..i] == order[..i];
        var reply := Call(jobs[order[i]]);
        replies := replies + [reply];
      }
      assert order[..|order|] == order;
    }

    /** Read the replies as they complete, up to the first failure. */
    method ReadCompletions(replies: seq<Reply>) returns (error: Option<ImportError>)
      modifies `result
      ensures var (n, fine) := CountRewired(replies);
        && result == old(result).(rewired := old(result).rewired + n)
        && error == if fine then None else Some(RewireFailed)
    {
      ghost var before := result;
      ghost var rewired := 0;
      for i := 0 to |replies|
        invariant result == before.(rewired := before.rewired + rewired)
        invariant CountRewired(replies[..i]) == (rewired, true)
      {
        assert replies[..i + 1][..i] == replies[..i];
        match replies[i] {
          case Ok(response) =>
            if response.ParentsDone? && response.rewired {
              result := result.(rewired := result.rewired + 1);
              rewired := rewired + 1;
            }
          case Err(_) =>
            FailureStays(replies, i + 1);
            return Some(RewireFailed);
        }
      }
      assert replies[..|replies|] == replies;
      return None;
    }

    /** `run_rewire_pass`: the updates run concurrently, in whatever order the world schedules. */
    method RunRewirePass(outcomes: seq<Outcome>, id: nat) returns (error: Option<ImportError>)
      modifies this
      ensures Then(error) == RewirePass(cfg, old(Now()), outcomes, id)
      ensures result.error == old(result).error
    {
      hide RunJobs, CountRewired, JobsOf, ImportRun.CountOutcomes, NextSchedule, Invoke;
      ghost var from := |log|;
      Rewire.CountingKeeps(Now(), outcomes);
      var jobs := CountOutcomes(outcomes, id);
      var (schedule, next) := NextSchedule(world, |jobs|);
      world := next;
      var replies := SendJobs(jobs, schedule.exec);
      var completions := seq(|jobs|, k requires 0 <= k < |jobs| => replies[schedule.done[k]]);
      assert completions == RepliesIn(log, from, schedule.done);
      error := ReadCompletions(completions);
    }

    /** The answer to a batch: suppression, the thread's announcement, and the rewire pass. */
    method Receive(sent: nat, reply: BatchReply) returns (error: Option<ImportError>)
      modifies this
      ensures Then(error) == ImportRun.Receive(cfg, old(Now()), sent, reply)
      ensures result.error == old(result).error
    {
      hide RewirePass;
      if reply.suppressed {
        result := result.(suppressed := true);
        return None;
      }
      if reply.threadId.None? {
        return Some(MissingThreadId);
      }
      var id := reply.threadId.value;
      if currentThreadId.None? {
        result := result.(threadId := Some(id), threadCreated := reply.threadCreated);
        if reply.threadCreated && cfg.sinkOn {
          var fine := Announce(ThreadCreated(cfg.session.channel, id));
          if !fine {
            return Some(SinkFailed);
          }
        }
      }
      currentThreadId := Some(id);
      if |reply.outcomes| != sent {
        return Some(OutcomeCount);
      }
      error := RunRewirePass(reply.outcomes, id);
    }

    /** `flush_chunk`: sort what is pending, send it, and empty the builder. */
    method FlushChunk(builder: ChunkBuilder<Prepared>, isLast: bool) returns (error: Option<ImportError>)
      requires builder.Valid()
      modifies this, builder
      ensures builder.Valid() && builder.items == []
      ensures Then(error) == Flush(cfg, old(Now()), ItemsOf(old(builder.items)), isLast)
      ensures result.error == old(result).error
    {
      hide ImportRun.Receive, StableSort, Invoke, BuildLabels;
      var taken := builder.Take();
      var chunk := ItemsOf(taken);
      var sorted := StableSort(chunk, PreparedKey);
      var reply := Call(AddMemoriesBatch(BatchOf(cfg, currentThreadId, InputsOf(sorted), isLast)));
      if reply.Err? {
        return Some(BatchFailed);
      }
      error := Receive(|chunk|, reply.value.reply);
    }

    /** The vector path's chunk: the session was sorted as a whole. */
    method SendChunk(chunk: seq<Prepared>, isLast: bool) returns (error: Option<ImportError>)
      modifies this
      ensures Then(error) == FlushSorted(cfg, old(Now()), chunk, isLast)
      ensures result.error == old(result).error
    {
      hide ImportRun.Receive, Invoke, BuildLabels;
      var reply := Call(AddMemoriesBatch(BatchOf(cfg, currentThreadId, InputsOf(chunk), isLast)));
      if reply.Err? {
        return Some(BatchFailed);
      }
      error := Receive(|chunk|, reply.value.reply);
    }

    /** `finalize_thread_group_observations`. */
    method FinalizeObservations()
      modifies this
      ensures Now() == Finalize(cfg, old(Now()))
    {
      hide Invoke;
      var identity := CanonicalSourceIdentity(cfg.session);
      if identity.None? {
        return;
      }
      if !cfg.writesEnabled || Stopped(result)
         || (cfg.session.observations == [] && !identity.value.identityScope.Known?) {
        return;
      }
      if result.threadId.None? {
        return;
      }
      var reply := Call(RecordObservations(result.threadId.value, Endpoint(identity.value, cfg.userId)));
      if reply.Err? {
        result := result.(error := Some(ObservationsFailed));
      }
    }

    /** `lookup_opencode_memories`: one exact lookup per entry, until one cannot be trusted. */
    method LookupOpenCodeMemories(entries: seq<Entry>, target: Option<nat>) returns (seen: Option<LookedUp>)
      modifies this
      ensures (Now(), seen) == LookupAll(cfg, old(Now()), entries, target)
    {
      hide Invoke, CheckFound;
      ghost var before := Now();
      var newEntries: seq<Entry> := [];
      var existing: map<string, ExistingMemory> := map[];
      for i := 0 to |entries|
        invariant (Now(), Some(LookedUp(newEntries, existing))) == LookupAll(cfg, before, entries[..i], target)
      {
        var entry := entries[i];
        assert entries[..i + 1][..i] == entries[..i];
        var reply := Call(FindMemory(entry.externalId));
        if reply.Err? {
          LookupFailureStays(cfg, before, entries, target, i + 1);
          return None;
        }
        if reply.value.found.None? {
          newEntries := newEntries + [entry];
        } else {
          var checked := CheckFound(cfg, reply.value.found.value, entry, target);
          if checked.None? {
            LookupFailureStays(cfg, before, entries, target, i + 1);
            return None;
          }
          existing := existing[entry.externalId := checked.value];
        }
      }
      assert entries[..|entries|] == entries;
      return Some(LookedUp(newEntries, existing));
    }

    /** `preflight_opencode_duplicates`: drain the stream, find the thread, look every entry up. */
    method PreflightDuplicates(items: seq<StreamItem>) returns (r: Result<Preflighted, ImportError>)
      modifies this
      ensures (Now(), r) == Preflight(cfg, old(Now()), items)
    {
      hide Invoke, LookupAll;
      var entries: seq<Entry> := [];
      for i := 0 to |items|
        invariant entries == EntriesOf(items[..i])
      {
        assert items[..i + 1][..i] == items[..i];
        if items[i].EntryItem? {
          entries := entries + [items[i].entry];
        }
      }
      assert items[..|items|] == items;
      var namespaced := NamespaceEntries(cfg, entries);
      var target: Option<nat> := None;
      if namespaced != [] {
        if cfg.session.channel in cfg.snapshot {
          target := Some(cfg.snapshot[cfg.session.channel]);
        } else {
          var reply := Call(FindThread(cfg.session.channel, cfg.userId));
          if reply.Err? {
            return Err(TargetLookupFailed);
          }
          target := reply.value.thread;
        }
      }
      var seen := LookupOpenCodeMemories(namespaced, target);
      if seen.None? {
        return Err(DuplicateLookupFailed);
      }
      var duplicates := KnownDuplicates(namespaced, seen.value.existing);
      var n := |namespaced| - |seen.value.newEntries|;
      return Ok(Preflighted(seen.value.newEntries, duplicates, target, if n < 0 then 0 else n));
    }

    method KnownDuplicates(entries: seq<Entry>, existing: map<string, ExistingMemory>)
      returns (duplicates: seq<Duplicate>)
      ensures duplicates == DuplicatesIn(entries, existing)
    {
      duplicates := [];
      for i := 0 to |entries|
        invariant duplicates == DuplicatesIn(entries[..i], existing)
      {
        assert entries[..i + 1][..i] == entries[..i];
        if entries[i].externalId in existing {
          duplicates := duplicates + [Duplicate(entries[i], existing[entries[i].externalId])];
        }
      }
      assert entries[..|entries|] == entries;
    }

    /** `apply_opencode_labels`. */
    method ApplyLabels(id: nat) returns (error: Option<ImportError>)
      modifies this
      ensures Then(error) == ApplyOpenCodeLabels(cfg, old(Now()), id)
      ensures result == old(result) && currentThreadId == old(currentThreadId)
    {
      hide Invoke, BuildLabels;
      var labels := BuildLabels(cfg.session, cfg.extraLabels);
      if labels == [] {
        return None;
      }
      var reply := Call(AddLabels(id, labels));
      return if reply.Err? then Some(LabelsFailed) else None;
    }

    /** The parents of one duplicate that are in the session's thread, each once. */
    method LookupParents(parents: seq<string>, id: nat) returns (r: Result<seq<string>, ImportError>)
      modifies this
      ensures (Now(), r) == ParentLookups(cfg, old(Now()), parents, id)
    {
      hide Invoke, CheckParent;
      ghost var before := Now();
      var ids: seq<string> := [];
      for i := 0 to |parents|
        invariant (Now(), Ok(ids)) == ParentLookups(cfg, before, parents[..i], id)
      {
        assert parents[..i + 1][..i] == parents[..i];
        var reply := Call(FindMemory(parents[i]));
        if reply.Err? {
          ParentFailureStays(cfg, before, parents, id, i + 1);
          return Err(ParentLookupFailed);
        }
        if reply.value.found.Some? {
          var checked := CheckParent(cfg, reply.value.found.value, parents[i], id, ids);
          if checked.Err? {
            ParentFailureStays(cfg, before, parents, id, i + 1);
            return checked;
          }
          ids := checked.value;
        }
      }
      assert parents[..|parents|] == parents;
      return Ok(ids);
    }

    method RewireDuplicate(d: Duplicate, id: nat) returns (error: Option<ImportError>)
      modifies this
      ensures Then(error) == RewireOne(cfg, old(Now()), d, id)
      ensures error.None? ==> result.error == old(result).error && result.suppressed == old(result).suppressed
    {
      hide Invoke, ParentLookups;
      ParentLookupsQuiet(cfg, Now(), d.entry.parentExternalIds, id);
      ParentLookupsKeepResult(cfg, Now(), d.entry.parentExternalIds, id);
      if !d.existing.parentIdsEmpty || |d.existing.threadIds| != 1 || d.entry.parentExternalIds == [] {
        return None;
      }
      var parents := LookupParents(d.entry.parentExternalIds, id);
      if parents.Err? {
        return Some(parents.error);
      }
      if parents.value == [] {
        return None;
      }
      var reply := Call(UpdateMemoryParents(id, d.existing.memoryId, parents.value));
      if reply.Err? {
        return Some(DuplicateRewireFailed);
      }
      if reply.value.rewired {
        result := result.(rewired := result.rewired + 1);
      }
      return None;
    }

    /** `rewire_opencode_duplicates`: one duplicate after the other, until one fails. */
    method RewireDuplicates(duplicates: seq<Duplicate>, id: nat) returns (error: Option<ImportError>)
      requires !Stopped(result)
      modifies this
      ensures Then(error) == ImportRun.RewireDuplicates(cfg, old(Now()), duplicates, id)
    {
      hide RewireOne;
      ghost var before := Now();
      for i := 0 to |duplicates|
        invariant !Stopped(result)
        invariant ImportRun.RewireDuplicates(cfg, Now(), duplicates[i..], id)
               == ImportRun.RewireDuplicates(cfg, before, duplicates, id)
      {
        assert duplicates[i..][1..] == duplicates[i + 1..];
        error := RewireDuplicate(duplicates[i], id);
        if error.Some? {
          return;
        }
      }
      return None;
    }

    /** The tail of a streaming run: the last chunk or the duplicates alone, then the record, labels and links. */
    method Finish(builder: ChunkBuilder<Prepared>, duplicates: seq<Duplicate>)
      requires builder.Valid() && !Stopped(result)
      modifies this, builder
      ensures Now() == Close(cfg, old(Now()), old(builder.items), duplicates)
    {
      hide Flush, Finalize, ImportRun.RewireDuplicates, ApplyOpenCodeLabels;
      var error: Option<ImportError>;
      if builder.IsEmpty() {
        if IsOpenCode(cfg) && result.duplicate > 0 && !cfg.writesEnabled {
          result := result.(error := Some(DuplicateOnlyBlocked));
          return;
        }
        FinalizeObservations();
        if Stopped(result) {
          return;
        }
        if IsOpenCode(cfg) && result.duplicate > 0 && currentThreadId.Some? {
          error := ApplyLabels(currentThreadId.value);
          if error.Some? {
            result := result.(error := error);
            return;
          }
          error := RewireDuplicates(duplicates, currentThreadId.value);
          if error.Some? {
            result := result.(error := error);
          }
        }
        return;
      }
      error := FlushChunk(builder, true);
      if error.Some? {
        result := result.(error := error);
        return;
      }
      if result.suppressed {
        return;
      }
      FinalizeObservations();
      if Stopped(result) {
        return;
      }
      if IsOpenCode(cfg) && currentThreadId.Some? {
        error := RewireDuplicates(duplicates, currentThreadId.value);
        if error.Some? {
          result := result.(error := error);
        }
      }
    }

    /** `run_import_streaming_with_event_sink`, on a fresh session. */
    method RunImportStreaming(items: seq<StreamItem>)
      requires Now() == Start(cfg, world, result.filtered)
      modifies this
      ensures Now() == RunStreaming(cfg, old(world), items, old(result.filtered))
    {
      hide StreamFrom, Preflight, Close, Flush;
      var stream, duplicates: seq<Duplicate> := items, [];
      if IsOpenCode(cfg) {
        var preflight := PreflightDuplicates(items);
        match preflight {
          case Err(error) =>
            result := result.(error := Some(error));
            return;
          case Ok(p) =>
            PreflightQuiet(cfg, old(Now()), items);
            result := result.(duplicate := result.duplicate + p.duplicateCount, threadId := p.thread);
            currentThreadId := p.thread;
            stream, duplicates := EntryItems(p.newEntries), p.duplicates;
        }
      }
      Stream(stream, duplicates);
    }

    /** The streaming loop. */
    method Stream(items: seq<StreamItem>, duplicates: seq<Duplicate>)
      requires !Stopped(result)
      modifies this
      ensures Now() == StreamFrom(cfg, old(Now()), items, [], duplicates)
    {
      hide StreamFrom, Close, Flush, Prepare, Overflows;
      ghost var before := Now();
      var builder := new ChunkBuilder<Prepared>(cfg.limits);
      for i := 0 to |items|
        invariant fresh(builder) && builder.Valid() && builder.limits == cfg.limits && !Stopped(result)
        invariant StreamFrom(cfg, Now(), items[i..], builder.items, duplicates)
               == StreamFrom(cfg, before, items, [], duplicates)
      {
        var item := items[i];
        assert items[i..][0] == item && items[i..][1..] == items[i + 1..];
        StreamStep(cfg, Now(), items[i..], builder.items, duplicates);
        if !item.EntryItem? {
          result := result.(filtered := result.filtered + 1);
          continue;
        }
        var p := Prepare(cfg, item.entry);
        if !IsEntryImportable(p.entry, cfg.since) {
          result := result.(filtered := result.filtered + 1);
          continue;
        }
        var size := cfg.encodedLen(p.input);
        var overflow := builder.WouldOverflow(size);
        if overflow {
          var error := FlushChunk(builder, false);
          if error.Some? {
            result := result.(error := error);
            return;
          }
          if result.suppressed {
            return;
          }
        }
        builder.Push(p, size);
      }
      assert items[|items|..] == [];
      StreamEnd(cfg, Now(), builder.items, duplicates);
      Finish(builder, duplicates);
    }

    /** The ranges of the prepared entries that are sent together. */
    method SplitSession(ps: seq<Prepared>) returns (chunks: seq<Range>)
      ensures chunks == CutsOf(cfg, DEFAULT_LIMITS, ps, 0, 0)
    {
      hide Cut;
      var sizes := seq(|ps|, k requires 0 <= k < |ps| => cfg.encodedLen(ps[k].input));
      assert sizes == Sizes(MeasureAll(cfg, ps));
      chunks := SplitChunks(sizes);
    }

    /** `run_import_with_event_sink`, on a fresh session of any source but OpenCode. */
    method RunImport(entries: seq<Entry>)
      requires Now() == Start(cfg, world, result.filtered)
      modifies this
      ensures Now() == RunVector(cfg, old(world), entries, old(result.filtered))
    {
      hide SendChunks, Prepare, PrepareAll, StableSort, Importable, Finalize, CutsOf;
      var sorted := StableSort(entries, EntryKey);
      var importable := Importable(sorted, cfg.since);
      result := result.(filtered := result.filtered + (|entries| - |importable|));
      if importable == [] {
        return;
      }
      var ps := PrepareAll(cfg, importable);
      var chunks := SplitSession(ps);
      SendAllChunks(ps, chunks);
      if !Stopped(result) {
        FinalizeObservations();
      }
    }

    method SendAllChunks(ps: seq<Prepared>, chunks: seq<Range>)
      requires forall k :: 0 <= k < |chunks| ==> chunks[k].lo <= chunks[k].hi <= |ps|
      requires !Stopped(result)
      modifies this
      ensures Now() == SendChunks(cfg, old(Now()), ps, chunks)
    {
      hide FlushSorted;
      ghost var before := Now();
      for i := 0 to |chunks|
        invariant !Stopped(result)
        invariant SendChunks(cfg, Now(), ps, chunks[i..]) == SendChunks(cfg, before, ps, chunks)
      {
        assert chunks[i..][0] == chunks[i] && chunks[i..][1..] == chunks[i + 1..];
        var error := SendChunk(ps[chunks[i].lo..chunks[i].hi], i + 1 == |chunks|);
        if error.Some? {
          result := result.(error := error);
          return;
        }
        if result.suppressed {
          return;
        }
      }
    }

    /** `emit_session_completion`. */
    method EmitSessionCompletion()
      modifies this
      ensures Now() == EmitCompletion(cfg, old(Now()))
    {
      if !cfg.sinkOn || result.sessionKey.None? || result.threadId.None? {
        return;
      }
      var fine := Announce(SessionCompleted(
        result.sessionKey.value, result.threadId.value, result.imported + result.duplicate, result.error.None?));
      if !fine {
        result := result.(error := Some(SinkFailed));
      }
    }
  }

  lemma OutcomeStep(id: nat, outcomes: seq<Outcome>, i: nat)
    requires i < |outcomes|
    ensures JobsOf(id, outcomes[..i + 1]) == JobsOf(id, outcomes[..i])
      + if NeedsRewire(outcomes[i])
        then [UpdateMemoryParents(id, outcomes[i].memoryId.value, outcomes[i].resolvedParentIds)] else []
    ensures CountCreated(outcomes[..i + 1]) == CountCreated(outcomes[..i]) + if outcomes[i].created then 1 else 0
  {
    assert outcomes[..i + 1][..i] == outcomes[..i];
  }

  /** A lookup that failed is the last. */
  lemma {:induction false} LookupFailureStays(cfg: Config, st: State, entries: seq<Entry>, target: Option<nat>, n: nat)
    requires n <= |entries| && LookupAll(cfg, st, entries[..n], target).1.None?
    ensures LookupAll(cfg, st, entries, target) == LookupAll(cfg, st, entries[..n], target)
    decreases |entries|
  {
    if n == |entries| {
      assert entries[..n] == entries;
    } else {
      var init := entries[..|entries| - 1];
      assert init[..n] == entries[..n];
      LookupFailureStays(cfg, st, init, target, n);
    }
  }

  lemma {:induction false} ParentFailureStays(cfg: Config, st: State, parents: seq<string>, id: nat, n: nat)
    requires n <= |parents| && ParentLookups(cfg, st, parents[..n], id).1.Err?
    ensures ParentLookups(cfg, st, parents, id) == ParentLookups(cfg, st, parents[..n], id)
    decreases |parents|
  {
    if n == |parents| {
      assert parents[..n] == parents;
    } else {
      var init := parents[..|parents| - 1];
      assert init[..n] == parents[..n];
      ParentFailureStays(cfg, st, init, id, n);
    }
  }

  lemma {:induction false} ParentLookupsKeepResult(cfg: Config, st: State, parents: seq<string>, id: nat)
    ensures ParentLookups(cfg, st, parents, id).0.result == st.result
    ensures ParentLookups(cfg, st, parents, id).0.current == st.current
  {
    if parents != [] {
      ParentLookupsKeepResult(cfg, st, parents[..|parents| - 1], id);
    }
  }

  /** Once a completion failed, later ones are not read. */
  lemma {:induction false} FailureStays(replies: seq<Reply>, n: nat)
    requires n <= |replies| && !CountRewired(replies[..n]).1
    ensures CountRewired(replies) == CountRewired(replies[..n])
    decreases |replies|
  {
    if n == |replies| {
      assert replies[..n] == replies;
    } else {
      var init := replies[..|replies| - 1];
      assert init[..n] == replies[..n];
      FailureStays(init, n);
    }
  }
}
