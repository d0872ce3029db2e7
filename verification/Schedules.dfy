/**
 On a network that loses nothing, the schedules of the concurrent rewires are
 unobservable: two runs that differ in nothing else leave the same store, result,
 events and thread.
 */
module Schedules {
  import opened Wrappers
  import opened Retry
  import opened Canonical
  import opened Batching
  import opened Store
  import opened Network
  import opened ImportRun
  import opened Refinement
  import opened Rewire
  import opened History

  /** Alike in all but their logs and the schedules to come, and nothing gets lost. */
  ghost predicate Twins(a: State, b: State) {
    && a.world.store == b.world.store
    && a.world.fates == [] && b.world.fates == []
    && a.world.sinkFails == b.world.sinkFails
    && a.result == b.result && a.events == b.events && a.current == b.current
  }

  lemma InvokeTwins(cfg: Config, a: State, b: State, request: Request)
    requires Live(cfg) && Twins(a, b)
    ensures Twins(Invoke(cfg, a, request).0, Invoke(cfg, b, request).0)
    ensures Invoke(cfg, a, request).1 == Invoke(cfg, b, request).1
  {
    hide Serve, Attempt, CallsMade, StoreAfter;
    var policy :| cfg.client == LiveClient(policy);
  }

  /** The rewire pass, whatever its two schedules. */
  lemma RewirePassTwins(cfg: Config, a: State, b: State, outcomes: seq<Outcome>, id: nat)
    requires Live(cfg) && Twins(a, b) && Ready(a.world.store, id, JobsOf(id, outcomes))
    ensures Twins(RewirePass(cfg, a, outcomes, id), RewirePass(cfg, b, outcomes, id))
  {
    hide RewirePass, JobsOf, Linked, Ready, Rewires, CountIf, LiveClient, CountCreated;
    var policy :| cfg.client == LiveClient(policy);
    RewirePassConfluent(cfg, policy, a, outcomes, id);
    RewirePassConfluent(cfg, policy, b, outcomes, id);
  }

  /** The answer is one whose rewires are ready, if it is one that leads to any. */
  ghost predicate Sound(s: Store, reply: BatchReply) {
    !reply.suppressed ==>
      reply.threadId.Some? && Ready(s, reply.threadId.value, JobsOf(reply.threadId.value, reply.outcomes))
  }

  lemma BatchIsSound(cfg: Config, st: State, batch: Batch)
    requires Live(cfg) && st.world.fates == []
    ensures var (r, reply) := Invoke(cfg, st, AddMemoriesBatch(batch));
      reply.Ok? ==> Sound(r.world.store, reply.value.reply)
  {
    hide Rpc, AddBatch, Ready, JobsOf, BeforeLast;
    var policy :| cfg.client == LiveClient(policy);
    var request := AddMemoriesBatch(batch);
    RpcHonest(policy, st.world, request);
    if Rpc(policy, st.world, request).1.Ok? {
      var before := BeforeLast(policy, st.world, request);
      assert Serve(before, request) == AddBatch(before, batch);
      if !Rpc(policy, st.world, request).1.value.reply.suppressed {
        GenuineAnswer(before, batch);
      }
    }
  }

  lemma ReceiveTwins(cfg: Config, a: State, b: State, sent: nat, reply: BatchReply)
    requires Live(cfg) && Twins(a, b) && Sound(a.world.store, reply)
    ensures Twins(Receive(cfg, a, sent, reply), Receive(cfg, b, sent, reply))
  {
    hide RewirePass, Live, Ready, JobsOf;
    if !reply.suppressed {
      var id := reply.threadId.value;
      var (a', fine) := Announce(cfg, a, id, reply.threadCreated);
      var (b', _) := Announce(cfg, b, id, reply.threadCreated);
      RewirePassTwins(cfg, a'.(current := Some(id)), b'.(current := Some(id)), reply.outcomes, id);
    }
  }

  lemma {:induction false} FlushTwins(cfg: Config, a: State, b: State, chunk: seq<Prepared>, isLast: bool)
    requires Live(cfg) && Twins(a, b)
    ensures Twins(Flush(cfg, a, chunk, isLast), Flush(cfg, b, chunk, isLast))
  {
    hide Invoke, Receive, Live, StableSort, BuildLabels, Sound;
    var batch := BatchOf(cfg, a.current, InputsOf(StableSort(chunk, PreparedKey)), isLast);
    InvokeTwins(cfg, a, b, AddMemoriesBatch(batch));
    BatchIsSound(cfg, a, batch);
    var (a', reply) := Invoke(cfg, a, AddMemoriesBatch(batch));
    var b' := Invoke(cfg, b, AddMemoriesBatch(batch)).0;
    FlushUnfold(cfg, a, chunk, isLast, batch);
    FlushUnfold(cfg, b, chunk, isLast, batch);
    if reply.Ok? {
      ReceiveTwins(cfg, a', b', |chunk|, reply.value.reply);
    }
  }

  lemma FinalizeTwins(cfg: Config, a: State, b: State)
    requires Live(cfg) && Twins(a, b)
    ensures Twins(Finalize(cfg, a), Finalize(cfg, b))
  {
    hide Invoke, Live;
    if Recordable(cfg) && a.result.threadId.Some? {
      var subject := Endpoint(CanonicalSourceIdentity(cfg.session).value, cfg.userId);
      InvokeTwins(cfg, a, b, RecordObservations(a.result.threadId.value, subject));
    }
  }

  lemma ApplyLabelsTwins(cfg: Config, a: State, b: State, id: nat)
    requires Live(cfg) && Twins(a, b)
    ensures Twins(ApplyOpenCodeLabels(cfg, a, id), ApplyOpenCodeLabels(cfg, b, id))
  {
    hide Invoke, Live, BuildLabels;
    InvokeTwins(cfg, a, b, AddLabels(id, BuildLabels(cfg.session, cfg.extraLabels)));
  }

  lemma {:induction false} ParentLookupsTwins(cfg: Config, a: State, b: State, parents: seq<string>, id: nat)
    requires Live(cfg) && Twins(a, b)
    ensures Twins(ParentLookups(cfg, a, parents, id).0, ParentLookups(cfg, b, parents, id).0)
    ensures ParentLookups(cfg, a, parents, id).1 == ParentLookups(cfg, b, parents, id).1
  {
    if parents != [] {
      hide Invoke, Live, Twins, CheckParent;
      var n := |parents| - 1;
      ParentLookupsTwins(cfg, a, b, parents[..n], id);
      InvokeTwins(cfg, ParentLookups(cfg, a, parents[..n], id).0, ParentLookups(cfg, b, parents[..n], id).0,
                  FindMemory(parents[n]));
    }
  }

  lemma RewireOneTwins(cfg: Config, a: State, b: State, d: Duplicate, id: nat)
    requires Live(cfg) && Twins(a, b)
    ensures Twins(RewireOne(cfg, a, d, id), RewireOne(cfg, b, d, id))
  {
    hide Invoke, Live, ParentLookups;
    ParentLookupsTwins(cfg, a, b, d.entry.parentExternalIds, id);
    var (a', found) := ParentLookups(cfg, a, d.entry.parentExternalIds, id);
    var b' := ParentLookups(cfg, b, d.entry.parentExternalIds, id).0;
    if found.Ok? {
      InvokeTwins(cfg, a', b', UpdateMemoryParents(id, d.existing.memoryId, found.value));
    }
  }

  lemma {:induction false} RewireDuplicatesTwins(
      cfg: Config, a: State, b: State, duplicates: seq<Duplicate>, id: nat)
    requires Live(cfg) && Twins(a, b)
    ensures Twins(RewireDuplicates(cfg, a, duplicates, id), RewireDuplicates(cfg, b, duplicates, id))
    decreases |duplicates|
  {
    if duplicates != [] {
      hide Live, RewireOne;
      RewireOneTwins(cfg, a, b, duplicates[0], id);
      RewireDuplicatesTwins(cfg, RewireOne(cfg, a, duplicates[0], id), RewireOne(cfg, b, duplicates[0], id),
                            duplicates[1..], id);
    }
  }

  lemma CloseTwins(cfg: Config, a: State, b: State, pending: seq<Sized<Prepared>>, duplicates: seq<Duplicate>)
    requires Live(cfg) && Twins(a, b)
    ensures Twins(Close(cfg, a, pending, duplicates), Close(cfg, b, pending, duplicates))
  {
    hide Live, Flush, Finalize, RewireDuplicates, ApplyOpenCodeLabels, ItemsOf, IsOpenCode;
    FlushTwins(cfg, a, b, ItemsOf(pending), true);
    var a', b' := a, b;
    if pending != [] {
      a', b' := Flush(cfg, a, ItemsOf(pending), true), Flush(cfg, b, ItemsOf(pending), true);
    }
    FinalizeTwins(cfg, a', b');
    var a'', b'' := Finalize(cfg, a'), Finalize(cfg, b');
    if a''.current.Some? {
      var id := a''.current.value;
      ApplyLabelsTwins(cfg, a'', b'', id);
      RewireDuplicatesTwins(cfg, a'', b'', duplicates, id);
      RewireDuplicatesTwins(cfg, ApplyOpenCodeLabels(cfg, a'', id), ApplyOpenCodeLabels(cfg, b'', id), duplicates, id);
    }
  }

  lemma {:induction false} StreamTwins(
      cfg: Config, a: State, b: State, items: seq<StreamItem>, pending: seq<Sized<Prepared>>,
      duplicates: seq<Duplicate>)
    requires Live(cfg) && Twins(a, b)
    ensures Twins(StreamFrom(cfg, a, items, pending, duplicates), StreamFrom(cfg, b, items, pending, duplicates))
    decreases |items|
  {
    hide StreamFrom, Flush, Close, SentOf, Measure, Overflows, Live;
    if items == [] {
      StreamEnd(cfg, a, pending, duplicates);
      StreamEnd(cfg, b, pending, duplicates);
      CloseTwins(cfg, a, b, pending, duplicates);
    } else {
      StreamStep(cfg, a, items, pending, duplicates);
      StreamStep(cfg, b, items, pending, duplicates);
      if SentOf(cfg, items[0]) == [] {
        StreamTwins(cfg, CountFiltered(a), CountFiltered(b), items[1..], pending, duplicates);
      } else {
        var next := Measure(cfg, SentOf(cfg, items[0])[0]);
        if Overflows(pending, next.size, cfg.limits) {
          FlushTwins(cfg, a, b, ItemsOf(pending), false);
          StreamTwins(cfg, Flush(cfg, a, ItemsOf(pending), false), Flush(cfg, b, ItemsOf(pending), false),
                      items[1..], [next], duplicates);
        } else {
          StreamTwins(cfg, a, b, items[1..], pending + [next], duplicates);
        }
      }
    }
  }

  lemma {:induction false} LookupAllTwins(cfg: Config, a: State, b: State, entries: seq<Entry>, target: Option<nat>)
    requires Live(cfg) && Twins(a, b)
    ensures Twins(LookupAll(cfg, a, entries, target).0, LookupAll(cfg, b, entries, target).0)
    ensures LookupAll(cfg, a, entries, target).1 == LookupAll(cfg, b, entries, target).1
  {
    if entries != [] {
      hide LookupOne, Live, Twins;
      var n := |entries| - 1;
      LookupAllTwins(cfg, a, b, entries[..n], target);
      var (a', seen) := LookupAll(cfg, a, entries[..n], target);
      if seen.Some? {
        LookupOneTwins(cfg, a', LookupAll(cfg, b, entries[..n], target).0, seen.value, entries[n], target);
      }
    }
  }

  lemma LookupOneTwins(cfg: Config, a: State, b: State, seen: LookedUp, entry: Entry, target: Option<nat>)
    requires Live(cfg) && Twins(a, b)
    ensures Twins(LookupOne(cfg, a, seen, entry, target).0, LookupOne(cfg, b, seen, entry, target).0)
    ensures LookupOne(cfg, a, seen, entry, target).1 == LookupOne(cfg, b, seen, entry, target).1
  {
    hide Invoke, Live, Twins, CheckFound;
    InvokeTwins(cfg, a, b, FindMemory(entry.externalId));
  }

  lemma PreflightTwins(cfg: Config, a: State, b: State, items: seq<StreamItem>)
    requires Live(cfg) && Twins(a, b)
    ensures Twins(Preflight(cfg, a, items).0, Preflight(cfg, b, items).0)
    ensures Preflight(cfg, a, items).1 == Preflight(cfg, b, items).1
  {
    hide Invoke, Live, Twins, LookupAll, DuplicatesIn, EntriesOf;
    var entries := NamespaceEntries(cfg, EntriesOf(items));
    InvokeTwins(cfg, a, b, FindThread(cfg.session.channel, cfg.userId));
    var (a', target) := TargetThread(cfg, a, entries);
    var b' := TargetThread(cfg, b, entries).0;
    if target.Ok? {
      LookupAllTwins(cfg, a', b', entries, target.value);
    }
  }

  /**
   Two runs over networks that lose nothing, from the same store and over the same
   sink: whatever their schedules, they end with the same store, counters, error,
   thread and events.
   */
  lemma SchedulesDoNotMatter(cfg: Config, w: World, w': World, items: seq<StreamItem>, filtered: nat)
    requires Live(cfg) && w.fates == [] && w' == w.(schedules := w'.schedules)
    ensures var a, b := RunStreaming(cfg, w, items, filtered), RunStreaming(cfg, w', items, filtered);
      a.world.store == b.world.store && a.result == b.result && a.events == b.events && a.current == b.current
  {
    hide StreamFrom, Preflight, Live, EntryItems;
    var a, b := Start(cfg, w, filtered), Start(cfg, w', filtered);
    if !IsOpenCode(cfg) {
      StreamTwins(cfg, a, b, items, [], []);
    } else {
      PreflightTwins(cfg, a, b, items);
      var (a', found) := Preflight(cfg, a, items);
      var b' := Preflight(cfg, b, items).0;
      match found {
        case Ok(p) =>
          StreamTwins(cfg, AfterPreflight(a', p), AfterPreflight(b', p), EntryItems(p.newEntries), [], p.duplicates);
        case Err(_) =>
      }
    }
  }
}
