/**
 What no import run ever undoes on the server, whatever the network does to its
 requests: rows, their first data, filled parent links, thread order; and, for
 OpenCode, the content of every row that was there before.
 */
module History {
  import opened Wrappers
  import opened Retry
  import opened Batching
  import opened Canonical
  import opened Store
  import opened Network
  import opened ImportRun
  import opened Refinement

  /** The server took the request `times` times. */
  ghost function Taken(s: Store, request: Request, times: nat): Store {
    if times == 0 then s else Serve(Taken(s, request, times - 1), request).0
  }

  ghost predicate TakesTo(s: Store, request: Request, s': Store) {
    exists times :: Taken(s, request, times) == s'
  }

  /** What the server makes of the requests in order, each of them taken any number of times. */
  ghost predicate Replays(s: Store, log: seq<Exchange>, s': Store) {
    if log == [] then s' == s
    else
      var init, last := log[..|log| - 1], log[|log| - 1].request;
      exists before :: Replays(s, init, before) && TakesTo(before, last, s')
  }

  lemma {:induction false} AttemptsTake(s: Store, fates: seq<Fate>, request: Request, n: nat) returns (times: nat)
    ensures StoreAfter(s, fates, request, n) == Taken(s, request, times)
  {
    hide Serve;
    times := 0;
    if n > 0 {
      var before := AttemptsTake(s, fates, request, n - 1);
      var at := StoreAfter(s, fates, request, n - 1);
      if Attempt(at, FateAt(fates, n - 1), request).0 == at {
        times := before;
      } else {
        times := before + 1;
      }
    }
  }

  lemma {:induction false} ReplaysJoin(a: Store, m: seq<Exchange>, b: Store, n: seq<Exchange>, c: Store)
    requires Replays(a, m, b) && Replays(b, n, c)
    ensures Replays(a, m + n, c)
    decreases |n|
  {
    hide TakesTo;
    if n == [] {
      assert m + n == m;
    } else {
      var k := |n| - 1;
      var before :| Replays(b, n[..k], before) && TakesTo(before, n[k].request, c);
      ReplaysJoin(a, m, b, n[..k], before);
      assert (m + n)[..|m + n| - 1] == m + n[..k];
    }
  }

  /** The store of `r` comes from that of `st` by the requests logged in between. */
  ghost predicate Replayed(st: State, r: State) {
    && st.log <= r.log
    && Replays(st.world.store, r.log[|st.log|..], r.world.store)
  }

  lemma {:induction false} ReplayedTransitive(a: State, b: State, c: State)
    requires Replayed(a, b) && Replayed(b, c)
    ensures Replayed(a, c)
  {
    hide Replays;
    ReplaysJoin(a.world.store, b.log[|a.log|..], b.world.store, c.log[|b.log|..], c.world.store);
    assert b.log[|a.log|..] + c.log[|b.log|..] == c.log[|a.log|..];
  }

  lemma InvokeReplayed(cfg: Config, policy: Policy, st: State, request: Request)
    requires cfg.client == LiveClient(policy)
    ensures Replayed(st, Invoke(cfg, st, request).0)
  {
    hide Serve, CallsMade, StoreAfter, Taken;
    var w, r := st.world, Invoke(cfg, st, request).0;
    var n := CallsMade(policy, Answering(w.store, w.fates, request), 1);
    var times := AttemptsTake(w.store, w.fates, request, n);
    assert TakesTo(w.store, request, r.world.store);
    assert r.log[|st.log|..] == [Exchange(request, Invoke(cfg, st, request).1)];
    assert Replays(w.store, r.log[|st.log|..][..0], w.store);
  }

  /** The store once the server took each logged request once. */
  ghost function ServedStore(s: Store, log: seq<Exchange>): Store {
    if log == [] then s else Serve(ServedStore(s, log[..|log| - 1]), log[|log| - 1].request).0
  }

  /** Each logged request was taken once, in order, and its answer is the server's. */
  ghost predicate Delivered(s: Store, log: seq<Exchange>, s': Store) {
    && s' == ServedStore(s, log)
    && forall k :: 0 <= k < |log| ==> log[k].reply == Serve(ServedStore(s, log[..k]), log[k].request).1
  }

  lemma {:induction false} ServedInTwo(s: Store, m: seq<Exchange>, n: seq<Exchange>)
    ensures ServedStore(s, m + n) == ServedStore(ServedStore(s, m), n)
  {
    hide Serve;
    if n == [] {
      assert m + n == m;
    } else {
      var k := |n| - 1;
      ServedInTwo(s, m, n[..k]);
      assert (m + n)[..|m + n| - 1] == m + n[..k];
    }
  }

  lemma {:induction false} DeliveredJoins(a: Store, m: seq<Exchange>, b: Store, n: seq<Exchange>, c: Store)
    requires Delivered(a, m, b) && Delivered(b, n, c)
    ensures Delivered(a, m + n, c)
  {
    hide Serve, ServedStore;
    var all := m + n;
    ServedInTwo(a, m, n);
    forall k | 0 <= k < |all| ensures all[k].reply == Serve(ServedStore(a, all[..k]), all[k].request).1 {
      if k < |m| {
        assert all[..k] == m[..k];
      } else {
        assert all[..k] == m + n[..k - |m|];
        ServedInTwo(a, m, n[..k - |m|]);
      }
    }
  }

  /** On a network that loses nothing, what lies between the two states was delivered. */
  ghost predicate LossFree(st: State, r: State) {
    st.world.fates == [] ==>
      r.world.fates == [] && st.log <= r.log && Delivered(st.world.store, r.log[|st.log|..], r.world.store)
  }

  lemma {:induction false} LossFreeTransitive(a: State, b: State, c: State)
    requires LossFree(a, b) && LossFree(b, c)
    ensures LossFree(a, c)
  {
    hide Delivered;
    if a.world.fates == [] {
      DeliveredJoins(a.world.store, b.log[|a.log|..], b.world.store, c.log[|b.log|..], c.world.store);
      assert b.log[|a.log|..] + c.log[|b.log|..] == c.log[|a.log|..];
    }
  }

  lemma RefusalStays(s: Store, request: Request)
    requires Serve(s, request).1.Err?
    ensures Serve(s, request).0 == s
  {
    hide AddAll, Outcomes, Malformed, Admit, AttachAll, Existing, ThreadsFor;
  }

  lemma RpcLossFree(policy: Policy, w: World, request: Request)
    requires w.fates == []
    ensures var (w', reply) := Rpc(policy, w, request);
      (w'.store, reply) == Serve(w.store, request) && w'.fates == []
  {
    hide Serve, CallsMade;
    if Serve(w.store, request).1.Ok? {
      RpcDelivered(policy, w, request);
    } else {
      RefusalStays(w.store, request);
      var n := CallsMade(policy, Answering(w.store, w.fates, request), 1);
      IdleAttempts(w.store, w.fates, request, n);
      IdleAttempts(w.store, w.fates, request, n - 1);
    }
  }

  lemma InvokeLossFree(cfg: Config, policy: Policy, st: State, request: Request)
    requires cfg.client == LiveClient(policy)
    ensures LossFree(st, Invoke(cfg, st, request).0)
  {
    hide Serve, Rpc;
    if st.world.fates == [] {
      RpcLossFree(policy, st.world, request);
      var r := Invoke(cfg, st, request).0;
      var log := r.log[|st.log|..];
      assert log == [Exchange(request, Invoke(cfg, st, request).1)] && log[..0] == [];
      assert ServedStore(st.world.store, log[..0]) == st.world.store;
    }
  }

  /** `cfg` talks to the live client, and the store moved forward from `st` to `r`. */
  ghost predicate Grows(cfg: Config, st: State, r: State) {
    && Replayed(st, r)
    && LossFree(st, r)
    && Evolves(st.world.store, r.world.store)
    && (IsOpenCode(cfg) ==> ContentKept(st.world.store, r.world.store))
    && (Honest(st.world) ==> Honest(r.world))
  }

  ghost predicate Live(cfg: Config) {
    exists policy :: cfg.client == LiveClient(policy)
  }

  lemma GrowsTransitive(cfg: Config, a: State, b: State, c: State)
    requires Grows(cfg, a, b) && Grows(cfg, b, c)
    ensures Grows(cfg, a, c)
  {
    hide Evolves, Replayed, LossFree;
    EvolvesTransitive(a.world.store, b.world.store, c.world.store);
    ReplayedTransitive(a, b, c);
    LossFreeTransitive(a, b, c);
  }

  lemma GrowsReflexive(cfg: Config, a: State, b: State)
    requires a.world.store == b.world.store && a.world.fates == b.world.fates && a.log == b.log
    ensures Grows(cfg, a, b)
  {
    assert b.log[|a.log|..] == [];
  }

  lemma InvokeGrows(cfg: Config, st: State, request: Request)
    requires Live(cfg) && (request.AddMemoriesBatch? && IsOpenCode(cfg) ==> !request.batch.upsertByExternalId)
    ensures Grows(cfg, st, Invoke(cfg, st, request).0)
  {
    hide Rpc, Evolves, ContentKept, Honest, Replayed, LossFree;
    var policy :| cfg.client == LiveClient(policy);
    InvokeReplayed(cfg, policy, st, request);
    InvokeLossFree(cfg, policy, st, request);
    RpcEvolves(policy, st.world, request);
    if Honest(st.world) {
      RpcHonest(policy, st.world, request);
    }
  }

  /** A request the server does nothing for, whatever the network does to it. */
  lemma InvokeIdle(cfg: Config, st: State, request: Request)
    requires Live(cfg) && Honest(st.world) && Serve(st.world.store, request).0 == st.world.store
    ensures var (r, reply) := Invoke(cfg, st, request);
      && r.world.store == st.world.store && Honest(r.world)
      && (reply.Ok? ==> reply == Serve(st.world.store, request).1)
  {
    hide Serve, Rpc, Honest;
    var policy :| cfg.client == LiveClient(policy);
    RpcIdle(policy, st.world, request);
  }

  lemma {:induction false} RunJobsGrows(cfg: Config, st: State, jobs: seq<Request>, order: seq<nat>)
    requires Live(cfg) && forall k :: 0 <= k < |order| ==> order[k] < |jobs|
    requires forall j :: j in jobs ==> !j.AddMemoriesBatch?
    ensures Grows(cfg, st, RunJobs(cfg, st, jobs, order))
  {
    hide Grows, Live, Invoke;
    if order == [] {
      GrowsReflexive(cfg, st, st);
    } else {
      var n := |order| - 1;
      var before := RunJobs(cfg, st, jobs, order[..n]);
      RunJobsGrows(cfg, st, jobs, order[..n]);
      InvokeGrows(cfg, before, jobs[order[n]]);
      GrowsTransitive(cfg, st, before, Invoke(cfg, before, jobs[order[n]]).0);
    }
  }

  lemma RewirePassGrows(cfg: Config, st: State, outcomes: seq<Outcome>, id: nat)
    requires Live(cfg)
    ensures Grows(cfg, st, RewirePass(cfg, st, outcomes, id))
  {
    hide JobsOf, RunJobs, CountRewired, Grows, Live;
    var jobs := JobsOf(id, outcomes);
    var (schedule, world) := NextSchedule(st.world, |jobs|);
    var counted := CountOutcomes(st, outcomes).(world := world);
    GrowsReflexive(cfg, st, counted);
    RunJobsGrows(cfg, counted, jobs, schedule.exec);
    var ran := RunJobs(cfg, counted, jobs, schedule.exec);
    GrowsTransitive(cfg, st, counted, ran);
    GrowsReflexive(cfg, ran, Settle(ran, |st.log|, schedule.done));
    GrowsTransitive(cfg, st, ran, Settle(ran, |st.log|, schedule.done));
  }

  lemma ReceiveGrows(cfg: Config, st: State, sent: nat, reply: BatchReply)
    requires Live(cfg)
    ensures Grows(cfg, st, Receive(cfg, st, sent, reply))
  {
    hide RewirePass, Live, Grows;
    GrowsReflexive(cfg, st, Failed(st, MissingThreadId));
    GrowsReflexive(cfg, st, st.(result := st.result.(suppressed := true)));
    if !reply.suppressed && reply.threadId.Some? {
      var id := reply.threadId.value;
      var (announced, fine) := Announce(cfg, st, id, reply.threadCreated);
      var pinned := announced.(current := Some(id));
      GrowsReflexive(cfg, st, Failed(announced, SinkFailed));
      GrowsReflexive(cfg, st, pinned);
      GrowsReflexive(cfg, st, Failed(pinned, OutcomeCount));
      RewirePassGrows(cfg, pinned, reply.outcomes, id);
      GrowsTransitive(cfg, st, pinned, RewirePass(cfg, pinned, reply.outcomes, id));
    }
  }

  lemma FlushGrows(cfg: Config, st: State, chunk: seq<Prepared>, isLast: bool)
    requires Live(cfg)
    ensures Grows(cfg, st, Flush(cfg, st, chunk, isLast))
  {
    hide Receive, Live, Grows, StableSort, BuildLabels;
    var batch := BatchOf(cfg, st.current, InputsOf(StableSort(chunk, PreparedKey)), isLast);
    var (sent, reply) := Invoke(cfg, st, AddMemoriesBatch(batch));
    InvokeGrows(cfg, st, AddMemoriesBatch(batch));
    GrowsReflexive(cfg, sent, Failed(sent, BatchFailed));
    GrowsTransitive(cfg, st, sent, Failed(sent, BatchFailed));
    if reply.Ok? {
      ReceiveGrows(cfg, sent, |chunk|, reply.value.reply);
      GrowsTransitive(cfg, st, sent, Receive(cfg, sent, |chunk|, reply.value.reply));
    }
  }

  lemma FinalizeGrows(cfg: Config, st: State)
    requires Live(cfg)
    ensures Grows(cfg, st, Finalize(cfg, st))
  {
    hide Live, Grows;
    GrowsReflexive(cfg, st, st);
    if Recordable(cfg) && cfg.writesEnabled && !Stopped(st.result) && st.result.threadId.Some? {
      var subject := Endpoint(CanonicalSourceIdentity(cfg.session).value, cfg.userId);
      var request := RecordObservations(st.result.threadId.value, subject);
      InvokeGrows(cfg, st, request);
      var recorded := Invoke(cfg, st, request).0;
      GrowsReflexive(cfg, recorded, Failed(recorded, ObservationsFailed));
      GrowsTransitive(cfg, st, recorded, Failed(recorded, ObservationsFailed));
    }
  }

  lemma ApplyLabelsGrows(cfg: Config, st: State, id: nat)
    requires Live(cfg)
    ensures Grows(cfg, st, ApplyOpenCodeLabels(cfg, st, id))
  {
    hide Live, Grows, BuildLabels;
    GrowsReflexive(cfg, st, st);
    var request := AddLabels(id, BuildLabels(cfg.session, cfg.extraLabels));
    InvokeGrows(cfg, st, request);
    var sent := Invoke(cfg, st, request).0;
    GrowsReflexive(cfg, sent, Failed(sent, LabelsFailed));
    GrowsTransitive(cfg, st, sent, Failed(sent, LabelsFailed));
  }

  lemma {:induction false} ParentLookupsGrows(cfg: Config, st: State, parents: seq<string>, id: nat)
    requires Live(cfg)
    ensures Grows(cfg, st, ParentLookups(cfg, st, parents, id).0)
  {
    hide Live, Grows, Invoke, CheckParent;
    GrowsReflexive(cfg, st, st);
    if parents != [] {
      var n := |parents| - 1;
      ParentLookupsGrows(cfg, st, parents[..n], id);
      var before := ParentLookups(cfg, st, parents[..n], id).0;
      InvokeGrows(cfg, before, FindMemory(parents[n]));
      GrowsTransitive(cfg, st, before, Invoke(cfg, before, FindMemory(parents[n])).0);
    }
  }

  lemma RewireOneGrows(cfg: Config, st: State, d: Duplicate, id: nat)
    requires Live(cfg)
    ensures Grows(cfg, st, RewireOne(cfg, st, d, id))
  {
    hide Live, Grows, ParentLookups;
    GrowsReflexive(cfg, st, st);
    if Rewritable(d) {
      ParentLookupsGrows(cfg, st, d.entry.parentExternalIds, id);
      var (asked, found) := ParentLookups(cfg, st, d.entry.parentExternalIds, id);
      if found.Err? {
        GrowsReflexive(cfg, asked, Failed(asked, found.error));
        GrowsTransitive(cfg, st, asked, Failed(asked, found.error));
      } else if found.value != [] {
        var request := UpdateMemoryParents(id, d.existing.memoryId, found.value);
        InvokeGrows(cfg, asked, request);
        var sent := Invoke(cfg, asked, request).0;
        GrowsReflexive(cfg, sent, RewireOne(cfg, st, d, id));
        GrowsTransitive(cfg, st, asked, sent);
        GrowsTransitive(cfg, st, sent, RewireOne(cfg, st, d, id));
      }
    }
  }

  lemma {:induction false} RewireDuplicatesGrows(cfg: Config, st: State, duplicates: seq<Duplicate>, id: nat)
    requires Live(cfg)
    ensures Grows(cfg, st, RewireDuplicates(cfg, st, duplicates, id))
    decreases |duplicates|
  {
    hide Live, Grows, RewireOne;
    GrowsReflexive(cfg, st, st);
    if duplicates != [] {
      var next := RewireOne(cfg, st, duplicates[0], id);
      RewireOneGrows(cfg, st, duplicates[0], id);
      RewireDuplicatesGrows(cfg, next, duplicates[1..], id);
      GrowsTransitive(cfg, st, next, RewireDuplicates(cfg, next, duplicates[1..], id));
    }
  }

  lemma CloseGrows(cfg: Config, st: State, pending: seq<Sized<Prepared>>, duplicates: seq<Duplicate>)
    requires Live(cfg)
    ensures Grows(cfg, st, Close(cfg, st, pending, duplicates))
  {
    hide Live, Grows, Flush, Finalize, RewireDuplicates, ApplyOpenCodeLabels, ItemsOf;
    GrowsReflexive(cfg, st, st);
    GrowsReflexive(cfg, st, Failed(st, DuplicateOnlyBlocked));
    FlushGrows(cfg, st, ItemsOf(pending), true);
    var last := if pending == [] then st else Flush(cfg, st, ItemsOf(pending), true);
    var recorded := Finalize(cfg, last);
    FinalizeGrows(cfg, last);
    GrowsTransitive(cfg, st, last, recorded);
    if recorded.current.Some? {
      var id := recorded.current.value;
      var labelled := ApplyOpenCodeLabels(cfg, recorded, id);
      ApplyLabelsGrows(cfg, recorded, id);
      GrowsTransitive(cfg, st, recorded, labelled);
      RewireDuplicatesGrows(cfg, recorded, duplicates, id);
      RewireDuplicatesGrows(cfg, labelled, duplicates, id);
      GrowsTransitive(cfg, st, recorded, RewireDuplicates(cfg, recorded, duplicates, id));
      GrowsTransitive(cfg, st, labelled, RewireDuplicates(cfg, labelled, duplicates, id));
    }
  }

  lemma {:induction false} StreamGrows(
      cfg: Config, st: State, items: seq<StreamItem>, pending: seq<Sized<Prepared>>, duplicates: seq<Duplicate>)
    requires Live(cfg)
    ensures Grows(cfg, st, StreamFrom(cfg, st, items, pending, duplicates))
    decreases |items|
  {
    hide StreamFrom, Flush, Close, SentOf, Measure, Overflows, Grows, Live;
    if items == [] {
      StreamEnd(cfg, st, pending, duplicates);
      CloseGrows(cfg, st, pending, duplicates);
    } else {
      StreamStep(cfg, st, items, pending, duplicates);
      if SentOf(cfg, items[0]) == [] {
        var counted := CountFiltered(st);
        GrowsReflexive(cfg, st, counted);
        StreamGrows(cfg, counted, items[1..], pending, duplicates);
        GrowsTransitive(cfg, st, counted, StreamFrom(cfg, counted, items[1..], pending, duplicates));
      } else {
        var next := Measure(cfg, SentOf(cfg, items[0])[0]);
        if Overflows(pending, next.size, cfg.limits) {
          var flushed := Flush(cfg, st, ItemsOf(pending), false);
          FlushGrows(cfg, st, ItemsOf(pending), false);
          StreamGrows(cfg, flushed, items[1..], [next], duplicates);
          GrowsTransitive(cfg, st, flushed, StreamFrom(cfg, flushed, items[1..], [next], duplicates));
        } else {
          StreamGrows(cfg, st, items[1..], pending + [next], duplicates);
        }
      }
    }
  }

  lemma {:induction false} LookupAllGrows(cfg: Config, st: State, entries: seq<Entry>, target: Option<nat>)
    requires Live(cfg)
    ensures Grows(cfg, st, LookupAll(cfg, st, entries, target).0)
  {
    hide Live, Grows, Invoke, CheckFound;
    GrowsReflexive(cfg, st, st);
    if entries != [] {
      var n := |entries| - 1;
      LookupAllGrows(cfg, st, entries[..n], target);
      var before := LookupAll(cfg, st, entries[..n], target).0;
      var request := FindMemory(entries[n].externalId);
      InvokeGrows(cfg, before, request);
      GrowsTransitive(cfg, st, before, Invoke(cfg, before, request).0);
    }
  }

  lemma PreflightGrows(cfg: Config, st: State, items: seq<StreamItem>)
    requires Live(cfg)
    ensures Grows(cfg, st, Preflight(cfg, st, items).0)
  {
    hide Live, Grows, LookupAll, DuplicatesIn, Invoke;
    var entries := NamespaceEntries(cfg, EntriesOf(items));
    GrowsReflexive(cfg, st, st);
    InvokeGrows(cfg, st, FindThread(cfg.session.channel, cfg.userId));
    var (asked, target) := TargetThread(cfg, st, entries);
    if target.Ok? {
      LookupAllGrows(cfg, asked, entries, target.value);
      GrowsTransitive(cfg, st, asked, LookupAll(cfg, asked, entries, target.value).0);
    }
  }

  /**
   Over any streaming run of the live client, with any losses, resends and wrong
   answers: nothing is removed, a filled parent list never changes again, thread
   order is only extended, and an OpenCode run changes no existing content.
   */
  lemma RunEvolves(cfg: Config, w: World, items: seq<StreamItem>, filtered: nat)
    requires Live(cfg)
    ensures var r := RunStreaming(cfg, w, items, filtered);
      && Evolves(w.store, r.world.store)
      && (IsOpenCode(cfg) ==> ContentKept(w.store, r.world.store))
      && (Honest(w) ==> Honest(r.world))
      && Replays(w.store, r.log, r.world.store)
      && (w.fates == [] ==> Delivered(w.store, r.log, r.world.store))
  {
    hide StreamFrom, Preflight, Live, Evolves, ContentKept, Honest, Replays, Delivered;
    assert forall r: State :: r.log[|Start(cfg, w, filtered).log|..] == r.log;
    var st := Start(cfg, w, filtered);
    if !IsOpenCode(cfg) {
      StreamGrows(cfg, st, items, [], []);
    } else {
      PreflightGrows(cfg, st, items);
      var (asked, found) := Preflight(cfg, st, items);
      match found {
        case Ok(p) =>
          var ready := AfterPreflight(asked, p);
          GrowsReflexive(cfg, asked, ready);
          GrowsTransitive(cfg, st, asked, ready);
          StreamGrows(cfg, ready, EntryItems(p.newEntries), [], p.duplicates);
          GrowsTransitive(cfg, st, ready, StreamFrom(cfg, ready, EntryItems(p.newEntries), [], p.duplicates));
        case Err(_) =>
      }
    }
  }
}
