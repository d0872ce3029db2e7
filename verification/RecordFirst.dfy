/**
 When labels and links wait for a successful observation record, decided before
 the run: from the session and the store on a network that loses nothing, and
 from the session alone over any client.
 */
module RecordFirst {
  import opened Wrappers
  import opened Canonical
  import opened Store
  import opened Network
  import opened ImportRun
  import opened Refinement
  import opened History
  import opened OpenCode
  import opened DuplicateOnly
  import Rewire

  // What the parent lookups of one duplicate come to, read off the store.

  /** Some named parent is another user's row: the lookups end in an error. */
  ghost predicate ParentClash(cfg: Config, rows: map<string, Row>, parents: seq<string>) {
    exists q :: q in parents && q in rows && rows[q].first.userId != cfg.userId
  }

  /** Some named parent is in the session's thread. */
  ghost predicate ParentThere(rows: map<string, Row>, parents: seq<string>, id: nat) {
    exists q :: q in parents && q in rows && id in rows[q].threads
  }

  /** The duplicate's parents would be looked up and lead to an update. */
  ghost predicate Links(cfg: Config, rows: map<string, Row>, d: Duplicate, id: nat) {
    && Rewritable(d) && !ParentClash(cfg, rows, d.entry.parentExternalIds)
    && ParentThere(rows, d.entry.parentExternalIds, id)
  }

  /** Its lookups, if there are any, end without an error and without a parent. */
  ghost predicate Passes(cfg: Config, rows: map<string, Row>, d: Duplicate, id: nat) {
    Rewritable(d) ==>
      !ParentClash(cfg, rows, d.entry.parentExternalIds) && !ParentThere(rows, d.entry.parentExternalIds, id)
  }

  /** The first duplicate that does not pass is one that links. */
  ghost predicate SomeLink(cfg: Config, rows: map<string, Row>, ds: seq<Duplicate>, id: nat) {
    exists k :: 0 <= k < |ds| && Links(cfg, rows, ds[k], id) && forall j :: 0 <= j < k ==> Passes(cfg, rows, ds[j], id)
  }

  lemma SomeLinkStep(cfg: Config, rows: map<string, Row>, ds: seq<Duplicate>, id: nat)
    requires ds != []
    ensures SomeLink(cfg, rows, ds, id) <==>
      Links(cfg, rows, ds[0], id) || (Passes(cfg, rows, ds[0], id) && SomeLink(cfg, rows, ds[1..], id))
  {
    hide Links, Passes;
    if Links(cfg, rows, ds[0], id) {
      assert SomeLink(cfg, rows, ds, id);
    } else if SomeLink(cfg, rows, ds, id) {
      var k :| 0 <= k < |ds| && Links(cfg, rows, ds[k], id) && forall j :: 0 <= j < k ==> Passes(cfg, rows, ds[j], id);
      assert ds[1..][k - 1] == ds[k];
      assert forall j :: 0 <= j < k - 1 ==> ds[1..][j] == ds[j + 1];
    } else if Passes(cfg, rows, ds[0], id) && SomeLink(cfg, rows, ds[1..], id) {
      var k :| 0 <= k < |ds[1..]| && Links(cfg, rows, ds[1..][k], id)
        && forall j :: 0 <= j < k ==> Passes(cfg, rows, ds[1..][j], id);
      assert ds[k + 1] == ds[1..][k];
      forall j | 0 <= j < k + 1 ensures Passes(cfg, rows, ds[j], id) {
        assert j > 0 ==> ds[j] == ds[1..][j - 1];
      }
    }
  }

  /** Nothing is lost, and so far nothing was written. */
  ghost predicate Intact(cfg: Config, st: State, s: Store) {
    Live(cfg) && st.world.fates == [] && st.world.store == s
  }

  lemma InvokeIntact(cfg: Config, st: State, s: Store, request: Request)
    requires Intact(cfg, st, s) && Serve(s, request) == (s, Serve(s, request).1) && Serve(s, request).1.Ok?
    ensures Intact(cfg, Invoke(cfg, st, request).0, s)
    ensures Invoke(cfg, st, request).1 == Serve(s, request).1
  {
    hide Serve;
    var policy :| cfg.client == LiveClient(policy);
    Rewire.InvokeDelivered(cfg, policy, st, request);
  }

  /** One more parent looked up. */
  lemma ParentStep(cfg: Config, rows: map<string, Row>, parents: seq<string>, p: string, id: nat)
    ensures ParentClash(cfg, rows, parents + [p]) <==>
      ParentClash(cfg, rows, parents) || (p in rows && rows[p].first.userId != cfg.userId)
    ensures ParentThere(rows, parents + [p], id) <==>
      ParentThere(rows, parents, id) || (p in rows && id in rows[p].threads)
  {
  }

  lemma {:induction false} ParentLookupsExact(cfg: Config, st: State, s: Store, parents: seq<string>, id: nat)
    requires Intact(cfg, st, s)
    ensures var (r, found) := ParentLookups(cfg, st, parents, id);
      && Intact(cfg, r, s)
      && (found.Err? <==> ParentClash(cfg, s.rows, parents))
      && (found.Ok? ==> (found.value != [] <==> ParentThere(s.rows, parents, id)))
  {
    if parents != [] {
      hide Intact, Invoke, ParentClash, ParentThere;
      var n := |parents| - 1;
      ParentLookupsExact(cfg, st, s, parents[..n], id);
      assert parents == parents[..n] + [parents[n]];
      ParentStep(cfg, s.rows, parents[..n], parents[n], id);
      InvokeIntact(cfg, ParentLookups(cfg, st, parents[..n], id).0, s, FindMemory(parents[n]));
    } else {
      hide Intact;
    }
  }

  lemma {:induction false} ParentLookupsTouch(cfg: Config, st: State, parents: seq<string>, id: nat)
    ensures TouchesThread(ParentLookups(cfg, st, parents, id).0.log) <==> TouchesThread(st.log)
  {
    if parents != [] {
      hide Invoke, CheckParent, TouchesThread;
      var n := |parents| - 1;
      var before := ParentLookups(cfg, st, parents[..n], id).0;
      ParentLookupsTouch(cfg, st, parents[..n], id);
      TouchMore(before.log, Exchange(FindMemory(parents[n]), Invoke(cfg, before, FindMemory(parents[n])).1));
    }
  }

  lemma TouchMore(log: seq<Exchange>, x: Exchange)
    ensures TouchesThread(log + [x]) <==> TouchesThread(log) || Touches(x.request)
  {
    if Touches(x.request) {
      assert (log + [x])[|log|] == x;
    }
    if TouchesThread(log) {
      var k :| 0 <= k < |log| && Touches(log[k].request);
      assert (log + [x])[k] == log[k];
    }
  }

  /** What one duplicate's turn comes to. */
  lemma RewireOneExact(cfg: Config, st: State, s: Store, d: Duplicate, id: nat)
    requires Intact(cfg, st, s) && !Stopped(st.result)
    ensures var r := RewireOne(cfg, st, d, id);
      && (TouchesThread(r.log) <==> TouchesThread(st.log) || Links(cfg, s.rows, d, id))
      && (!Links(cfg, s.rows, d, id) ==> Intact(cfg, r, s) && (!Stopped(r.result) <==> Passes(cfg, s.rows, d, id)))
  {
    hide Intact, Invoke, ParentLookups, TouchesThread, ParentClash, ParentThere;
    if Rewritable(d) {
      var parents := d.entry.parentExternalIds;
      ParentLookupsExact(cfg, st, s, parents, id);
      ParentLookupsTouch(cfg, st, parents, id);
      ParentLookupsIgnoresFiltered(cfg, st, st, parents, id);
      var (asked, found) := ParentLookups(cfg, st, parents, id);
      if found.Err? {
        SameIntact(cfg, asked, Failed(asked, found.error), s);
      } else if found.value != [] {
        var request := UpdateMemoryParents(id, d.existing.memoryId, found.value);
        TouchMore(asked.log, Exchange(request, Invoke(cfg, asked, request).1));
      }
    }
  }

  lemma SameIntact(cfg: Config, a: State, b: State, s: Store)
    requires Intact(cfg, a, s) && b.world == a.world
    ensures Intact(cfg, b, s)
  {
  }

  lemma {:induction false} RewireDuplicatesExact(cfg: Config, st: State, s: Store, ds: seq<Duplicate>, id: nat)
    requires Intact(cfg, st, s) && !Stopped(st.result)
    ensures TouchesThread(RewireDuplicates(cfg, st, ds, id).log)
       <==> TouchesThread(st.log) || SomeLink(cfg, s.rows, ds, id)
    decreases |ds|
  {
    hide Intact, RewireOne, TouchesThread, Links, Passes;
    if ds != [] {
      hide SomeLink;
      var next := RewireOne(cfg, st, ds[0], id);
      RewireOneExact(cfg, st, s, ds[0], id);
      SomeLinkStep(cfg, s.rows, ds, id);
      if Links(cfg, s.rows, ds[0], id) {
        RewireDuplicatesFollow(cfg, next, ds[1..], id);
        TouchStays(next, RewireDuplicates(cfg, next, ds[1..], id));
      } else if !Stopped(next.result) {
        RewireDuplicatesExact(cfg, next, s, ds[1..], id);
      } else {
        PassesNot(cfg, s.rows, ds[0], id);
      }
    }
  }

  lemma PassesNot(cfg: Config, rows: map<string, Row>, d: Duplicate, id: nat)
    ensures !(Links(cfg, rows, d, id) && Passes(cfg, rows, d, id))
  {
  }

  /** The end of an unlabelled, unrecordable run that found only duplicates. */
  lemma CloseExact(cfg: Config, st: State, s: Store, ds: seq<Duplicate>)
    requires IsOpenCode(cfg) && OnlyFound(st) && Intact(cfg, st, s)
    requires !Recordable(cfg) && cfg.writesEnabled && st.result.duplicate > 0
    requires BuildLabels(cfg.session, cfg.extraLabels) == []
    ensures TouchesThread(Close(cfg, st, [], ds).log) <==> SomeLink(cfg, s.rows, ds, st.current.value)
  {
    hide BuildLabels, IsOpenCode, TouchesThread, Unrecorded, Intact, SomeLink, RewireDuplicates;
    RewireDuplicatesExact(cfg, st, s, ds, st.current.value);
  }

  // The preflight on a network that loses nothing.

  /** It is refused: the channel is ambiguous, or an entry's row is foreign. */
  ghost predicate Refused(cfg: Config, s: Store, entries: seq<Entry>) {
    entries != [] &&
    ( || ( && cfg.session.channel !in cfg.snapshot
           && |ThreadsFor(s.threads, cfg.session.channel, cfg.userId)| > 1)
      || exists k :: 0 <= k < |entries| && Foreign(cfg, s.rows, entries[k].externalId, SessionThread(cfg, s)))
  }

  lemma TargetExact(cfg: Config, st: State, s: Store, entries: seq<Entry>)
    requires Intact(cfg, st, s) && !Refused(cfg, s, entries)
    ensures var (r, target) := TargetThread(cfg, st, entries);
      Intact(cfg, r, s) && target == Ok(if entries == [] then None else SessionThread(cfg, s))
  {
    hide Intact, Invoke, ThreadsFor, Foreign;
    if entries != [] && cfg.session.channel !in cfg.snapshot {
      InvokeIntact(cfg, st, s, FindThread(cfg.session.channel, cfg.userId));
    }
  }

  lemma {:induction false} LookupAllExact(
      cfg: Config, st: State, s: Store, entries: seq<Entry>, target: Option<nat>)
    requires Intact(cfg, st, s)
    requires forall k :: 0 <= k < |entries| ==> !Foreign(cfg, s.rows, entries[k].externalId, target)
    ensures var (r, seen) := LookupAll(cfg, st, entries, target); Intact(cfg, r, s) && seen.Some?
  {
    if entries != [] {
      hide Intact, Invoke;
      var n := |entries| - 1;
      LookupAllExact(cfg, st, s, entries[..n], target);
      InvokeIntact(cfg, LookupAll(cfg, st, entries[..n], target).0, s, FindMemory(entries[n].externalId));
      assert !Foreign(cfg, s.rows, entries[n].externalId, target);
    } else {
      hide Intact;
    }
  }

  /** A refused preflight ends the run before its first write. */
  lemma RefusedWritesNothing(cfg: Config, w: World, items: seq<StreamItem>, filtered: nat)
    requires IsOpenCode(cfg) && Live(cfg) && w.fates == []
    requires Refused(cfg, w.store, NamespaceEntries(cfg, EntriesOf(items)))
    ensures ReadsOnly(RunStreaming(cfg, w, items, filtered).log)
  {
    hide Preflight, StreamFrom, Live, Foreign, SessionThread, ThreadsFor, NamespaceEntries, ReadsOnly;
    var st := Start(cfg, w, filtered);
    PreflightPartitions(cfg, st, items);
    PreflightReads(cfg, st, items) by { assert st.log == []; NoLog(st.log); }
    if cfg.session.channel !in cfg.snapshot && |ThreadsFor(w.store.threads, cfg.session.channel, cfg.userId)| > 1 {
      AmbiguousPreflight(cfg, st, items);
    }
  }

  lemma NoLog(log: seq<Exchange>)
    requires log == []
    ensures ReadsOnly(log)
  {
  }

  lemma AmbiguousPreflight(cfg: Config, st: State, items: seq<StreamItem>)
    requires Live(cfg) && Honest(st.world) && EntriesOf(items) != []
    requires cfg.session.channel !in cfg.snapshot
    requires |ThreadsFor(st.world.store.threads, cfg.session.channel, cfg.userId)| > 1
    ensures Preflight(cfg, st, items).1.Err?
  {
    hide Invoke, LookupAll, DuplicatesIn, ThreadsFor, Live, Honest;
    InvokeIdle(cfg, st, FindThread(cfg.session.channel, cfg.userId));
  }

  /** Otherwise it succeeds, and the store is as it was. */
  lemma PreflightExact(cfg: Config, st: State, s: Store, items: seq<StreamItem>)
    requires Intact(cfg, st, s) && !Refused(cfg, s, NamespaceEntries(cfg, EntriesOf(items)))
    ensures var (r, p) := Preflight(cfg, st, items); Intact(cfg, r, s) && p.Ok?
  {
    hide Intact, TargetThread, LookupAll, DuplicatesIn, SessionThread, ThreadsFor, Foreign, NamespaceEntries;
    var entries := NamespaceEntries(cfg, EntriesOf(items));
    TargetExact(cfg, st, s, entries);
    var (asked, target) := TargetThread(cfg, st, entries);
    LookupAllExact(cfg, asked, s, entries, target.value);
  }

  lemma UntouchedIsInOrder(log: seq<Exchange>)
    requires ReadsOnly(log)
    ensures RecordedFirst(log)
  {
  }

  /**
   Where the promise holds, as far as session and store decide it: the session can
   be recorded, or group writes are off, or the preflight refuses, or there is no
   duplicate, or nothing is labelled and the first duplicate whose parent lookups
   do not come out empty ends in an error.
   */
  ghost predicate KeepsPromise(cfg: Config, s: Store, entries: seq<Entry>) {
    || Recordable(cfg)
    || !cfg.writesEnabled
    || Refused(cfg, s, entries)
    || Present(s.rows, entries) == []
    || ( && BuildLabels(cfg.session, cfg.extraLabels) == []
         && (SessionThread(cfg, s).Some? ==>
             !SomeLink(cfg, s.rows, Present(s.rows, entries), SessionThread(cfg, s).value)))
  }

  /**
   On a network that loses nothing, for every session with nothing new to import:
   labels and links wait for a successful record exactly where `KeepsPromise` says.
   */
  lemma RecordedFirstExactly(cfg: Config, w: World, items: seq<StreamItem>, filtered: nat)
    requires IsOpenCode(cfg) && Live(cfg) && w.fates == []
    requires forall e :: e in Absent(w.store.rows, NamespaceEntries(cfg, EntriesOf(items))) ==>
      !IsEntryImportable(e, cfg.since)
    ensures RecordedFirst(RunStreaming(cfg, w, items, filtered).log)
       <==> KeepsPromise(cfg, w.store, NamespaceEntries(cfg, EntriesOf(items)))
  {
    hide RunStreaming, RecordedFirst, IsOpenCode, Live, Refused, Present, Absent, NamespaceEntries, Recordable,
      BuildLabels, SessionThread, SomeLink, ReadsOnly, Preflight;
    var entries, st := NamespaceEntries(cfg, EntriesOf(items)), Start(cfg, w, filtered);
    var log := RunStreaming(cfg, w, items, filtered).log;
    if Refused(cfg, w.store, entries) {
      RefusedWritesNothing(cfg, w, items, filtered);
      UntouchedIsInOrder(log);
    } else {
      StartIntact(cfg, w, filtered);
      PreflightExact(cfg, st, w.store, items);
      PreflightPartitions(cfg, st, items);
      var p := Preflight(cfg, st, items).1.value;
      DuplicateOnlyOrder(cfg, w, items, filtered, p);
      if !Recordable(cfg) && cfg.writesEnabled && p.duplicates != []
         && BuildLabels(cfg.session, cfg.extraLabels) == []
      {
        UnlabelledExact(cfg, w, items, filtered, p);
      }
    }
  }

  lemma StartIntact(cfg: Config, w: World, filtered: nat)
    requires Live(cfg) && w.fates == []
    ensures Intact(cfg, Start(cfg, w, filtered), w.store) && Honest(w)
  {
  }

  lemma UnlabelledExact(cfg: Config, w: World, items: seq<StreamItem>, filtered: nat, p: Preflighted)
    requires IsOpenCode(cfg) && Live(cfg) && w.fates == []
    requires Preflight(cfg, Start(cfg, w, filtered), items).1 == Ok(p)
    requires !Refused(cfg, w.store, NamespaceEntries(cfg, EntriesOf(items)))
    requires forall k :: 0 <= k < |p.newEntries| ==> !IsEntryImportable(p.newEntries[k], cfg.since)
    requires !Recordable(cfg) && cfg.writesEnabled && BuildLabels(cfg.session, cfg.extraLabels) == []
    requires p.duplicates != []
    ensures SessionThread(cfg, w.store).Some?
    ensures TouchesThread(RunStreaming(cfg, w, items, filtered).log)
       <==> SomeLink(cfg, w.store.rows, Present(w.store.rows, NamespaceEntries(cfg, EntriesOf(items))),
                     SessionThread(cfg, w.store).value)
  {
    hide RunStreaming, IsOpenCode, Live, Refused, Absent, NamespaceEntries, Recordable, BuildLabels,
      SessionThread, SomeLink, Preflight, Close, TouchesThread, Unrecorded, Intact;
    var entries, st := NamespaceEntries(cfg, EntriesOf(items)), Start(cfg, w, filtered);
    StartIntact(cfg, w, filtered);
    PreflightExact(cfg, st, w.store, items);
    PreflightPartitions(cfg, st, items);
    RunIsClose(cfg, w, items, filtered, p);
    var arrived := Arrived(cfg, w, items, filtered, p);
    assert entries != [] by { assert Present(w.store.rows, []) == []; }
    SameIntact(cfg, Preflight(cfg, st, items).0, arrived, w.store);
    CloseExact(cfg, arrived, w.store, p.duplicates);
  }

  // Over any client.

  lemma {:induction false} DuplicatesAreEntries(entries: seq<Entry>, existing: map<string, ExistingMemory>)
    ensures forall d :: d in DuplicatesIn(entries, existing) ==> d.entry in entries
  {
    if entries != [] {
      DuplicatesAreEntries(entries[..|entries| - 1], existing);
    }
  }

  lemma PreflightDuplicates(cfg: Config, st: State, items: seq<StreamItem>, p: Preflighted)
    requires Preflight(cfg, st, items).1 == Ok(p)
    requires forall e :: e in EntriesOf(items) ==> e.parentExternalIds == []
    ensures forall d :: d in p.duplicates ==> !Rewritable(d)
  {
    hide LookupAll, TargetThread, EntriesOf;
    var entries := NamespaceEntries(cfg, EntriesOf(items));
    var (asked, target) := TargetThread(cfg, st, entries);
    var seen := LookupAll(cfg, asked, entries, target.value).1;
    DuplicatesAreEntries(entries, seen.value.existing);
    forall e | e in entries ensures e.parentExternalIds == [] {
      var k :| 0 <= k < |entries| && entries[k] == e;
      assert EntriesOf(items)[k] in EntriesOf(items);
      assert e == Namespaced(cfg, EntriesOf(items)[k]);
    }
  }

  lemma {:induction false} NothingRewritten(cfg: Config, st: State, ds: seq<Duplicate>, id: nat)
    requires !Stopped(st.result) && forall d :: d in ds ==> !Rewritable(d)
    ensures RewireDuplicates(cfg, st, ds, id) == st
    decreases |ds|
  {
    if ds != [] {
      hide Rewritable, ParentLookups;
      assert ds[0] in ds && forall d :: d in ds[1..] ==> d in ds;
      NothingRewritten(cfg, st, ds[1..], id);
    }
  }

  /** What the session alone guarantees, whatever it talks to. */
  ghost predicate SafeSession(cfg: Config, items: seq<StreamItem>) {
    || Recordable(cfg)
    || !cfg.writesEnabled
    || ( && BuildLabels(cfg.session, cfg.extraLabels) == []
         && forall e :: e in EntriesOf(items) ==> e.parentExternalIds == [])
  }

  /** Such a session's labels and links wait for the record, over any client, with nothing new to import. */
  lemma RecordedFirstAnyClient(cfg: Config, w: World, items: seq<StreamItem>, filtered: nat)
    requires IsOpenCode(cfg) && SafeSession(cfg, items)
    requires var found := Preflight(cfg, Start(cfg, w, filtered), items).1;
      found.Ok? ==> forall e :: e in found.value.newEntries ==> !IsEntryImportable(e, cfg.since)
    ensures RecordedFirst(RunStreaming(cfg, w, items, filtered).log)
  {
    hide RunStreaming, RecordedFirst, IsOpenCode, Recordable, BuildLabels, ReadsOnly, Preflight, TouchesThread,
         EntriesOf, Arrived;
    var st := Start(cfg, w, filtered);
    var found := Preflight(cfg, st, items).1;
    if found.Err? {
      PreflightReads(cfg, st, items) by { NoLog(st.log); }
      FailedRun(cfg, w, items, filtered);
      UntouchedIsInOrder(RunStreaming(cfg, w, items, filtered).log);
    } else {
      DuplicateOnlyOrder(cfg, w, items, filtered, found.value);
      if !Recordable(cfg) && cfg.writesEnabled {
        PreflightDuplicates(cfg, st, items, found.value);
        RunIsClose(cfg, w, items, filtered, found.value);
        CloseUntouched(cfg, Arrived(cfg, w, items, filtered, found.value), found.value.duplicates);
      }
    }
  }

  lemma FailedRun(cfg: Config, w: World, items: seq<StreamItem>, filtered: nat)
    requires IsOpenCode(cfg) && Preflight(cfg, Start(cfg, w, filtered), items).1.Err?
    ensures RunStreaming(cfg, w, items, filtered).log == Preflight(cfg, Start(cfg, w, filtered), items).0.log
  {
    hide Preflight, StreamFrom;
  }

  lemma CloseUntouched(cfg: Config, st: State, ds: seq<Duplicate>)
    requires OnlyFound(st) && !Recordable(cfg) && BuildLabels(cfg.session, cfg.extraLabels) == []
    requires forall d :: d in ds ==> !Rewritable(d)
    ensures !TouchesThread(Close(cfg, st, [], ds).log)
  {
    hide BuildLabels, RewireDuplicates, TouchesThread, Unrecorded, Rewritable;
    if st.current.Some? {
      NothingRewritten(cfg, st, ds, st.current.value);
    }
  }

  /** The OpenCode adapter's own sessions carry an identity of known scope: they always wait. */
  lemma NamedSessionsWait(cfg: Config, w: World, items: seq<StreamItem>, filtered: nat)
    requires IsOpenCode(cfg)
    requires cfg.session.sourceIdentity.Some? && cfg.session.sourceIdentity.value.identityScope.Known?
    requires var found := Preflight(cfg, Start(cfg, w, filtered), items).1;
      found.Ok? ==> forall e :: e in found.value.newEntries ==> !IsEntryImportable(e, cfg.since)
    ensures RecordedFirst(RunStreaming(cfg, w, items, filtered).log)
  {
    hide RunStreaming, RecordedFirst, Preflight;
    RecordedFirstAnyClient(cfg, w, items, filtered);
  }
}
