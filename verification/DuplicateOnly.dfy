/**
 The tail of an OpenCode run that found nothing new. The source promises that the
 observations are recorded before any label or parent link is written. It keeps
 the promise for sessions it can record; the others it labels and links at once.
 */
module DuplicateOnly {
  import opened Wrappers
  import opened JsonTree
  import opened Retry
  import opened Canonical
  import opened Batching
  import opened Store
  import opened Network
  import opened ImportRun
  import opened Refinement
  import Protocol
  import Rewire

  predicate Touches(request: Request) {
    request.AddLabels? || request.UpdateMemoryParents?
  }

  /** Every label or link request comes after an observation record that succeeded. */
  ghost predicate RecordedFirst(log: seq<Exchange>) {
    forall k :: 0 <= k < |log| && Touches(log[k].request) ==>
      exists j :: 0 <= j < k && log[j].request.RecordObservations? && log[j].reply.Ok?
  }

  ghost predicate TouchesThread(log: seq<Exchange>) {
    exists k :: 0 <= k < |log| && Touches(log[k].request)
  }

  ghost predicate Unrecorded(log: seq<Exchange>) {
    forall k :: 0 <= k < |log| ==> !log[k].request.RecordObservations?
  }

  /** What follows the record only adds to the log, and records nothing. */
  ghost predicate Follows(a: State, b: State) {
    a.log <= b.log && (Unrecorded(a.log) ==> Unrecorded(b.log))
  }

  lemma FollowsJoins(a: State, b: State, c: State)
    requires Follows(a, b) && Follows(b, c)
    ensures Follows(a, c)
  {
  }

  lemma InvokeFollows(cfg: Config, st: State, request: Request)
    requires !request.RecordObservations?
    ensures Follows(st, Invoke(cfg, st, request).0)
  {
  }

  lemma {:induction false} ParentLookupsFollow(cfg: Config, st: State, parents: seq<string>, id: nat)
    ensures Follows(st, ParentLookups(cfg, st, parents, id).0)
  {
    if parents != [] {
      hide Follows, Invoke, CheckParent;
      var n := |parents| - 1;
      var before := ParentLookups(cfg, st, parents[..n], id).0;
      ParentLookupsFollow(cfg, st, parents[..n], id);
      InvokeFollows(cfg, before, FindMemory(parents[n]));
      FollowsJoins(st, before, Invoke(cfg, before, FindMemory(parents[n])).0);
    }
  }

  lemma SameLogFollows(a: State, b: State, c: State)
    requires (Follows(a, b) || a == b) && b.log == c.log
    ensures Follows(a, c)
  {
  }

  lemma RewireOneFollows(cfg: Config, st: State, d: Duplicate, id: nat)
    ensures Follows(st, RewireOne(cfg, st, d, id))
  {
    hide Follows, Invoke, ParentLookups;
    SameLogFollows(st, st, st);
    if Rewritable(d) {
      var (asked, found) := ParentLookups(cfg, st, d.entry.parentExternalIds, id);
      ParentLookupsFollow(cfg, st, d.entry.parentExternalIds, id);
      if found.Ok? && found.value != [] {
        var request := UpdateMemoryParents(id, d.existing.memoryId, found.value);
        InvokeFollows(cfg, asked, request);
        FollowsJoins(st, asked, Invoke(cfg, asked, request).0);
        SameLogFollows(st, Invoke(cfg, asked, request).0, RewireOne(cfg, st, d, id));
      } else {
        SameLogFollows(st, asked, RewireOne(cfg, st, d, id));
      }
    }
  }

  lemma {:induction false} RewireDuplicatesFollow(cfg: Config, st: State, duplicates: seq<Duplicate>, id: nat)
    ensures Follows(st, RewireDuplicates(cfg, st, duplicates, id))
    decreases |duplicates|
  {
    hide Follows, RewireOne;
    if duplicates == [] {
      SameLogFollows(st, st, st);
    } else {
      var next := RewireOne(cfg, st, duplicates[0], id);
      RewireOneFollows(cfg, st, duplicates[0], id);
      RewireDuplicatesFollow(cfg, next, duplicates[1..], id);
      FollowsJoins(st, next, RewireDuplicates(cfg, next, duplicates[1..], id));
    }
  }

  /** Labels, if there are any, are the first thing the tail sends after the record. */
  lemma ApplyLabelsFollows(cfg: Config, st: State, id: nat)
    ensures var r := ApplyOpenCodeLabels(cfg, st, id);
      Follows(st, r) && (BuildLabels(cfg.session, cfg.extraLabels) != [] ==> TouchesThread(r.log))
  {
    hide BuildLabels, Invoke, Follows;
    var request := AddLabels(id, BuildLabels(cfg.session, cfg.extraLabels));
    SameLogFollows(st, st, st);
    InvokeFollows(cfg, st, request);
    var sent := Invoke(cfg, st, request).0;
    SameLogFollows(st, sent, Failed(sent, LabelsFailed));
    assert Touches(sent.log[|st.log|].request);
  }

  lemma TouchStays(a: State, b: State)
    requires Follows(a, b) && TouchesThread(a.log)
    ensures TouchesThread(b.log)
  {
    var k :| 0 <= k < |a.log| && Touches(a.log[k].request);
    assert b.log[k] == a.log[k];
  }

  /** Labels and links, in that order, once the record is settled. */
  ghost function Tail(cfg: Config, st: State, duplicates: seq<Duplicate>, id: nat): State {
    var labelled := ApplyOpenCodeLabels(cfg, st, id);
    if Stopped(labelled.result) then labelled else RewireDuplicates(cfg, labelled, duplicates, id)
  }

  lemma TailFollows(cfg: Config, st: State, duplicates: seq<Duplicate>, id: nat)
    ensures var r := Tail(cfg, st, duplicates, id);
      Follows(st, r) && (BuildLabels(cfg.session, cfg.extraLabels) != [] ==> TouchesThread(r.log))
  {
    hide Follows, TouchesThread, BuildLabels, ApplyOpenCodeLabels, RewireDuplicates;
    var labelled := ApplyOpenCodeLabels(cfg, st, id);
    ApplyLabelsFollows(cfg, st, id);
    if !Stopped(labelled.result) {
      RewireDuplicatesFollow(cfg, labelled, duplicates, id);
      FollowsJoins(st, labelled, Tail(cfg, st, duplicates, id));
      if TouchesThread(labelled.log) {
        TouchStays(labelled, Tail(cfg, st, duplicates, id));
      }
    }
  }

  /** The run so far read only, and knows a thread if it found a duplicate. */
  ghost predicate OnlyFound(st: State) {
    && !Stopped(st.result) && st.current == st.result.threadId
    && Unrecorded(st.log) && !TouchesThread(st.log)
    && (st.result.duplicate > 0 ==> st.current.Some?)
  }

  ghost predicate RightOrder(cfg: Config, log: seq<Exchange>) {
    RecordedFirst(log) <==> Recordable(cfg) || !TouchesThread(log)
  }

  lemma RecordThenTail(before: seq<Exchange>, log: seq<Exchange>)
    requires !TouchesThread(before) && |before| < |log| && before <= log
    requires log[|before|].request.RecordObservations? && log[|before|].reply.Ok?
    ensures RecordedFirst(log)
  {
    forall k | 0 <= k < |before| ensures !Touches(log[k].request) {
      assert before[k] == log[k];
    }
  }

  lemma NeverRecorded(log: seq<Exchange>)
    ensures !TouchesThread(log) ==> RecordedFirst(log)
    ensures Unrecorded(log) && RecordedFirst(log) ==> !TouchesThread(log)
  {
  }

  lemma RecordTouchesNothing(log: seq<Exchange>, x: Exchange)
    requires !TouchesThread(log) && !Touches(x.request)
    ensures !TouchesThread(log + [x])
  {
  }

  lemma FinalizeTouchesNothing(cfg: Config, st: State)
    requires !TouchesThread(st.log)
    ensures !TouchesThread(Finalize(cfg, st).log)
  {
    hide Invoke, TouchesThread;
    if Recordable(cfg) && st.result.threadId.Some? {
      var request := RecordObservations(
        st.result.threadId.value, Endpoint(CanonicalSourceIdentity(cfg.session).value, cfg.userId));
      RecordTouchesNothing(st.log, Exchange(request, Invoke(cfg, st, request).1));
    }
  }

  /** The end of a run whose builder is empty. */
  lemma CloseInOrder(cfg: Config, st: State, duplicates: seq<Duplicate>)
    requires IsOpenCode(cfg) && OnlyFound(st)
    ensures var r := Close(cfg, st, [], duplicates);
      && RightOrder(cfg, r.log)
      && (!Recordable(cfg) && cfg.writesEnabled && st.result.duplicate > 0
            && BuildLabels(cfg.session, cfg.extraLabels) != []
          ==> TouchesThread(r.log))
      && (!cfg.writesEnabled || st.result.duplicate == 0 ==> !TouchesThread(r.log))
  {
    hide BuildLabels, IsOpenCode, Invoke, TouchesThread, RecordedFirst, Unrecorded, ApplyOpenCodeLabels,
         RewireDuplicates;
    var r := Close(cfg, st, [], duplicates);
    FinalizeTouchesNothing(cfg, st);
    if st.current.None? || st.result.duplicate == 0 || !cfg.writesEnabled {
      NeverRecorded(r.log);
    } else {
      var recorded, id := Finalize(cfg, st), st.current.value;
      TailFollows(cfg, recorded, duplicates, id);
      if !Recordable(cfg) {
        NeverRecorded(r.log);
      } else {
        var request := RecordObservations(id, Endpoint(CanonicalSourceIdentity(cfg.session).value, cfg.userId));
        if Invoke(cfg, st, request).1.Ok? {
          assert recorded.log[|st.log|] == r.log[|st.log|];
          RecordThenTail(st.log, r.log);
        } else {
          NeverRecorded(r.log);
        }
      }
    }
  }

  /** A stream nothing of which is importable goes straight to its end. */
  lemma {:induction false} StreamOfDuplicates(
      cfg: Config, st: State, items: seq<StreamItem>, duplicates: seq<Duplicate>)
    requires ToSend(cfg, items) == []
    ensures StreamFrom(cfg, st, items, [], duplicates)
         == Close(cfg, st.(result := st.result.(filtered := st.result.filtered + |items|)), [], duplicates)
    decreases |items|
  {
    hide Prepare, Flush, Overflows, Measure, SentOf, Close;
    if items == [] {
      StreamEnd(cfg, st, [], duplicates);
    } else {
      ToSendFront(cfg, items);
      StreamStep(cfg, st, items, [], duplicates);
      StreamOfDuplicates(cfg, CountFiltered(st), items[1..], duplicates);
    }
  }

  ghost predicate Found(log: seq<Exchange>) {
    Unrecorded(log) && !TouchesThread(log)
  }

  lemma FoundMore(log: seq<Exchange>, x: Exchange)
    requires Found(log) && !x.request.RecordObservations? && !Touches(x.request)
    ensures Found(log + [x])
  {
  }

  lemma {:induction false} LookupAllFinds(cfg: Config, st: State, entries: seq<Entry>, target: Option<nat>)
    requires Found(st.log)
    ensures var (r, seen) := LookupAll(cfg, st, entries, target);
      && Found(r.log)
      && (seen.Some? && target.None? ==> |seen.value.newEntries| == |entries|)
  {
    if entries != [] {
      hide Found, Invoke;
      var n := |entries| - 1;
      LookupAllFinds(cfg, st, entries[..n], target);
      var before := LookupAll(cfg, st, entries[..n], target).0;
      var request := FindMemory(entries[n].externalId);
      FoundMore(before.log, Exchange(request, Invoke(cfg, before, request).1));
    }
  }

  lemma PreflightFinds(cfg: Config, w: World, items: seq<StreamItem>, filtered: nat)
    ensures var (asked, found) := Preflight(cfg, Start(cfg, w, filtered), items);
      found.Ok? && asked.result == Start(cfg, w, filtered).result ==> OnlyFound(AfterPreflight(asked, found.value))
  {
    hide LookupAll, DuplicatesIn, Invoke, NamespaceEntries;
    var st, entries := Start(cfg, w, filtered), NamespaceEntries(cfg, EntriesOf(items));
    var (asked, target) := TargetThread(cfg, st, entries);
    var request := FindThread(cfg.session.channel, cfg.userId);
    assert Found(st.log);
    FoundMore(st.log, Exchange(request, Invoke(cfg, st, request).1));
    if target.Ok? {
      LookupAllFinds(cfg, asked, entries, target.value);
    }
  }

  /** The run once its preflight and its stream are through, with nothing to send. */
  ghost function Arrived(cfg: Config, w: World, items: seq<StreamItem>, filtered: nat, p: Preflighted): State {
    var st := AfterPreflight(Preflight(cfg, Start(cfg, w, filtered), items).0, p);
    st.(result := st.result.(filtered := st.result.filtered + |p.newEntries|))
  }

  lemma RunIsClose(cfg: Config, w: World, items: seq<StreamItem>, filtered: nat, p: Preflighted)
    requires IsOpenCode(cfg)
    requires Preflight(cfg, Start(cfg, w, filtered), items).1 == Ok(p)
    requires forall k :: 0 <= k < |p.newEntries| ==> !IsEntryImportable(p.newEntries[k], cfg.since)
    ensures var st := Arrived(cfg, w, items, filtered, p);
      && RunStreaming(cfg, w, items, filtered) == Close(cfg, st, [], p.duplicates)
      && OnlyFound(st) && st.result.duplicate == p.duplicateCount
  {
    hide Preflight, StreamFrom, Close, TouchesThread, IsOpenCode, Unrecorded, ToSend, RunStreaming, Protocol.BatchesOf;
    RunIsStream(cfg, w, items, filtered, p);
    Protocol.PreflightQuiet(cfg, Start(cfg, w, filtered), items);
    PreflightFinds(cfg, w, items, filtered);
    NothingImportable(cfg, p.newEntries);
    StreamOfDuplicates(cfg, AfterPreflight(Preflight(cfg, Start(cfg, w, filtered), items).0, p),
                       EntryItems(p.newEntries), p.duplicates);
  }

  /**
   In a run that found nothing new to send, over any client: labels and links wait
   for a successful record if the session can be recorded, and if it cannot, only
   where nothing is labelled or linked; with labels and a duplicate, never.
   */
  lemma DuplicateOnlyOrder(cfg: Config, w: World, items: seq<StreamItem>, filtered: nat, p: Preflighted)
    requires IsOpenCode(cfg)
    requires Preflight(cfg, Start(cfg, w, filtered), items).1 == Ok(p)
    requires forall k :: 0 <= k < |p.newEntries| ==> !IsEntryImportable(p.newEntries[k], cfg.since)
    ensures var log := RunStreaming(cfg, w, items, filtered).log;
      && (RecordedFirst(log) <==> Recordable(cfg) || !TouchesThread(log))
      && (!cfg.writesEnabled || p.duplicateCount == 0 ==> !TouchesThread(log))
      && (cfg.writesEnabled && p.duplicateCount > 0 && BuildLabels(cfg.session, cfg.extraLabels) != []
          ==> (RecordedFirst(log) <==> Recordable(cfg)))
  {
    hide Preflight, Close, RecordedFirst, TouchesThread, Recordable, BuildLabels, IsOpenCode, OnlyFound, RunStreaming,
         Arrived;
    RunIsClose(cfg, w, items, filtered, p);
    CloseInOrder(cfg, Arrived(cfg, w, items, filtered, p), p.duplicates);
  }

  lemma {:induction false} NothingImportable(cfg: Config, entries: seq<Entry>)
    requires forall k :: 0 <= k < |entries| ==> !IsEntryImportable(entries[k], cfg.since)
    ensures ToSend(cfg, EntryItems(entries)) == []
  {
    if entries == [] {
      assert EntryItems(entries) == [];
    } else {
      hide ToSend, SentOf, IsEntryImportable, EntryItems;
      var n := |entries| - 1;
      NothingImportable(cfg, entries[..n]);
      NotSent(cfg, entries[n]);
      ItemsSnoc(entries);
      ToSendSnoc(cfg, EntryItems(entries));
    }
  }

  lemma ItemsSnoc(entries: seq<Entry>)
    requires entries != []
    ensures var n := |entries| - 1;
      EntryItems(entries)[..n] == EntryItems(entries[..n]) && EntryItems(entries)[n] == EntryItem(entries[n])
  {
  }

  lemma ToSendSnoc(cfg: Config, items: seq<StreamItem>)
    requires items != []
    ensures ToSend(cfg, items) == ToSend(cfg, items[..|items| - 1]) + SentOf(cfg, items[|items| - 1])
  {
    hide SentOf;
  }

  lemma NotSent(cfg: Config, entry: Entry)
    requires !IsEntryImportable(entry, cfg.since)
    ensures SentOf(cfg, EntryItem(entry)) == []
  {
    hide Prepare, IsEntryImportable;
    PrepareKeepsKey(cfg, entry);
  }

  lemma RunIsStream(cfg: Config, w: World, items: seq<StreamItem>, filtered: nat, p: Preflighted)
    requires IsOpenCode(cfg) && Preflight(cfg, Start(cfg, w, filtered), items).1 == Ok(p)
    ensures RunStreaming(cfg, w, items, filtered)
         == StreamFrom(cfg, AfterPreflight(Preflight(cfg, Start(cfg, w, filtered), items).0, p),
                       EntryItems(p.newEntries), [], p.duplicates)
  {
    hide StreamFrom, Preflight, IsOpenCode, AfterPreflight, Start, EntryItems;
  }

  // An instance. The OpenCode adapter always names its sessions, so the session is
  // one of the plain source, imported under the source name of OpenCode: one file,
  // imported before.

  const FILE := "file:13432f2375977371d353bba0f2f76fa9"

  const NOTE := Session(
    "opencode", FILE, "opencode:" + FILE,
    ["notes", "agent:opencode", "path:/notes", "vault:notes", "dir:."],
    Obj([Field("rel_path", Str("todo.md")), Field("scope", Str("per-file"))]), None, [])

  const NOTE_IMPORT: Config := RawConfig(
    NOTE, 7, None, [], DEFAULT_LIMITS, LiveClient(Policy(1, 0, 0, 0.0)),
    (s: string) => s, (i: Input) => 0, map[], true, false, map["opencode:" + FILE := 0])

  const ONLY_ENTRY := Entry(
    "opencode:" + FILE + ":13432f2375977371:8f434346648f6b96", [], 1, 0, "hi",
    [Field("mtime_ms", Num(5)), Field("path", Str("todo.md")), Field("size_bytes", Num(2))],
    5, 0, "user", Addons(None, None, None))

  /** The store after the first import: one row, in thread 0. */
  ghost function ImportedBefore(): Store {
    var entry := Namespaced(NOTE_IMPORT, ONLY_ENTRY);
    var data := InputOf(NOTE_IMPORT, entry).memory;
    Store(map[entry.externalId := Row(data, data.content, [], {0})],
          [Thread(7, NOTE.channel, {}, [entry.externalId])], {})
  }

  lemma InstanceIsLabelled()
    ensures BuildLabels(NOTE, []) != [] && IsOpenCode(NOTE_IMPORT) && !Recordable(NOTE_IMPORT)
  {
    var labels := StripEach(NOTE.sourceLabels);
    assert NUL !in "notes";
    assert labels[0] == "notes";
    assert AddMissing(labels, []) == labels;
  }

  lemma InstanceIsFound(st: State)
    requires st.world.store == ImportedBefore() && st.world.fates == []
    ensures Preflight(NOTE_IMPORT, st, [EntryItem(ONLY_ENTRY)]).1.Ok?
    ensures var p := Preflight(NOTE_IMPORT, st, [EntryItem(ONLY_ENTRY)]).1.value;
      p.newEntries == [] && p.duplicateCount == 1
  {
    hide Namespaced, Invoke, MergedFields, Strip, StripText;
    var cfg, items := NOTE_IMPORT, [EntryItem(ONLY_ENTRY)];
    var entry := Namespaced(cfg, ONLY_ENTRY);
    assert items[..0] == [];
    assert EntriesOf(items) == [ONLY_ENTRY];
    assert NamespaceEntries(cfg, [ONLY_ENTRY]) == [entry];
    Rewire.InvokeDelivered(cfg, Policy(1, 0, 0, 0.0), st, FindMemory(entry.externalId));
    assert [entry][..0] == [];
    assert LookupAll(cfg, st, [], Some(0)) == (st, Some(LookedUp([], map[])));
  }

  /** Its labels are applied although nothing was ever recorded. */
  lemma LabelledUnrecorded(w: World)
    requires w.store == ImportedBefore() && w.fates == []
    ensures !RecordedFirst(RunStreaming(NOTE_IMPORT, w, [EntryItem(ONLY_ENTRY)], 0).log)
  {
    hide Preflight, RunStreaming, RecordedFirst, TouchesThread, Recordable, BuildLabels, IsOpenCode, ImportedBefore;
    InstanceIsLabelled();
    var st := Start(NOTE_IMPORT, w, 0);
    InstanceIsFound(st);
    var p := Preflight(NOTE_IMPORT, st, [EntryItem(ONLY_ENTRY)]).1.value;
    DuplicateOnlyOrder(NOTE_IMPORT, w, [EntryItem(ONLY_ENTRY)], 0, p);
  }
}
