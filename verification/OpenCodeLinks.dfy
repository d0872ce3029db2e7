/**
 The parent links of what an OpenCode session finds already imported: which
 parents the lookups come back with, and what they leave in the rows.
 */
module OpenCodeLinks {
  import opened Wrappers
  import opened Canonical
  import opened Batching
  import opened Store
  import opened Network
  import opened ImportRun
  import opened Refinement
  import opened Rewire
  import opened History
  import opened Path
  import opened OpenCode
  import opened RecordFirst

  // Known references, pinned down: those that are known, in order, each once.

  lemma {:induction false} KnownOnce(known: set<string>, refs: seq<string>)
    ensures forall i, j :: 0 <= i < j < |Known(known, refs)| ==> Known(known, refs)[i] != Known(known, refs)[j]
  {
    if refs != [] {
      KnownOnce(known, refs[..|refs| - 1]);
    }
  }

  /** More references never disturb what the first of them came to. */
  lemma {:induction false} KnownInOrder(known: set<string>, refs: seq<string>, more: seq<string>)
    ensures Known(known, refs) <= Known(known, refs + more)
  {
    if more == [] {
      assert refs + more == refs;
    } else {
      var n := |more| - 1;
      KnownInOrder(known, refs, more[..n]);
      assert (refs + more)[..|refs + more| - 1] == refs + more[..n];
    }
  }

  // The lookups.

  /** What one row that is no other user's adds to the parents found. */
  lemma OneParent(cfg: Config, s: Store, p: string, id: nat, ids: seq<string>)
    requires p in s.rows ==> s.rows[p].first.userId == cfg.userId
    ensures Serve(s, FindMemory(p)) == (s, Ok(MemoryFound(Find(s, p))))
    ensures Find(s, p).Some? <==> p in s.rows
    ensures p in s.rows ==>
      (CheckParent(cfg, Find(s, p).value, p, id, ids)
       == Ok(if p in Attached(s.rows, id) && p !in ids then ids + [p] else ids))
  {
  }

  lemma NoClash(cfg: Config, rows: map<string, Row>, parents: seq<string>)
    requires parents != [] && !ParentClash(cfg, rows, parents)
    ensures var n := |parents| - 1;
      && !ParentClash(cfg, rows, parents[..n])
      && (parents[n] in rows ==> rows[parents[n]].first.userId == cfg.userId)
  {
    assert parents == parents[..|parents| - 1] + [parents[|parents| - 1]];
  }

  /** The references in the session's thread, in order, each once. */
  lemma {:induction false} ParentLookupsFind(cfg: Config, st: State, s: Store, parents: seq<string>, id: nat)
    requires Intact(cfg, st, s) && !ParentClash(cfg, s.rows, parents)
    ensures ParentLookups(cfg, st, parents, id).1 == Ok(Known(Attached(s.rows, id), parents))
  {
    if parents != [] {
      hide Intact, Invoke, ParentClash, ParentThere, Known, Attached, CheckParent, Find, Serve;
      var n := |parents| - 1;
      var before := ParentLookups(cfg, st, parents[..n], id).0;
      NoClash(cfg, s.rows, parents);
      ParentLookupsExact(cfg, st, s, parents[..n], id);
      ParentLookupsFind(cfg, st, s, parents[..n], id);
      OneParent(cfg, s, parents[n], id, Known(Attached(s.rows, id), parents[..n]));
      InvokeIntact(cfg, before, s, FindMemory(parents[n]));
      KnownSnoc(Attached(s.rows, id), parents);
      AttachedHasRows(s, id);
    }
  }

  lemma AttachedHasRows(s: Store, id: nat)
    ensures Attached(s.rows, id) <= s.rows.Keys
  {
  }

  lemma KnownSnoc(known: set<string>, refs: seq<string>)
    requires refs != []
    ensures var n := |refs| - 1;
      Known(known, refs) == if refs[n] in known && refs[n] !in Known(known, refs[..n])
        then Known(known, refs[..n]) + [refs[n]] else Known(known, refs[..n])
  {
  }

  // One duplicate.

  /** The duplicate is a row of the session's thread. */
  ghost predicate InSession(s: Store, d: Duplicate, id: nat) {
    d.existing.memoryId == d.entry.externalId && InThread(s, id, d.entry.externalId)
  }

  /** One duplicate's turn fills its own row, with the references in the thread, and no other. */
  lemma RewireOneLinks(cfg: Config, st: State, s: Store, d: Duplicate, id: nat)
    requires Intact(cfg, st, s) && !Stopped(st.result) && id < |s.threads| && InSession(s, d, id)
    ensures var r, e := RewireOne(cfg, st, d, id), d.entry.externalId;
      var linked := Known(Attached(s.rows, id), d.entry.parentExternalIds);
      && Intact(cfg, r, r.world.store)
      && ParentsAside(s, r.world.store)
      && (forall f :: f in s.rows && f != e ==> r.world.store.rows[f] == s.rows[f])
      && (!Stopped(r.result) && Rewritable(d) && Rewirable(s.rows, e) ==>
          r.world.store.rows[e].parents == linked)
  {
    hide Invoke, ParentLookups, ParentClash, ParentThere, Known, Attached;
    AsideSelf(s);
    if Rewritable(d) {
      var parents := d.entry.parentExternalIds;
      ParentLookupsExact(cfg, st, s, parents, id);
      var (asked, found) := ParentLookups(cfg, st, parents, id);
      if found.Ok? {
        ParentLookupsFind(cfg, st, s, parents, id);
        if found.value != [] {
          UpdateLinks(cfg, asked, s, id, d.existing.memoryId, found.value);
        }
      }
    }
  }

  /** The update a duplicate leads to, delivered. */
  lemma UpdateLinks(cfg: Config, st: State, s: Store, id: nat, e: string, parents: seq<string>)
    requires Intact(cfg, st, s) && id < |s.threads| && InThread(s, id, e)
    requires parents != [] && forall p :: p in parents ==> p in Attached(s.rows, id)
    ensures var (r, reply) := Invoke(cfg, st, UpdateMemoryParents(id, e, parents));
      && Intact(cfg, r, r.world.store) && reply.Ok?
      && ParentsAside(s, r.world.store)
      && (forall f :: f in s.rows && f != e ==> r.world.store.rows[f] == s.rows[f])
      && (Rewirable(s.rows, e) ==> r.world.store.rows[e].parents == parents)
  {
    hide Serve, Rpc;
    var job := UpdateMemoryParents(id, e, parents);
    assert JobReady(s, id, job) by {
      assert forall p :: p in Attached(s.rows, id) ==> InThread(s, id, p);
    }
    JobEffect(s, id, job);
    var policy :| cfg.client == LiveClient(policy);
    InvokeDelivered(cfg, policy, st, job);
  }

  // All of them.

  lemma AsideAttached(a: Store, b: Store, id: nat)
    requires ParentsAside(a, b)
    ensures Attached(b.rows, id) == Attached(a.rows, id) && |b.threads| == |a.threads|
  {
  }

  lemma AsideInSession(a: Store, b: Store, d: Duplicate, id: nat)
    requires ParentsAside(a, b) && InSession(a, d, id)
    ensures InSession(b, d, id)
  {
  }

  /** No duplicate but the `k`th is for its row. */
  ghost predicate Alone(ds: seq<Duplicate>, k: nat)
    requires k < |ds|
  {
    forall j :: 0 <= j < |ds| && j != k ==> ds[j].entry.externalId != ds[k].entry.externalId
  }

  lemma AloneFurther(ds: seq<Duplicate>, k: nat)
    requires 0 < k < |ds| && Alone(ds, k)
    ensures Alone(ds[1..], k - 1) && ds[1..][k - 1] == ds[k] && ds[0].entry.externalId != ds[k].entry.externalId
  {
  }

  /** The duplicates' pass fills their own rows and no other. */
  lemma {:induction false} RewireDuplicatesAside(cfg: Config, st: State, s: Store, ds: seq<Duplicate>, id: nat)
    requires Intact(cfg, st, s) && !Stopped(st.result) && id < |s.threads|
    requires forall k :: 0 <= k < |ds| ==> InSession(s, ds[k], id)
    ensures var r := RewireDuplicates(cfg, st, ds, id);
      && ParentsAside(s, r.world.store)
      && (forall e :: e in s.rows && (forall k :: 0 <= k < |ds| ==> ds[k].entry.externalId != e) ==>
           r.world.store.rows[e] == s.rows[e])
    decreases |ds|
  {
    hide RewireOne, InSession, ParentsAside;
    AsideSelf(s);
    if ds != [] {
      hide Intact;
      var next := RewireOne(cfg, st, ds[0], id);
      var s' := next.world.store;
      RewireOneLinks(cfg, st, s, ds[0], id);
      AsideRows(s, s');
      if !Stopped(next.result) {
        StillInSession(s, s', ds, id);
        RewireDuplicatesAside(cfg, next, s', ds[1..], id);
        AsideJoins(s, s', RewireDuplicates(cfg, next, ds[1..], id).world.store);
        assert forall k :: 0 <= k < |ds[1..]| ==> ds[1..][k] == ds[k + 1];
      }
    }
  }

  lemma StillInSession(s: Store, s': Store, ds: seq<Duplicate>, id: nat)
    requires ParentsAside(s, s') && ds != [] && forall k :: 0 <= k < |ds| ==> InSession(s, ds[k], id)
    ensures forall k :: 0 <= k < |ds[1..]| ==> InSession(s', ds[1..][k], id)
    ensures Attached(s'.rows, id) == Attached(s.rows, id) && |s'.threads| == |s.threads|
  {
    AsideAttached(s, s', id);
    forall k | 0 <= k < |ds[1..]| ensures InSession(s', ds[1..][k], id) {
      AsideInSession(s, s', ds[k + 1], id);
    }
  }

  /** A pass that is not stopped leaves every duplicate's row linked to all its references in the thread. */
  lemma {:induction false} RewireDuplicatesLink(
      cfg: Config, st: State, s: Store, ds: seq<Duplicate>, id: nat, k: nat)
    requires Intact(cfg, st, s) && !Stopped(st.result) && id < |s.threads|
    requires forall k :: 0 <= k < |ds| ==> InSession(s, ds[k], id)
    requires k < |ds| && Alone(ds, k) && Rewritable(ds[k])
    requires ds[k].entry.externalId in s.rows && Rewirable(s.rows, ds[k].entry.externalId)
    ensures var r := RewireDuplicates(cfg, st, ds, id);
      !Stopped(r.result) ==>
        && ds[k].entry.externalId in r.world.store.rows
        && r.world.store.rows[ds[k].entry.externalId].parents
           == Known(Attached(s.rows, id), ds[k].entry.parentExternalIds)
    decreases |ds|
  {
    hide Intact, RewireOne, InSession, ParentsAside, Known, Attached, Rewritable, Alone;
    var next := RewireOne(cfg, st, ds[0], id);
    var s' := next.world.store;
    RewireOneLinks(cfg, st, s, ds[0], id);
    AsideRows(s, s');
    if !Stopped(next.result) {
      StillInSession(s, s', ds, id);
      if k > 0 {
        AloneFurther(ds, k);
        RewireDuplicatesLink(cfg, next, s', ds[1..], id, k - 1);
      } else {
        RewireDuplicatesAside(cfg, next, s', ds[1..], id);
        AsideRows(s', RewireDuplicates(cfg, next, ds[1..], id).world.store);
        AloneFirst(ds);
      }
    }
  }

  lemma AloneFirst(ds: seq<Duplicate>)
    requires ds != [] && Alone(ds, 0)
    ensures forall k :: 0 <= k < |ds[1..]| ==> ds[1..][k].entry.externalId != ds[0].entry.externalId
  {
  }

  lemma AsideRows(a: Store, b: Store)
    requires ParentsAside(a, b)
    ensures b.rows.Keys == a.rows.Keys
  {
  }

  // A whole run.

  /** Every row that was there is as it was, links included. */
  ghost predicate Untouched(s: Store, s': Store) {
    && |s.threads| <= |s'.threads|
    && forall e :: e in s.rows ==> e in s'.rows && s'.rows[e] == s.rows[e]
  }

  lemma {:induction false} AddAllUntouched(
      s: Store, id: nat, attached: set<string>, batch: set<string>, memories: seq<Input>)
    requires id < |s.threads| && forall k :: 0 <= k < |memories| ==> Id(memories[k]) !in s.rows
    ensures Untouched(s, AddAll(s, id, attached, batch, memories))
  {
    if memories != [] {
      hide ParentsOf;
      AddAllUntouched(s, id, attached, batch, memories[..|memories| - 1]);
    }
  }

  lemma InsertUntouched(s: Store, batch: Batch)
    requires !batch.upsertByExternalId
    ensures Untouched(s, AddBatch(s, batch).0)
  {
    hide AddAll, Outcomes, ThreadsFor;
    if !Malformed(batch.memories) && !Suppressed(s, batch) && Admit(s, batch).Ok? {
      var (ready, id, _) := Admit(s, batch).value;
      forall k | 0 <= k < |batch.memories| ensures Id(batch.memories[k]) !in ready.rows {
        assert RowCollision(s.rows, id, false, batch.memories[k]).None?;
      }
      AddAllUntouched(ready, id, Attached(ready.rows, id), Ids(batch.memories), batch.memories);
    }
  }

  /** An answer without rewires leaves the store alone. */
  lemma QuietReceive(cfg: Config, st: State, sent: nat, reply: BatchReply)
    requires !reply.suppressed && reply.threadId.Some? ==> JobsOf(reply.threadId.value, reply.outcomes) == []
    ensures Receive(cfg, st, sent, reply).world.store == st.world.store
  {
    hide JobsOf, CountRewired, CountCreated;
  }

  lemma {:induction false} FlushUntouched(cfg: Config, st: State, chunk: seq<Prepared>, isLast: bool)
    requires Live(cfg) && IsOpenCode(cfg) && st.world.fates == []
    ensures var r := Flush(cfg, st, chunk, isLast);
      r.world.fates == [] && Untouched(st.world.store, r.world.store)
  {
    hide StableSort, BuildLabels, Receive, IsOpenCode, Untouched, AddBatch, JobsOf, Rpc, Replayed, Evolves, ContentKept,
         Delivered;
    var batch := BatchOf(cfg, st.current, InputsOf(StableSort(chunk, PreparedKey)), isLast);
    var s, request := st.world.store, AddMemoriesBatch(batch);
    var policy :| cfg.client == LiveClient(policy);
    RpcLossFree(policy, st.world, request);
    assert Serve(s, request) == AddBatch(s, batch);
    InsertUntouched(s, batch);
    FlushUnfold(cfg, st, chunk, isLast, batch);
    FlushGrows(cfg, st, chunk, isLast);
    var (sent, reply) := Invoke(cfg, st, request);
    if reply.Ok? {
      if !reply.value.reply.suppressed {
        InsertOnlyCreates(s, batch);
      }
      QuietReceive(cfg, sent, |chunk|, reply.value.reply);
    }
  }

  lemma LabelsUntouched(cfg: Config, st: State, id: nat)
    requires Live(cfg) && st.world.fates == []
    ensures var r := ApplyOpenCodeLabels(cfg, st, id);
      && r.world.fates == [] && r.world.store.rows == st.world.store.rows
      && |r.world.store.threads| == |st.world.store.threads|
  {
    hide Rpc, BuildLabels;
    var policy :| cfg.client == LiveClient(policy);
    RpcLossFree(policy, st.world, AddLabels(id, BuildLabels(cfg.session, cfg.extraLabels)));
  }

  lemma FinalizeUntouched(cfg: Config, st: State)
    requires Live(cfg) && st.world.fates == []
    ensures var r := Finalize(cfg, st);
      r.world.fates == [] && r.world.store == st.world.store && r.current == st.current
      && r.result.duplicate == st.result.duplicate
  {
    hide Rpc;
    if Recordable(cfg) && cfg.writesEnabled && !Stopped(st.result) && st.result.threadId.Some? {
      var policy :| cfg.client == LiveClient(policy);
      var subject := Endpoint(CanonicalSourceIdentity(cfg.session).value, cfg.userId);
      RpcLossFree(policy, st.world, RecordObservations(st.result.threadId.value, subject));
    }
  }

  /** The duplicate's row is linked to all its references that are in the thread. */
  ghost predicate FullyLinked(s: Store, d: Duplicate, id: nat) {
    && d.entry.externalId in s.rows
    && s.rows[d.entry.externalId].parents == Known(Attached(s.rows, id), d.entry.parentExternalIds)
  }

  /** The duplicates are rows of thread `id`, as the run met them; the `k`th is to be linked. */
  ghost predicate ToLink(s: Store, ds: seq<Duplicate>, id: nat, k: nat) {
    && id < |s.threads| && k < |ds| && Alone(ds, k) && Rewritable(ds[k])
    && (forall j :: 0 <= j < |ds| ==> InSession(s, ds[j], id))
    && ds[k].entry.externalId in s.rows && Rewirable(s.rows, ds[k].entry.externalId)
  }

  lemma ToLinkStays(s: Store, s': Store, ds: seq<Duplicate>, id: nat, k: nat)
    requires Untouched(s, s') && ToLink(s, ds, id, k)
    ensures ToLink(s', ds, id, k)
  {
    hide Alone, Rewritable;
    forall j | 0 <= j < |ds| ensures InSession(s', ds[j], id) {
      assert InSession(s, ds[j], id);
    }
  }

  lemma PassLinks(cfg: Config, st: State, ds: seq<Duplicate>, id: nat, k: nat)
    requires Live(cfg) && st.world.fates == [] && !Stopped(st.result) && ToLink(st.world.store, ds, id, k)
    ensures var r := RewireDuplicates(cfg, st, ds, id);
      !Stopped(r.result) ==> FullyLinked(r.world.store, ds[k], id)
  {
    hide RewireDuplicates, InSession, Alone, Rewritable, Known, Attached, Live;
    RewireDuplicatesLink(cfg, st, st.world.store, ds, id, k);
    RewireDuplicatesAside(cfg, st, st.world.store, ds, id);
    AsideAttached(st.world.store, RewireDuplicates(cfg, st, ds, id).world.store, id);
  }

  lemma {:induction false} CloseLinks(
      cfg: Config, st: State, pending: seq<Sized<Prepared>>, ds: seq<Duplicate>, id: nat, k: nat)
    requires Live(cfg) && IsOpenCode(cfg) && st.world.fates == [] && ToLink(st.world.store, ds, id, k)
    requires st.current == Some(id) && st.result.duplicate > 0 && !Stopped(st.result)
    ensures var r := Close(cfg, st, pending, ds);
      !Stopped(r.result) ==> FullyLinked(r.world.store, ds[k], id)
  {
    hide Flush, Finalize, RewireDuplicates, ApplyOpenCodeLabels, IsOpenCode, ToLink, FullyLinked, Live, Untouched;
    var last := if pending == [] then st else Flush(cfg, st, ItemsOf(pending), true);
    if pending == [] {
      UntouchedSelf(st.world.store);
    } else {
      FlushUntouched(cfg, st, ItemsOf(pending), true);
      FlushKeepsThread(cfg, st, ItemsOf(pending), true);
    }
    ToLinkStays(st.world.store, last.world.store, ds, id, k);
    var recorded := Finalize(cfg, last);
    FinalizeUntouched(cfg, last);
    if !Stopped(last.result) && !Stopped(recorded.result) {
      var labelled := ApplyOpenCodeLabels(cfg, recorded, id);
      LabelsUntouched(cfg, recorded, id);
      SameRowsUntouched(recorded.world.store, labelled.world.store);
      ToLinkStays(recorded.world.store, labelled.world.store, ds, id, k);
      if pending != [] {
        PassLinks(cfg, recorded, ds, id, k);
      } else if !Stopped(labelled.result) {
        PassLinks(cfg, labelled, ds, id, k);
      }
    }
  }

  lemma UntouchedSelf(s: Store)
    ensures Untouched(s, s)
  {
  }

  lemma SameRowsUntouched(s: Store, s': Store)
    requires s'.rows == s.rows && |s'.threads| == |s.threads|
    ensures Untouched(s, s')
  {
  }

  lemma {:induction false} StreamLinks(
      cfg: Config, st: State, items: seq<StreamItem>, pending: seq<Sized<Prepared>>, ds: seq<Duplicate>,
      id: nat, k: nat)
    requires Live(cfg) && IsOpenCode(cfg) && st.world.fates == [] && ToLink(st.world.store, ds, id, k)
    requires st.current == Some(id) && st.result.duplicate > 0 && !Stopped(st.result)
    ensures var r := StreamFrom(cfg, st, items, pending, ds);
      !Stopped(r.result) ==> FullyLinked(r.world.store, ds[k], id)
    decreases |items|
  {
    hide StreamFrom, Flush, Close, SentOf, Measure, Overflows, IsOpenCode, ToLink, FullyLinked, Live, Untouched;
    if items == [] {
      StreamEnd(cfg, st, pending, ds);
      CloseLinks(cfg, st, pending, ds, id, k);
    } else {
      StreamStep(cfg, st, items, pending, ds);
      if SentOf(cfg, items[0]) == [] {
        StreamLinks(cfg, CountFiltered(st), items[1..], pending, ds, id, k);
      } else {
        var next := Measure(cfg, SentOf(cfg, items[0])[0]);
        if Overflows(pending, next.size, cfg.limits) {
          var flushed := Flush(cfg, st, ItemsOf(pending), false);
          FlushUntouched(cfg, st, ItemsOf(pending), false);
          FlushKeepsThread(cfg, st, ItemsOf(pending), false);
          DuplicatesStay(cfg, st, ItemsOf(pending), false);
          ToLinkStays(st.world.store, flushed.world.store, ds, id, k);
          if !Stopped(flushed.result) {
            StreamLinks(cfg, flushed, items[1..], [next], ds, id, k);
          }
        } else {
          StreamLinks(cfg, st, items[1..], pending + [next], ds, id, k);
        }
      }
    }
  }

  lemma DuplicatesStay(cfg: Config, st: State, chunk: seq<Prepared>, isLast: bool)
    requires !Stopped(st.result)
    ensures Flush(cfg, st, chunk, isLast).result.duplicate >= st.result.duplicate
  {
    hide Flush, Protocol.Sent, Protocol.OutcomesWith, Protocol.BatchesOf;
    Protocol.FlushSends(cfg, st, chunk, isLast);
  }

  /** No other entry has this entry's id. */
  ghost predicate OnlyEntry(entries: seq<Entry>, entry: Entry) {
    forall i, j :: 0 <= i < j < |entries| ==>
      entries[i].externalId != entry.externalId || entries[j].externalId != entry.externalId
  }

  lemma LossFreeFates(st: State, r: State)
    requires LossFree(st, r) && st.world.fates == []
    ensures r.world.fates == []
  {
  }

  lemma {:induction false} PresentOne(rows: map<string, Row>, entries: seq<Entry>, j: nat) returns (i: nat)
    requires j < |Present(rows, entries)|
    ensures i < |entries| && entries[i] == Present(rows, entries)[j].entry
  {
    var n := |entries| - 1;
    if j < |Present(rows, entries[..n])| {
      i := PresentOne(rows, entries[..n], j);
    } else {
      i := n;
    }
  }

  lemma {:induction false} PresentTwo(rows: map<string, Row>, entries: seq<Entry>, j: nat, k: nat)
    returns (a: nat, b: nat)
    requires j < k < |Present(rows, entries)|
    ensures a < b < |entries|
    ensures entries[a] == Present(rows, entries)[j].entry && entries[b] == Present(rows, entries)[k].entry
  {
    var n := |entries| - 1;
    if k < |Present(rows, entries[..n])| {
      a, b := PresentTwo(rows, entries[..n], j, k);
    } else {
      a := PresentOne(rows, entries[..n], j);
      b := n;
    }
  }

  lemma {:induction false} AloneAmongPresent(rows: map<string, Row>, entries: seq<Entry>, k: nat)
    requires k < |Present(rows, entries)| && OnlyEntry(entries, Present(rows, entries)[k].entry)
    ensures Alone(Present(rows, entries), k)
  {
    hide Present;
    var ds := Present(rows, entries);
    forall j | 0 <= j < |ds| && j != k ensures ds[j].entry.externalId != ds[k].entry.externalId {
      if j < k {
        var a, b := PresentTwo(rows, entries, j, k);
      } else {
        var a, b := PresentTwo(rows, entries, k, j);
      }
    }
  }

  /** What the preflight found is to be linked as the rows and entries say. */
  lemma PresentToLink(cfg: Config, s: Store, ds: seq<Duplicate>, id: nat, k: nat)
    requires Genuine(cfg, s.rows, ds, id) && k < |ds| && Alone(ds, k) && Rewritable(ds[k])
    requires forall e, t :: e in s.rows && t in s.rows[e].threads ==> t < |s.threads|
    ensures ToLink(s, ds, id, k)
  {
    hide Alone;
    assert GenuineOne(cfg, s.rows, ds[k], id);
    forall j | 0 <= j < |ds| ensures InSession(s, ds[j], id) {
      assert GenuineOne(cfg, s.rows, ds[j], id);
    }
  }

  /**
   An OpenCode run that completes on a network that loses nothing: what was imported
   before without parents, in the session's thread alone, is linked to all of its
   references that are in the thread then, in order and each once.
   */
  lemma DuplicatesEndLinked(cfg: Config, w: World, items: seq<StreamItem>, filtered: nat, d: Duplicate)
    requires Live(cfg) && IsOpenCode(cfg) && w.fates == []
    requires d in Present(w.store.rows, NamespaceEntries(cfg, EntriesOf(items))) && Rewritable(d)
    requires OnlyEntry(NamespaceEntries(cfg, EntriesOf(items)), d.entry)
    requires forall e, t :: e in w.store.rows && t in w.store.rows[e].threads ==> t < |w.store.threads|
    ensures var r := RunStreaming(cfg, w, items, filtered);
      !Stopped(r.result) ==>
        && SessionThread(cfg, w.store).Some?
        && FullyLinked(r.world.store, d, SessionThread(cfg, w.store).value)
  {
    hide StreamFrom, Preflight, Live, IsOpenCode, Present, Absent, Foreign, SessionThread, FullyLinked,
         NamespaceEntries,
         Rewritable, FactsOf, OnlyEntry, LossFree, Evolves, ContentKept, Replayed;
    var st, entries := Start(cfg, w, filtered), NamespaceEntries(cfg, EntriesOf(items));
    PreflightPartitions(cfg, st, items);
    PreflightGrows(cfg, st, items);
    var (asked, found) := Preflight(cfg, st, items);
    if !Stopped(RunStreaming(cfg, w, items, filtered).result) {
      var p := found.value;
      var ready := AfterPreflight(asked, p);
      LossFreeFates(st, asked);
      PresentIsGenuine(cfg, w.store.rows, entries, SessionThread(cfg, w.store));
      var id := SessionThread(cfg, w.store).value;
      var k :| 0 <= k < |p.duplicates| && p.duplicates[k] == d;
      AloneAmongPresent(w.store.rows, entries, k);
      PresentToLink(cfg, w.store, p.duplicates, id, k);
      Protocol.PreflightQuiet(cfg, st, items);
      StreamLinks(cfg, ready, EntryItems(p.newEntries), [], p.duplicates, id, k);
    }
  }
}
