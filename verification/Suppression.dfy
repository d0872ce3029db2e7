/**
 A session whose re-import is forbidden stays out: no run of it, over any network,
 adds a row or a thread or changes what a row says.
 */
module Suppression {
  import opened Wrappers
  import opened CanonicalKey
  import opened Store
  import opened Network
  import opened ImportRun
  import opened History
  import opened Protocol
  import Counters

  /** The service holds a marker against the session's identity, for this owner. */
  ghost predicate Marked(cfg: Config, markers: set<SourceIdentity>) {
    exists identity :: IsIdentityOf(cfg.session, identity) && identity.identityScope.Known?
      && SourceIdentity(cfg.userId, identity.source, identity.identityScope, identity.nativeId) in markers
  }

  lemma IdentityIsOne(cfg: Config, markers: set<SourceIdentity>, carried: Option<SourceIdentity>)
    requires Marked(cfg, markers) && CarriesIdentity(cfg, carried)
    ensures carried.Some? && carried.value.identityScope.Known? && carried.value in markers
  {
    var identity :| IsIdentityOf(cfg.session, identity) && identity.identityScope.Known?
      && SourceIdentity(cfg.userId, identity.source, identity.identityScope, identity.nativeId) in markers;
    if carried.Some? {
      var same :| IsIdentityOf(cfg.session, same) && Endpoints(carried.value, same, cfg.userId);
      assert same == identity;
    }
  }

  /** Every batch in the log is one of the session's. */
  ghost predicate AllCarry(cfg: Config, log: seq<Exchange>) {
    forall k :: 0 <= k < |log| && log[k].request.AddMemoriesBatch? ==>
      CarriesIdentity(cfg, log[k].request.batch.sourceIdentity)
  }

  lemma {:induction false} ChainedCarry(cfg: Config, log: seq<Exchange>)
    requires forall k :: 0 <= k < |BatchesOf(log)| ==>
      CarriesIdentity(cfg, BatchesOf(log)[k].request.batch.sourceIdentity)
    ensures AllCarry(cfg, log)
    decreases |log|
  {
    if log != [] {
      hide CarriesIdentity;
      var n := |log| - 1;
      var before := BatchesOf(log[..n]);
      assert forall k :: 0 <= k < |before| ==> before[k] == BatchesOf(log)[k];
      ChainedCarry(cfg, log[..n]);
      assert forall k :: 0 <= k < n ==> log[..n][k] == log[k];
      if log[n].request.AddMemoriesBatch? {
        assert BatchesOf(log)[|before|] == log[n];
      }
    }
  }

  /** The same rows with the same content, and no thread more. */
  ghost predicate NothingAdded(s: Store, s': Store) {
    && s'.markers == s.markers && |s'.threads| == |s.threads|
    && s'.rows.Keys == s.rows.Keys
    && forall e :: e in s.rows ==> s'.rows[e].first == s.rows[e].first && s'.rows[e].content == s.rows[e].content
  }

  lemma NothingJoins(a: Store, b: Store, c: Store)
    requires NothingAdded(a, b) && NothingAdded(b, c)
    ensures NothingAdded(a, c)
  {
  }

  lemma MarkedServe(cfg: Config, s: Store, request: Request)
    requires Marked(cfg, s.markers)
    requires request.AddMemoriesBatch? ==> CarriesIdentity(cfg, request.batch.sourceIdentity)
    ensures NothingAdded(s, Serve(s, request).0)
  {
    hide Marked, CarriesIdentity, AddAll, AttachAll, Existing, ThreadsFor, Malformed, Admit, Commit, Outcomes;
    if request.AddMemoriesBatch? {
      IdentityIsOne(cfg, s.markers, request.batch.sourceIdentity);
    } else {
      Counters.OthersGainNothing(s, request);
      ServeEvolves(s, request);
      EvolvesKeepsFirst(s, Serve(s, request).0);
    }
  }

  lemma EvolvesKeepsFirst(s: Store, s': Store)
    requires Evolves(s, s')
    ensures s'.markers == s.markers && forall e :: e in s.rows ==> e in s'.rows && s'.rows[e].first == s.rows[e].first
  {
    forall e | e in s.rows ensures e in s'.rows && s'.rows[e].first == s.rows[e].first {
      assert RowEvolves(s.rows[e], s'.rows[e]);
    }
  }

  lemma {:induction false} MarkedTaken(cfg: Config, s: Store, request: Request, times: nat)
    requires Marked(cfg, s.markers)
    requires request.AddMemoriesBatch? ==> CarriesIdentity(cfg, request.batch.sourceIdentity)
    ensures NothingAdded(s, History.Taken(s, request, times))
  {
    hide Serve, Marked, CarriesIdentity;
    if times > 0 {
      var before := History.Taken(s, request, times - 1);
      MarkedTaken(cfg, s, request, times - 1);
      MarkedServe(cfg, before, request);
      NothingJoins(s, before, Serve(before, request).0);
    }
  }

  lemma {:induction false} MarkedReplay(cfg: Config, s: Store, log: seq<Exchange>, s': Store)
    requires Marked(cfg, s.markers) && AllCarry(cfg, log) && Replays(s, log, s')
    ensures NothingAdded(s, s')
    decreases |log|
  {
    hide Marked, CarriesIdentity, History.Taken;
    if log != [] {
      var n := |log| - 1;
      var before :| Replays(s, log[..n], before) && TakesTo(before, log[n].request, s');
      var times :| History.Taken(before, log[n].request, times) == s';
      assert forall k :: 0 <= k < n ==> log[..n][k] == log[k];
      MarkedReplay(cfg, s, log[..n], before);
      MarkedTaken(cfg, before, log[n].request, times);
      NothingJoins(s, before, s');
    }
  }

  /**
   While a marker stands against a session's identity, no run of it adds a row or a
   thread or changes a row's data or content, whatever the network does; and where it
   loses nothing, none is reported as imported.
   */
  lemma MarkedAddsNothing(cfg: Config, w: World, items: seq<StreamItem>, filtered: nat)
    requires Live(cfg) && Marked(cfg, w.store.markers)
    ensures var r := RunStreaming(cfg, w, items, filtered);
      && NothingAdded(w.store, r.world.store)
      && (w.fates == [] && r.result.error != Some(SinkFailed) ==> r.result.imported == 0)
  {
    hide RunStreaming, KnownBefore, Live, Marked, LabelledLast, Counts, Reports, Replays, Delivered, Evolves, AllCarry,
         CarriesIdentity;
    var r := RunStreaming(cfg, w, items, filtered);
    var (known, base) := KnownBefore(cfg, w, items, filtered);
    StreamingProtocol(cfg, w, items, filtered);
    RunEvolves(cfg, w, items, filtered);
    forall k | 0 <= k < |BatchesOf(r.log)|
      ensures CarriesIdentity(cfg, BatchesOf(r.log)[k].request.batch.sourceIdentity)
    {
      assert ChainedAt(cfg, BatchesOf(r.log)[k], BatchesOf(r.log)[..k], known);
    }
    ChainedCarry(cfg, r.log);
    MarkedReplay(cfg, w.store, r.log, r.world.store);
    if w.fates == [] {
      Counters.GainsAreReported(cfg, w, items, filtered);
      assert |r.world.store.rows| == |r.world.store.rows.Keys| && |w.store.rows| == |w.store.rows.Keys|;
    }
  }
}
