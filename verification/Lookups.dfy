/**
 Which answers an OpenCode run acts on, over any client: exact lookups are asked in
 order, and the first answer that cannot be trusted is the last one asked for.
 */
module Lookups {
  import opened Wrappers
  import opened Canonical
  import opened Store
  import opened ImportRun

  /** Nothing found, or a whole answer about this very id. */
  ghost predicate Says(reply: Reply, e: string) {
    && reply.Ok? && reply.value.MemoryFound?
    && (reply.value.found.Some? ==>
        var found := reply.value.found.value;
        found.hasMemory && found.hasData && found.externalId == Some(e))
  }

  // The entries.

  /** And a row found is the user's, and in the session's thread, which there is. */
  ghost predicate Trusted(cfg: Config, reply: Reply, e: string, target: Option<nat>) {
    && Says(reply, e)
    && (reply.value.found.Some? ==>
        var found := reply.value.found.value;
        && found.userId == Some(cfg.userId) && found.memoryId.Some?
        && target.Some? && target.value in found.threadIds)
  }

  /** The lookups of the first entries, each answered. */
  ghost predicate LookedUpFirst(asked: seq<Exchange>, entries: seq<Entry>) {
    && |asked| <= |entries|
    && forall k :: 0 <= k < |asked| ==> asked[k].request == FindMemory(entries[k].externalId)
  }

  ghost predicate AllTrusted(cfg: Config, asked: seq<Exchange>, entries: seq<Entry>, target: Option<nat>)
    requires LookedUpFirst(asked, entries)
  {
    forall k :: 0 <= k < |asked| ==> Trusted(cfg, asked[k].reply, entries[k].externalId, target)
  }

  lemma LookupOneTrusts(cfg: Config, st: State, seen: LookedUp, entry: Entry, target: Option<nat>)
    returns (x: Exchange)
    ensures var (r, seen') := LookupOne(cfg, st, seen, entry, target);
      && r.log == st.log + [x]
      && x.request == FindMemory(entry.externalId)
      && (seen'.Some? <==> Trusted(cfg, x.reply, entry.externalId, target))
  {
    var reply := Invoke(cfg, st, FindMemory(entry.externalId)).1;
    x := Exchange(FindMemory(entry.externalId), reply);
  }

  lemma OneMoreAsked(cfg: Config, asked: seq<Exchange>, x: Exchange, entries: seq<Entry>, target: Option<nat>)
    requires entries != [] && |asked| == |entries| - 1
    requires LookedUpFirst(asked, entries[..|entries| - 1])
    requires x.request == FindMemory(entries[|entries| - 1].externalId)
    ensures LookedUpFirst(asked + [x], entries)
    ensures AllTrusted(cfg, asked, entries[..|entries| - 1], target)
         && Trusted(cfg, x.reply, entries[|entries| - 1].externalId, target)
        ==> AllTrusted(cfg, asked + [x], entries, target)
  {
    hide Trusted;
  }

  /**
   The entries are looked up one by one, and the preflight goes on exactly as long as
   the answers can be trusted.
   */
  lemma {:induction false} LookupsTrust(cfg: Config, st: State, entries: seq<Entry>, target: Option<nat>)
    returns (asked: seq<Exchange>)
    ensures var (r, seen) := LookupAll(cfg, st, entries, target);
      && r.log == st.log + asked && LookedUpFirst(asked, entries)
      && if seen.Some? then |asked| == |entries| && AllTrusted(cfg, asked, entries, target)
         else
           var n := |asked| - 1;
           n >= 0 && !Trusted(cfg, asked[n].reply, entries[n].externalId, target)
  {
    asked := [];
    if entries != [] {
      hide Invoke, LookupOne, Trusted, AllTrusted;
      var m := |entries| - 1;
      asked := LookupsTrust(cfg, st, entries[..m], target);
      var (before, seen) := LookupAll(cfg, st, entries[..m], target);
      if seen.Some? {
        var x := LookupOneTrusts(cfg, before, seen.value, entries[m], target);
        OneMoreAsked(cfg, asked, x, entries, target);
        asked := asked + [x];
      }
    } else {
      assert AllTrusted(cfg, asked, entries, target);
    }
  }

  // The parents of a duplicate.

  /** And a row found is the user's, with an id if it is in the session's thread. */
  ghost predicate TrustedParent(cfg: Config, reply: Reply, p: string, id: nat) {
    && Says(reply, p)
    && (reply.value.found.Some? ==>
        var found := reply.value.found.value;
        found.userId == Some(cfg.userId) && (id in found.threadIds ==> found.memoryId.Some?))
  }

  /** The answer names a row of the thread, `e`. */
  ghost predicate NamesParent(reply: Reply, id: nat, e: string) {
    && reply.Ok? && reply.value.MemoryFound? && reply.value.found.Some?
    && id in reply.value.found.value.threadIds && reply.value.found.value.memoryId == Some(e)
  }

  lemma OneParentTrusts(cfg: Config, st: State, parents: seq<string>, id: nat, e: string) returns (x: Exchange)
    requires parents != [] && ParentLookups(cfg, st, parents[..|parents| - 1], id).1.Ok?
    ensures var (before, ids) := ParentLookups(cfg, st, parents[..|parents| - 1], id);
      var (r, ids') := ParentLookups(cfg, st, parents, id);
      && r.log == before.log + [x]
      && x.request == FindMemory(parents[|parents| - 1])
      && (ids'.Ok? <==> TrustedParent(cfg, x.reply, parents[|parents| - 1], id))
      && (ids'.Ok? ==> ids.value <= ids'.value
                       && (e in ids'.value <==> e in ids.value || NamesParent(x.reply, id, e)))
      && (ids'.Err? ==> (ids'.error == ParentCollision <==> Says(x.reply, parents[|parents| - 1])
                                                            && x.reply.value.found.value.userId != Some(cfg.userId)))
  {
    var p := parents[|parents| - 1];
    var before := ParentLookups(cfg, st, parents[..|parents| - 1], id).0;
    x := Exchange(FindMemory(p), Invoke(cfg, before, FindMemory(p)).1);
  }

  ghost predicate LookedUpParents(asked: seq<Exchange>, parents: seq<string>) {
    && |asked| <= |parents|
    && forall k :: 0 <= k < |asked| ==> asked[k].request == FindMemory(parents[k])
  }

  ghost predicate AllTrustedParents(cfg: Config, asked: seq<Exchange>, parents: seq<string>, id: nat)
    requires LookedUpParents(asked, parents)
  {
    forall k :: 0 <= k < |asked| ==> TrustedParent(cfg, asked[k].reply, parents[k], id)
  }

  ghost predicate Named(asked: seq<Exchange>, id: nat, e: string) {
    exists k :: 0 <= k < |asked| && NamesParent(asked[k].reply, id, e)
  }

  lemma OneMoreParent(
      cfg: Config, asked: seq<Exchange>, x: Exchange, parents: seq<string>, id: nat, e: string)
    requires parents != [] && |asked| == |parents| - 1
    requires LookedUpParents(asked, parents[..|parents| - 1]) && x.request == FindMemory(parents[|parents| - 1])
    ensures LookedUpParents(asked + [x], parents)
    ensures AllTrustedParents(cfg, asked, parents[..|parents| - 1], id)
         && TrustedParent(cfg, x.reply, parents[|parents| - 1], id)
        ==> AllTrustedParents(cfg, asked + [x], parents, id)
    ensures Named(asked + [x], id, e) <==> Named(asked, id, e) || NamesParent(x.reply, id, e)
  {
    hide TrustedParent, NamesParent;
    var all := asked + [x];
    assert all[|asked|] == x && forall k :: 0 <= k < |asked| ==> all[k] == asked[k];
  }

  /**
   The same for the parents of a duplicate, any of which may be in another thread: the
   ids that come back are those of the rows named that are in the session's, and the
   error tells another user's row from an answer that is no answer.
   */
  lemma {:induction false} ParentsTrust(cfg: Config, st: State, parents: seq<string>, id: nat, e: string)
    returns (asked: seq<Exchange>)
    ensures var (r, ids) := ParentLookups(cfg, st, parents, id);
      && r.log == st.log + asked && LookedUpParents(asked, parents)
      && if ids.Ok? then
           && |asked| == |parents| && AllTrustedParents(cfg, asked, parents, id)
           && (e in ids.value <==> Named(asked, id, e))
         else
           var n := |asked| - 1;
           && n >= 0 && !TrustedParent(cfg, asked[n].reply, parents[n], id)
           && (ids.error == ParentCollision <==>
               Says(asked[n].reply, parents[n]) && asked[n].reply.value.found.value.userId != Some(cfg.userId))
  {
    asked := [];
    if parents != [] {
      hide Invoke, CheckParent, TrustedParent, AllTrustedParents, Named, NamesParent, Says;
      var m := |parents| - 1;
      asked := ParentsTrust(cfg, st, parents[..m], id, e);
      if ParentLookups(cfg, st, parents[..m], id).1.Ok? {
        var x := OneParentTrusts(cfg, st, parents, id, e);
        OneMoreParent(cfg, asked, x, parents, id, e);
        asked := asked + [x];
      }
    } else {
      assert AllTrustedParents(cfg, asked, parents, id) && !Named(asked, id, e);
    }
  }
}
