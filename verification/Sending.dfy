/**
 What a session sends for its entries: ids in the owner's namespace, references
 that still name the entries they named, the labels, and which entries are left
 out.
 */
module Sending {
  import opened Wrappers
  import opened Text
  import opened JsonTree
  import opened Canonical
  import opened ExternalId
  import opened Store
  import opened ImportRun
  import opened Refinement

  // Ids.

  /** The hyphen-free spelling, which some adapters put in front of their ids. */
  function Underscored(source: string): string {
    ReplaceHyphens(source)
  }

  lemma PrefixedBy(ns: string, suffix: string)
    ensures HasPrefix(ns + ":" + suffix, ns + ":") && (ns + ":" + suffix)[|ns| + 1..] == suffix
  {
    var id := ns + ":" + suffix;
    assert id[..|ns| + 1] == ns + ":";
  }

  /**
   An id that starts with the source's name, in either spelling, keeps the spelling and
   gets the owner put in between; any other gets the source's name and the owner in front.
   */
  lemma NamespacedAs(sha: Sha256Hex, source: string, ownerId: I64, externalId: string, suffix: string)
    requires ShortSource(source)
    ensures externalId == source + ":" + suffix ==>
      Owned(sha, source, source, ownerId, suffix, NamespaceExternalId(sha, source, ownerId, externalId))
    ensures externalId == Underscored(source) + ":" + suffix && !HasPrefix(externalId, source + ":") ==>
      Owned(sha, source, Underscored(source), ownerId, suffix, NamespaceExternalId(sha, source, ownerId, externalId))
    ensures !HasPrefix(externalId, source + ":") && !HasPrefix(externalId, Underscored(source) + ":") ==>
      Owned(sha, source, source, ownerId, externalId, NamespaceExternalId(sha, source, ownerId, externalId))
  {
    ExpectUnreachable(sha, source, ownerId, externalId);
    if externalId == source + ":" + suffix {
      PrefixedBy(source, suffix);
    } else if externalId == Underscored(source) + ":" + suffix {
      PrefixedBy(Underscored(source), suffix);
    }
  }

  /** `id` is `ns:owner:suffix`, or the hash of that behind the same prefix where it does not fit. */
  ghost predicate Owned(
      sha: Sha256Hex, source: string, ns: string, ownerId: I64, suffix: string, id: string)
  {
    var plain := ns + ":" + Print(ownerId) + ":" + suffix;
    id == if |plain| <= EXTERNAL_ID_MAX_BYTES then plain else ns + ":" + Print(ownerId) + ":" + "~" + sha(plain)
  }

  // Entries.

  /** What is sent for an entry the adapter read; OpenCode entries are namespaced before they are prepared. */
  ghost function SentFor(cfg: Config, entry: Entry): Input {
    Prepare(cfg, if IsOpenCode(cfg) then Namespaced(cfg, entry) else entry).input
  }

  /**
   Ids and references go through the same mapping, so a reference to an entry of the
   session is a reference to what is sent for that entry; the media object is the one
   registered for the entry's id.
   */
  lemma ReferencesFollow(cfg: Config, entry: Entry, other: Entry, k: nat)
    ensures var sent := SentFor(cfg, entry);
      && Id(sent) == NamespaceExternalId(cfg.sha, cfg.session.sourceId, cfg.userId, entry.externalId)
      && sent.memory.userId == cfg.userId
      && sent.memory.mediaObjectId == (if Id(sent) in cfg.mediaIds then Some(cfg.mediaIds[Id(sent)]) else None)
      && |sent.parentExternalIds| == |entry.parentExternalIds|
      && (k < |entry.parentExternalIds| && entry.parentExternalIds[k] == other.externalId ==>
          sent.parentExternalIds[k] == Id(SentFor(cfg, other)))
  {
  }

  /** The entries that are imported: none before the cut-off, and all from it on. */
  ghost function FromCutOff(items: seq<StreamItem>, since: Option<int>): nat {
    if items == [] then 0
    else
      var last := items[|items| - 1];
      FromCutOff(items[..|items| - 1], since)
      + if last.EntryItem? && !(since.Some? && last.entry.timestampMs < since.value) then 1 else 0
  }

  lemma {:induction false} SendsFromCutOff(cfg: Config, items: seq<StreamItem>)
    ensures |ToSend(cfg, items)| == FromCutOff(items, cfg.since)
    ensures forall p :: p in ToSend(cfg, items) ==> !(cfg.since.Some? && p.entry.timestampMs < cfg.since.value)
  {
    if items != [] {
      hide NamespaceExternalId, NamespaceAll, InputOf;
      SendsFromCutOff(cfg, items[..|items| - 1]);
    }
  }

  // Labels.

  lemma {:induction false} NonEmptyJoins(a: seq<string>, b: seq<string>)
    ensures NonEmpty(a + b) == NonEmpty(a) + NonEmpty(b)
  {
    if a == [] {
      assert a + b == b;
    } else {
      var first := if a[0] == "" then [] else [a[0]];
      NonEmptyJoins(a[1..], b);
      assert (a + b)[1..] == a[1..] + b;
      assert NonEmpty(a) == first + NonEmpty(a[1..]) && NonEmpty(a + b) == first + NonEmpty((a + b)[1..]);
      Reassociate(first, NonEmpty(a[1..]), NonEmpty(b));
    }
  }

  lemma {:induction false} NonEmptyHolds(a: seq<string>, l: string)
    ensures l in NonEmpty(a) <==> l in a && l != ""
  {
    if a != [] {
      NonEmptyHolds(a[1..], l);
      assert a == [a[0]] + a[1..];
    }
  }

  /** One of the labels is `l`, NULs aside. */
  ghost predicate Asked(labels: seq<string>, l: string) {
    exists k :: 0 <= k < |labels| && StripText(labels[k]) == l
  }

  /** Each from `n` on is new. */
  ghost predicate NewFrom(labels: seq<string>, n: nat) {
    forall j :: n <= j < |labels| ==> labels[j] !in labels[..j]
  }

  /** Extra labels go behind, each unless it is there. */
  lemma {:induction false} AddMissingAdds(labels: seq<string>, extra: seq<string>, l: string)
    ensures var r := AddMissing(labels, extra);
      && labels <= r && NewFrom(r, |labels|)
      && (l in r <==> l in labels || Asked(extra, l))
    decreases |extra|
  {
    if extra != [] {
      hide StripText;
      var first := StripText(extra[0]);
      var grown := if first in labels then labels else labels + [first];
      AddMissingAdds(grown, extra[1..], l);
      var r := AddMissing(labels, extra);
      assert |labels| < |grown| ==> r[|labels|] == first && r[..|labels|] == labels;
      AskedFront(extra, l);
    }
  }

  lemma AskedFront(labels: seq<string>, l: string)
    requires labels != []
    ensures Asked(labels, l) <==> StripText(labels[0]) == l || Asked(labels[1..], l)
  {
    hide StripText;
    if Asked(labels[1..], l) {
      var k :| 0 <= k < |labels[1..]| && StripText(labels[1..][k]) == l;
      assert labels[k + 1] == labels[1..][k];
    }
    if Asked(labels, l) && StripText(labels[0]) != l {
      var k :| 0 <= k < |labels| && StripText(labels[k]) == l;
      assert labels[1..][k - 1] == labels[k];
    }
  }

  lemma StripEachAsks(labels: seq<string>, l: string)
    ensures l in StripEach(labels) <==> Asked(labels, l)
  {
    hide StripText;
    var r := StripEach(labels);
    if l in r {
      var k :| 0 <= k < |r| && r[k] == l;
      assert StripText(labels[k]) == l;
    }
    if Asked(labels, l) {
      var k :| 0 <= k < |labels| && StripText(labels[k]) == l;
      assert r[k] == l;
    }
  }

  /** The user's labels: none that the adapter's have, and none twice. */
  ghost predicate Extras(own: seq<string>, more: seq<string>) {
    && (forall i, j :: 0 <= i < j < |more| ==> more[i] != more[j])
    && (forall l :: l in more ==> l !in own)
  }

  lemma NewAreExtras(own: seq<string>, more: seq<string>)
    requires NewFrom(own + more, |own|)
    ensures Extras(own, more)
  {
    var all := own + more;
    forall i, j | 0 <= i < j < |more| ensures more[i] != more[j] {
      assert all[|own| + j] !in all[..|own| + j] && all[..|own| + j][|own| + i] == more[i];
    }
    forall l | l in more ensures l !in own {
      var j :| 0 <= j < |more| && more[j] == l;
      assert all[|own| + j] !in all[..|own| + j] && all[..|own| + j][..|own|] == own;
    }
  }

  /** A session's labels: the adapter's, then the user's that are not among them, without NULs or empty ones. */
  lemma LabelsExactly(session: Session, extra: seq<string>, l: string) returns (more: seq<string>)
    ensures l in BuildLabels(session, extra) <==> l != "" && (Asked(session.sourceLabels, l) || Asked(extra, l))
    ensures BuildLabels(session, extra) == NonEmpty(StripEach(session.sourceLabels)) + NonEmpty(more)
    ensures Extras(StripEach(session.sourceLabels), more)
  {
    hide StripEach, NonEmpty, AddMissing, Asked, NewFrom, Extras;
    var own := StripEach(session.sourceLabels);
    var all := AddMissing(own, extra);
    AddMissingAdds(own, extra, l);
    more := all[|own|..];
    assert all == own + more;
    NewAreExtras(own, more);
    NonEmptyJoins(own, more);
    NonEmptyHolds(all, l);
    StripEachAsks(session.sourceLabels, l);
  }
}
