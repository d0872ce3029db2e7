/**
 Owner-scoped external ids: `namespace:owner:suffix` while it fits, and a hashed
 form of the same length for every suffix once it does not.
 */
module ExternalId {
  import opened Wrappers
  import opened Text

  const EXTERNAL_ID_MAX_BYTES: nat := 512

  /** SHA-256 in hexadecimal; only the length of its output is used. */
  type Sha256Hex = string -> string

  ghost predicate IsSha256Hex(sha: Sha256Hex) {
    forall s :: |sha(s)| == 64
  }

  datatype ExternalIdError = ExternalIdError(maxBytes: nat, minimumHashedBytes: nat)

  function ReplaceHyphens(s: string): (r: string)
    ensures |r| == |s|
    ensures forall k :: 0 <= k < |s| ==> r[k] == if s[k] == '-' then '_' else s[k]
  {
    seq(|s|, k requires 0 <= k < |s| => if s[k] == '-' then '_' else s[k])
  }

  function NamespaceForExternalId(source: string, externalId: string): Option<string> {
    if HasPrefix(externalId, source + ":") then Some(source)
    else
      var normalized := ReplaceHyphens(source);
      if HasPrefix(externalId, normalized + ":") then Some(normalized) else None
  }

  /** What is left of an id once a leading `namespace:` is taken off. */
  function Suffix(ns: string, externalId: string): string {
    if HasPrefix(externalId, ns + ":") then externalId[|ns| + 1..] else externalId
  }

  function OwnerPrefix(ns: string, ownerId: I64): string {
    ns + ":" + Print(ownerId) + ":"
  }

  function Scoped(ns: string, ownerId: I64, externalId: string): string {
    OwnerPrefix(ns, ownerId) + Suffix(ns, externalId)
  }

  function Hashed(sha: Sha256Hex, ns: string, ownerId: I64, externalId: string): string {
    OwnerPrefix(ns, ownerId) + "~" + sha(Scoped(ns, ownerId, externalId))
  }

  function OwnerScoped(sha: Sha256Hex, ns: string, ownerId: I64, externalId: string, maxBytes: nat)
    : Result<string, ExternalIdError>
  {
    var scoped := Scoped(ns, ownerId, externalId);
    if |scoped| <= maxBytes then Ok(scoped)
    else
      var minimumHashedBytes := |OwnerPrefix(ns, ownerId) + "~"| + 64;
      if maxBytes < minimumHashedBytes then Err(ExternalIdError(maxBytes, minimumHashedBytes))
      else Ok(Hashed(sha, ns, ownerId, externalId))
  }

  /** Every id produced fits and carries its owner's prefix; failure means neither form fits. */
  lemma OwnerScopedFits(sha: Sha256Hex, ns: string, ownerId: I64, externalId: string, maxBytes: nat)
    requires IsSha256Hex(sha)
    ensures var r := OwnerScoped(sha, ns, ownerId, externalId, maxBytes);
      && (r.Ok? ==> |r.value| <= maxBytes && HasPrefix(r.value, OwnerPrefix(ns, ownerId)))
      && (r.Err? <==> (|Scoped(ns, ownerId, externalId)| > maxBytes
                    && |Hashed(sha, ns, ownerId, externalId)| > maxBytes))
  {
    Reassociate(OwnerPrefix(ns, ownerId), "~", sha(Scoped(ns, ownerId, externalId)));
  }

  lemma PrintHasNoColon(i: I64)
    ensures ':' !in Print(i)
  {
    assert forall k :: 0 <= k < |Print(i)| ==> IsDigit(Print(i)[k]) || Print(i)[k] == '-';
  }

  lemma PrintInjective(a: I64, b: I64)
    requires Print(a) == Print(b)
    ensures a == b
  {
    ParsePrint(a);
    ParsePrint(b);
  }

  /** Behind a colon-free namespace, the owner and the rest can be read back. */
  lemma PrefixDetermined(ns: string, o1: I64, rest1: string, o2: I64, rest2: string)
    requires OwnerPrefix(ns, o1) + rest1 == OwnerPrefix(ns, o2) + rest2
    ensures o1 == o2 && rest1 == rest2
  {
    var tail1, tail2 := Print(o1) + [':'] + rest1, Print(o2) + [':'] + rest2;
    assert (OwnerPrefix(ns, o1) + rest1)[|ns| + 1..] == tail1;
    assert (OwnerPrefix(ns, o2) + rest2)[|ns| + 1..] == tail2;
    assert tail1 == tail2;
    PrintHasNoColon(o1);
    PrintHasNoColon(o2);
    SplitAtSeparator(Print(o1), rest1, ':', Print(o2), rest2);
    PrintInjective(o1, o2);
  }

  /** A fitting suffix spells out the marker and the digest that stand for an overflowing id. */
  ghost predicate SpellsDigestOf(
      sha: Sha256Hex, ns: string, ownerId: I64, long: string, short: string, maxBytes: nat)
  {
    && |Scoped(ns, ownerId, long)| > maxBytes && |Scoped(ns, ownerId, short)| <= maxBytes
    && Suffix(ns, short) == "~" + sha(Scoped(ns, ownerId, long))
  }

  ghost predicate DigestsCollide(
      sha: Sha256Hex, ns: string, ownerId: I64, e1: string, e2: string, maxBytes: nat)
  {
    && |Scoped(ns, ownerId, e1)| > maxBytes && |Scoped(ns, ownerId, e2)| > maxBytes
    && sha(Scoped(ns, ownerId, e1)) == sha(Scoped(ns, ownerId, e2))
  }

  /**
   Two ids coincide exactly for one owner and one suffix, or where two overflowing
   ids have the same digest, or where one suffix spells out the other's digest.
   */
  lemma OwnerScopedInjective(
      sha: Sha256Hex, ns: string, o1: I64, e1: string, o2: I64, e2: string, maxBytes: nat)
    requires IsSha256Hex(sha)
    requires OwnerScoped(sha, ns, o1, e1, maxBytes).Ok? && OwnerScoped(sha, ns, o2, e2, maxBytes).Ok?
    ensures OwnerScoped(sha, ns, o1, e1, maxBytes) == OwnerScoped(sha, ns, o2, e2, maxBytes)
       <==> && o1 == o2
            && (|| Suffix(ns, e1) == Suffix(ns, e2)
                || DigestsCollide(sha, ns, o1, e1, e2, maxBytes)
                || SpellsDigestOf(sha, ns, o1, e1, e2, maxBytes)
                || SpellsDigestOf(sha, ns, o1, e2, e1, maxBytes))
  {
    var rest1 := Rest(sha, ns, o1, e1, maxBytes);
    var rest2 := Rest(sha, ns, o2, e2, maxBytes);
    DropMarker(sha(Scoped(ns, o1, e1)), sha(Scoped(ns, o2, e2)));
    if OwnerScoped(sha, ns, o1, e1, maxBytes) == OwnerScoped(sha, ns, o2, e2, maxBytes) {
      PrefixDetermined(ns, o1, rest1, o2, rest2);
    }
  }

  /** Where no suffix starts with the marker, that leaves the owner, the suffix and the digests. */
  lemma UnmarkedInjective(
      sha: Sha256Hex, ns: string, o1: I64, e1: string, o2: I64, e2: string, maxBytes: nat)
    requires IsSha256Hex(sha)
    requires !HasPrefix(Suffix(ns, e1), "~") && !HasPrefix(Suffix(ns, e2), "~")
    requires OwnerScoped(sha, ns, o1, e1, maxBytes).Ok? && OwnerScoped(sha, ns, o2, e2, maxBytes).Ok?
    ensures OwnerScoped(sha, ns, o1, e1, maxBytes) == OwnerScoped(sha, ns, o2, e2, maxBytes)
       <==> o1 == o2 && (Suffix(ns, e1) == Suffix(ns, e2) || DigestsCollide(sha, ns, o1, e1, e2, maxBytes))
  {
    OwnerScopedInjective(sha, ns, o1, e1, o2, e2, maxBytes);
    DropMarker(sha(Scoped(ns, o1, e1)), sha(Scoped(ns, o2, e2)));
  }

  /** What follows the owner prefix in a produced id. */
  ghost function Rest(sha: Sha256Hex, ns: string, ownerId: I64, externalId: string, maxBytes: nat)
    : (rest: string)
    requires OwnerScoped(sha, ns, ownerId, externalId, maxBytes).Ok?
    ensures OwnerScoped(sha, ns, ownerId, externalId, maxBytes).value == OwnerPrefix(ns, ownerId) + rest
    ensures rest == if |Scoped(ns, ownerId, externalId)| <= maxBytes then Suffix(ns, externalId)
                    else "~" + sha(Scoped(ns, ownerId, externalId))
  {
    var digest := sha(Scoped(ns, ownerId, externalId));
    Reassociate(OwnerPrefix(ns, ownerId), "~", digest);
    if |Scoped(ns, ownerId, externalId)| <= maxBytes then Suffix(ns, externalId) else "~" + digest
  }

  lemma DropMarker(a: string, b: string)
    ensures "~" + a == "~" + b <==> a == b
    ensures HasPrefix("~" + a, "~") && HasPrefix("~" + b, "~")
  {
    assert ("~" + a)[1..] == a && ("~" + b)[1..] == b;
  }

  /**
   Why the marker must be kept out of suffixes: next to any id that had to be
   hashed, the suffix spelling that hash out gets the very same id.
   */
  lemma MarkerSuffixAliases(sha: Sha256Hex, ns: string, ownerId: I64, externalId: string, maxBytes: nat)
    requires IsSha256Hex(sha)
    requires |Scoped(ns, ownerId, externalId)| > maxBytes
    requires OwnerScoped(sha, ns, ownerId, externalId, maxBytes).Ok?
    ensures var alias := ns + ":" + ("~" + sha(Scoped(ns, ownerId, externalId)));
      && OwnerScoped(sha, ns, ownerId, alias, maxBytes) == OwnerScoped(sha, ns, ownerId, externalId, maxBytes)
      && Suffix(ns, alias) != Suffix(ns, externalId)
  {
    var digest := sha(Scoped(ns, ownerId, externalId));
    SuffixOfPrefixed(ns, "~" + digest);
    Reassociate(OwnerPrefix(ns, ownerId), "~", digest);
  }

  lemma SuffixOfPrefixed(ns: string, suffix: string)
    ensures Suffix(ns, ns + ":" + suffix) == suffix
  {
    var id := ns + ":" + suffix;
    assert id[..|ns| + 1] == ns + ":" && id[|ns| + 1..] == suffix;
  }

  /** An id that starts with some owner's prefix was made for that owner. */
  lemma PrefixNamesOwner(
      sha: Sha256Hex, ns: string, ownerId: I64, externalId: string, maxBytes: nat, other: I64)
    requires OwnerScoped(sha, ns, ownerId, externalId, maxBytes).Ok?
    requires HasPrefix(OwnerScoped(sha, ns, ownerId, externalId, maxBytes).value, OwnerPrefix(ns, other))
    ensures ownerId == other
  {
    var id := OwnerScoped(sha, ns, ownerId, externalId, maxBytes).value;
    BothPrefixes(ns, id, ownerId, Rest(sha, ns, ownerId, externalId, maxBytes), other);
  }

  lemma BothPrefixes(ns: string, id: string, ownerId: I64, rest: string, other: I64)
    requires id == OwnerPrefix(ns, ownerId) + rest && HasPrefix(id, OwnerPrefix(ns, other))
    ensures ownerId == other
  {
    var k := |OwnerPrefix(ns, other)|;
    assert id == OwnerPrefix(ns, other) + id[k..];
    PrefixDetermined(ns, ownerId, rest, other, id[k..]);
  }

  function NamespaceOf(source: string, externalId: string): string {
    match NamespaceForExternalId(source, externalId)
    case Some(ns) => ns
    case None => source
  }

  /** The importer's use, before its `expect`. */
  function TryNamespaceExternalId(sha: Sha256Hex, source: string, ownerId: I64, externalId: string)
    : Result<string, ExternalIdError>
  {
    OwnerScoped(sha, NamespaceOf(source, externalId), ownerId, externalId, EXTERNAL_ID_MAX_BYTES)
  }

  /** The source ids for which the importer's `expect` cannot fire. */
  predicate ShortSource(source: string) {
    |source| <= 425
  }

  /** The `expect` is unreachable for sources of at most 425 bytes ... */
  lemma ExpectUnreachable(sha: Sha256Hex, source: string, ownerId: I64, externalId: string)
    requires ShortSource(source)
    ensures TryNamespaceExternalId(sha, source, ownerId, externalId).Ok?
  {
    PrintLength(ownerId);
    assert |NamespaceOf(source, externalId)| == |source|;
  }

  /** ... and the bound is exact: one byte more, and the longest owner id overflows it. */
  lemma ExpectReachableBeyond(sha: Sha256Hex, source: string, ownerId: I64, externalId: string)
    requires |source| == 426 && |Print(ownerId)| == 20
    requires |Suffix(NamespaceOf(source, externalId), externalId)| > 64
    ensures TryNamespaceExternalId(sha, source, ownerId, externalId).Err?
  {
    assert |NamespaceOf(source, externalId)| == |source|;
  }

  function NamespaceExternalId(sha: Sha256Hex, source: string, ownerId: I64, externalId: string): string
    requires ShortSource(source)
  {
    ExpectUnreachable(sha, source, ownerId, externalId);
    TryNamespaceExternalId(sha, source, ownerId, externalId).value
  }
}
