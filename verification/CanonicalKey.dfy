/**
 Thread-group identities: the length-prefixed serializer, the domain-tagged
 keys hashed from it, the evidence fingerprint, and the legacy owner scope.
 */
module CanonicalKey {
  import opened Wrappers
  import opened Text

  type Fields = seq<Option<string>>

  /** NFC and SHA-256 (in hexadecimal), of which only the laws below are used. */
  datatype Primitives = Primitives(nfc: string -> string, sha256Hex: string -> string)

  /** NFC is idempotent and leaves ASCII alone (UAX #15). */
  ghost predicate Lawful(p: Primitives) {
    && (forall s :: p.nfc(p.nfc(s)) == p.nfc(s))
    && (forall s :: IsAscii(s) ==> p.nfc(s) == s)
  }

  /** Two different inputs with one digest. */
  ghost predicate Collision(p: Primitives, a: string, b: string) {
    a != b && p.sha256Hex(a) == p.sha256Hex(b)
  }

  function EncodeField(p: Primitives, field: Option<string>): (s: string)
    ensures s != []
  {
    match field
    case Some(value) => Decimal(|p.nfc(value)|) + ":" + p.nfc(value)
    case None => "-:"
  }

  function Serialize(p: Primitives, fields: Fields): string {
    if fields == [] then ""
    else Serialize(p, fields[..|fields| - 1]) + EncodeField(p, fields[|fields| - 1])
  }

  /** `canonical_serialize_v2`. */
  method CanonicalSerializeV2(p: Primitives, fields: Fields) returns (output: string)
    ensures output == Serialize(p, fields)
    ensures Decode(output) == Some(Normalize(p, fields))
  {
    output := "";
    for i := 0 to |fields|
      invariant output == Serialize(p, fields[..i])
    {
      assert fields[..i + 1][..i] == fields[..i];
      match fields[i] {
        case Some(value) =>
          var normalized := p.nfc(value);
          output := output + (Decimal(|normalized|) + ":" + normalized);
        case None =>
          output := output + "-:";
      }
    }
    assert fields[..|fields|] == fields;
    SerializeDecodes(p, fields);
  }

  function Normalize(p: Primitives, fields: Fields): (r: Fields)
    ensures |r| == |fields|
    ensures forall k :: 0 <= k < |r| ==> r[k] == NormalizeField(p, fields[k])
  {
    seq(|fields|, k requires 0 <= k < |fields| => NormalizeField(p, fields[k]))
  }

  function NormalizeField(p: Primitives, field: Option<string>): Option<string> {
    if field.Some? then Some(p.nfc(field.value)) else None
  }

  /** The decoder the format is meant for: one field and what follows it. */
  function DecodeOne(bytes: string): (r: Option<(Option<string>, string)>)
    ensures r.Some? ==> |r.value.1| < |bytes|
  {
    var colon := IndexOf(bytes, ':');
    if colon == |bytes| then None
    else
      var tag, body := bytes[..colon], bytes[colon + 1..];
      if tag == "-" then Some((None, body))
      else if tag != "" && IsDigits(tag) && DigitsValue(tag) <= |body| then
        Some((Some(body[..DigitsValue(tag)]), body[DigitsValue(tag)..]))
      else None
  }

  function Decode(bytes: string): Option<Fields>
    decreases |bytes|
  {
    if bytes == "" then Some([])
    else match DecodeOne(bytes)
      case None => None
      case Some((field, rest)) =>
        match Decode(rest)
        case None => None
        case Some(fields) => Some([field] + fields)
  }

  lemma EncodedFieldDecodes(p: Primitives, field: Option<string>, rest: string)
    ensures DecodeOne(EncodeField(p, field) + rest) == Some((NormalizeField(p, field), rest))
  {
    var bytes := EncodeField(p, field) + rest;
    match field {
      case None =>
        assert bytes == "-" + [':'] + rest;
        FirstSeparator("-", ':', rest);
      case Some(value) =>
        var text := p.nfc(value);
        var tag := Decimal(|text|);
        assert bytes == tag + [':'] + (text + rest);
        FirstSeparator(tag, ':', text + rest);
        DecimalRoundTrip(|text|);
        assert bytes[..|tag|] == tag && bytes[|tag| + 1..] == text + rest;
        assert tag != "-" by { assert IsDigit(tag[0]); }
    }
  }

  lemma SerializeStep(p: Primitives, fields: Fields)
    requires fields != []
    ensures Serialize(p, fields) == EncodeField(p, fields[0]) + Serialize(p, fields[1..])
  {
    if |fields| > 1 {
      var init, last := fields[..|fields| - 1], fields[|fields| - 1];
      SerializeStep(p, init);
      assert init[1..] == fields[1..][..|fields| - 2];
      assert fields[1..][|fields| - 2] == last;
    } else {
      assert fields[..0] == [] && fields[1..] == [];
    }
  }

  lemma DecodeStep(bytes: string, field: Option<string>, rest: string)
    requires bytes != "" && DecodeOne(bytes) == Some((field, rest)) && Decode(rest).Some?
    ensures Decode(bytes) == Some([field] + Decode(rest).value)
  {
  }

  /** Unique decodability: the decoder recovers every list, absent fields included. */
  lemma {:induction false} SerializeDecodes(p: Primitives, fields: Fields)
    ensures Decode(Serialize(p, fields)) == Some(Normalize(p, fields))
  {
    if fields != [] {
      SerializeStep(p, fields);
      EncodedFieldDecodes(p, fields[0], Serialize(p, fields[1..]));
      SerializeDecodes(p, fields[1..]);
      DecodeStep(Serialize(p, fields), NormalizeField(p, fields[0]), Serialize(p, fields[1..]));
      assert Normalize(p, fields) == [NormalizeField(p, fields[0])] + Normalize(p, fields[1..]);
    }
  }

  lemma {:induction false} SerializeOfNormal(p: Primitives, a: Fields, b: Fields)
    requires Normalize(p, a) == Normalize(p, b)
    ensures Serialize(p, a) == Serialize(p, b)
  {
    assert |a| == |b|;
    if a != [] {
      var n := |a| - 1;
      assert Normalize(p, a[..n]) == Normalize(p, a)[..n] == Normalize(p, b)[..n] == Normalize(p, b[..n]);
      SerializeOfNormal(p, a[..n], b[..n]);
      assert NormalizeField(p, a[n]) == Normalize(p, a)[n] == Normalize(p, b)[n] == NormalizeField(p, b[n]);
    }
  }

  /** Two lists serialize alike exactly when they agree field by field after NFC. */
  lemma SerializeInjective(p: Primitives, a: Fields, b: Fields)
    ensures Serialize(p, a) == Serialize(p, b) <==> Normalize(p, a) == Normalize(p, b)
  {
    SerializeDecodes(p, a);
    SerializeDecodes(p, b);
    if Normalize(p, a) == Normalize(p, b) {
      SerializeOfNormal(p, a, b);
    }
  }

  function HashFields(p: Primitives, fields: Fields): string {
    p.sha256Hex(Serialize(p, fields))
  }

  /** Equal hashes mean equal normalized fields, unless SHA-256 collides on the two. */
  lemma HashInjective(p: Primitives, a: Fields, b: Fields)
    requires HashFields(p, a) == HashFields(p, b)
    ensures Normalize(p, a) == Normalize(p, b) || Collision(p, Serialize(p, a), Serialize(p, b))
  {
    SerializeInjective(p, a, b);
  }

  datatype IdentityScope = Known(scope: string) | Unknown

  datatype SourceIdentity = SourceIdentity(
    userId: I64, source: string, identityScope: IdentityScope, nativeId: string)

  function LegacyOwnerScope(userId: I64): string {
    "user:" + Print(userId)
  }

  function ParseLegacyOwnerScope(ownerScope: string): Option<I64> {
    if !HasPrefix(ownerScope, "user:") then None
    else match ParseI64(ownerScope[5..])
      case None => None
      case Some(userId) => if LegacyOwnerScope(userId) == ownerScope then Some(userId) else None
  }

  /** Printing and parsing owner scopes are inverse, over all of i64 and nothing else. */
  lemma LegacyOwnerScopeRoundTrip(s: string, userId: I64)
    ensures ParseLegacyOwnerScope(s) == Some(userId) <==> s == LegacyOwnerScope(userId)
  {
    ParsePrint(userId);
    assert LegacyOwnerScope(userId)[5..] == Print(userId);
  }

  /** Spellings that `parse::<i64>` would accept for the same id are refused. */
  lemma AlternateSpellingsRefused(userId: I64)
    requires userId >= 0
    ensures ParseI64("+" + Print(userId)) == Some(userId) == ParseI64("0" + Print(userId))
    ensures ParseLegacyOwnerScope("user:" + ("+" + Print(userId))).None?
    ensures ParseLegacyOwnerScope("user:" + ("0" + Print(userId))).None?
  {
    var printed := Print(userId);
    DecimalRoundTrip(userId);
    LeadingZero(printed);
    assert ("+" + printed)[1..] == printed;
    Respelled("+" + printed, userId);
    Respelled("0" + printed, userId);
  }

  lemma NegativeZeroRefused()
    ensures ParseI64("-0") == Some(0) && ParseLegacyOwnerScope("user:" + "-0").None?
  {
    assert "-0"[1..] == "0" && DigitsValue("0") == 0;
    Respelled("-0", 0);
  }

  lemma Respelled(spelling: string, userId: I64)
    requires ParseI64(spelling) == Some(userId) && |spelling| != |Print(userId)|
    ensures ParseLegacyOwnerScope("user:" + spelling).None?
  {
    assert ("user:" + spelling)[5..] == spelling;
  }

  lemma {:induction false} LeadingZero(digits: string)
    requires IsDigits(digits)
    ensures IsDigits("0" + digits) && DigitsValue("0" + digits) == DigitsValue(digits)
  {
    var s := "0" + digits;
    if digits == [] {
      assert s[..0] == [] && DigitsValue(s[..0]) == 0;
    } else {
      LeadingZero(digits[..|digits| - 1]);
      assert s[..|s| - 1] == "0" + digits[..|digits| - 1];
    }
  }

  lemma LegacyOwnerScopeIsAscii(userId: I64)
    ensures IsAscii(LegacyOwnerScope(userId))
  {
    var printed := Print(userId);
    assert forall k :: 0 <= k < |printed| ==> IsDigit(printed[k]) || printed[k] == '-';
  }

  function SourceThreadFields(identity: SourceIdentity): Fields
    requires identity.identityScope.Known?
  {
    [Some("thread-source"), Some(LegacyOwnerScope(identity.userId)), Some(identity.source),
     Some(identity.identityScope.scope), Some(identity.nativeId)]
  }

  function SourceThreadCanonicalKey(p: Primitives, identity: SourceIdentity): Option<string> {
    match identity.identityScope
    case Unknown => None
    case Known(_) => Some(HashFields(p, SourceThreadFields(identity)))
  }

  function RootFields(rootThreadKey: string): Fields {
    [Some("thread-group-root"), Some(rootThreadKey)]
  }

  function ReconcilerGroupCanonicalKey(p: Primitives, rootThreadKey: string): string {
    HashFields(p, RootFields(rootThreadKey))
  }

  /** What two identities are told apart by: the id exactly, the texts up to NFC. */
  ghost predicate SameIdentity(p: Primitives, a: SourceIdentity, b: SourceIdentity) {
    && a.userId == b.userId
    && p.nfc(a.source) == p.nfc(b.source)
    && p.nfc(a.nativeId) == p.nfc(b.nativeId)
    && a.identityScope.Known? == b.identityScope.Known?
    && (a.identityScope.Known? ==> p.nfc(a.identityScope.scope) == p.nfc(b.identityScope.scope))
  }

  lemma OwnerScopeInjective(p: Primitives, a: I64, b: I64)
    requires Lawful(p) && p.nfc(LegacyOwnerScope(a)) == p.nfc(LegacyOwnerScope(b))
    ensures a == b
  {
    LegacyOwnerScopeIsAscii(a);
    LegacyOwnerScopeIsAscii(b);
    LegacyOwnerScopeRoundTrip(LegacyOwnerScope(a), a);
    LegacyOwnerScopeRoundTrip(LegacyOwnerScope(a), b);
  }

  /** Source keys identify (user, source, scope, native id), unless SHA-256 collides. */
  lemma SourceKeyInjective(p: Primitives, a: SourceIdentity, b: SourceIdentity)
    requires Lawful(p) && a.identityScope.Known? && b.identityScope.Known?
    requires SourceThreadCanonicalKey(p, a) == SourceThreadCanonicalKey(p, b)
    ensures SameIdentity(p, a, b)
         || Collision(p, Serialize(p, SourceThreadFields(a)), Serialize(p, SourceThreadFields(b)))
  {
    var fa, fb := SourceThreadFields(a), SourceThreadFields(b);
    HashInjective(p, fa, fb);
    if Normalize(p, fa) == Normalize(p, fb) {
      AgreeAt(p, fa, fb, 1);
      AgreeAt(p, fa, fb, 2);
      AgreeAt(p, fa, fb, 3);
      AgreeAt(p, fa, fb, 4);
      OwnerScopeInjective(p, a.userId, b.userId);
    }
  }

  lemma AgreeAt(p: Primitives, a: Fields, b: Fields, k: nat)
    requires Normalize(p, a) == Normalize(p, b) && k < |a|
    ensures k < |b| && NormalizeField(p, a[k]) == NormalizeField(p, b[k])
  {
    assert Normalize(p, a)[k] == Normalize(p, b)[k];
  }

  ghost predicate Sorted(xs: seq<string>) {
    forall i, j :: 0 <= i < j < |xs| ==> LexLe(xs[i], xs[j])
  }

  ghost predicate StrictlySorted(xs: seq<string>) {
    forall i, j :: 0 <= i < j < |xs| ==> LexLt(xs[i], xs[j])
  }

  lemma HeadBelow(x: string, xs: seq<string>)
    requires forall y :: y in xs ==> LexLe(x, y)
    requires Sorted(xs)
    ensures Sorted([x] + xs)
  {
  }

  lemma BelowAll(x: string, xs: seq<string>)
    requires Sorted(xs) && xs != [] && LexLe(x, xs[0])
    ensures forall y :: y in xs ==> LexLe(x, y)
  {
    forall y | y in xs ensures LexLe(x, y) {
      var k :| 0 <= k < |xs| && xs[k] == y;
      if k > 0 {
        LexTransitive(x, xs[0], xs[k]);
      }
    }
  }

  function Place(x: string, xs: seq<string>): (r: seq<string>)
    requires Sorted(xs)
    ensures Sorted(r) && multiset(r) == multiset(xs) + multiset{x}
    ensures forall y :: y in r <==> y == x || y in xs
  {
    if xs == [] then [x]
    else if LexLe(x, xs[0]) then
      BelowAll(x, xs);
      HeadBelow(x, xs);
      [x] + xs
    else
      var head, rest := xs[0], Place(x, xs[1..]);
      assert xs == [head] + xs[1..];
      LexTotal(x, head);
      LexTotal(head, head);
      BelowAll(head, xs);
      HeadBelow(head, rest);
      [head] + rest
  }

  /** The library sort: ordered, and a permutation of its input. */
  function Sort(xs: seq<string>): (r: seq<string>)
    ensures Sorted(r) && multiset(r) == multiset(xs)
  {
    if xs == [] then []
    else
      assert xs == [xs[0]] + xs[1..];
      Place(xs[0], Sort(xs[1..]))
  }

  /** The library dedup: the first of each run of equal neighbours survives. */
  function Dedup(xs: seq<string>): (r: seq<string>)
    ensures forall x :: x in r <==> x in xs
    ensures (r == []) == (xs == []) && (xs != [] ==> r[0] == xs[0])
  {
    if |xs| <= 1 then xs
    else
      var rest := Dedup(xs[1..]);
      assert xs == [xs[0]] + xs[1..];
      if xs[0] == xs[1] then rest else [xs[0]] + rest
  }

  lemma {:induction false} DedupStrict(xs: seq<string>)
    requires Sorted(xs)
    ensures StrictlySorted(Dedup(xs))
  {
    if |xs| > 1 {
      DedupStrict(xs[1..]);
      var rest := Dedup(xs[1..]);
      if xs[0] != xs[1] {
        forall j | 0 <= j < |rest| ensures LexLt(xs[0], rest[j]) {
          assert rest[j] in xs[1..];
          var k :| 1 <= k < |xs| && xs[k] == rest[j];
          LexTotal(xs[1], xs[1]);
          StrictBelow(xs[0], xs[1], xs[k]);
        }
      }
    }
  }

  /** A set has one strictly ordered listing. */
  lemma {:induction false} ListingUnique(a: seq<string>, b: seq<string>)
    requires StrictlySorted(a) && StrictlySorted(b)
    requires forall x :: x in a <==> x in b
    ensures a == b
  {
    assert a == [] || a[0] in a;
    assert b == [] || b[0] in b;
    if a != [] && b != [] {
      HeadIsLeast(a, b[0]);
      HeadIsLeast(b, a[0]);
      LexTotal(a[0], b[0]);
      forall x ensures x in a[1..] <==> x in b[1..] {
        TailMembers(a, x);
        TailMembers(b, x);
      }
      ListingUnique(a[1..], b[1..]);
      assert a == [a[0]] + a[1..] && b == [b[0]] + b[1..];
    }
  }

  lemma HeadIsLeast(xs: seq<string>, x: string)
    requires StrictlySorted(xs) && x in xs
    ensures LexLe(xs[0], x)
  {
    LexTotal(x, x);
    var k :| 0 <= k < |xs| && xs[k] == x;
    assert k > 0 ==> LexLt(xs[0], xs[k]);
  }

  lemma TailMembers(xs: seq<string>, x: string)
    requires StrictlySorted(xs) && xs != []
    ensures x in xs[1..] <==> x in xs && x != xs[0]
  {
    assert xs == [xs[0]] + xs[1..];
    if x in xs[1..] {
      var k :| 0 <= k < |xs[1..]| && xs[1..][k] == x;
      assert LexLt(xs[0], xs[k + 1]);
    }
  }

  function SplitFields(sourceGroupKey: string, members: seq<string>): (r: Fields) {
    [Some("thread-group-split"), Some(sourceGroupKey)] + Present(members)
  }

  function Present(members: seq<string>): (r: Fields)
    ensures |r| == |members| && forall k :: 0 <= k < |r| ==> r[k] == Some(members[k])
  {
    seq(|members|, k requires 0 <= k < |members| => Some(members[k]))
  }

  function Members(members: seq<string>): set<string> {
    set m | m in members
  }

  /** The listing of a member set that is hashed. */
  ghost function Listing(members: seq<string>): (r: seq<string>)
    ensures StrictlySorted(r) && forall m :: m in r <==> m in members
  {
    DedupStrict(Sort(members));
    assert forall m :: m in members <==> m in multiset(members);
    assert forall m :: m in Sort(members) <==> m in multiset(Sort(members));
    Dedup(Sort(members))
  }

  ghost function SplitKey(p: Primitives, sourceGroupKey: string, members: seq<string>): string {
    HashFields(p, SplitFields(sourceGroupKey, Listing(members)))
  }

  /** `split_group_canonical_key`: a copy of the members is sorted and deduplicated. */
  method SplitGroupCanonicalKey(p: Primitives, sourceGroupKey: string, members: seq<string>)
    returns (key: string)
    ensures key == SplitKey(p, sourceGroupKey, members)
  {
    var sortedMembers := members;
    sortedMembers := Sort(sortedMembers);
    sortedMembers := Dedup(sortedMembers);
    var fields: Fields := [];
    fields := fields + [Some("thread-group-split")];
    fields := fields + [Some(sourceGroupKey)];
    fields := fields + Present(sortedMembers);
    assert fields == SplitFields(sourceGroupKey, Listing(members));
    key := HashFields(p, fields);
  }

  /** The split key is a function of the set of members. */
  lemma SplitKeyOfSet(p: Primitives, group: string, a: seq<string>, b: seq<string>)
    requires Members(a) == Members(b)
    ensures SplitKey(p, group, a) == SplitKey(p, group, b)
  {
    forall x ensures x in Listing(a) <==> x in Listing(b) {
      assert x in a <==> x in Members(a);
      assert x in b <==> x in Members(b);
    }
    ListingUnique(Listing(a), Listing(b));
  }

  /** For normalized members it determines the set and the group, unless SHA-256 collides. */
  lemma SplitKeyInjective(
      p: Primitives, group: string, a: seq<string>, group': string, b: seq<string>)
    requires forall m :: m in a || m in b ==> p.nfc(m) == m
    requires SplitKey(p, group, a) == SplitKey(p, group', b)
    ensures (p.nfc(group) == p.nfc(group') && Members(a) == Members(b))
         || Collision(p, Serialize(p, SplitFields(group, Listing(a))), Serialize(p, SplitFields(group', Listing(b))))
  {
    var la, lb := Listing(a), Listing(b);
    HashInjective(p, SplitFields(group, la), SplitFields(group', lb));
    if Normalize(p, SplitFields(group, la)) == Normalize(p, SplitFields(group', lb)) {
      SplitFieldsAgree(p, group, la, group', lb);
      assert forall m :: m in a <==> m in b;
    }
  }

  lemma SplitFieldsAgree(p: Primitives, group: string, a: seq<string>, group': string, b: seq<string>)
    requires forall m :: m in a || m in b ==> p.nfc(m) == m
    requires Normalize(p, SplitFields(group, a)) == Normalize(p, SplitFields(group', b))
    ensures p.nfc(group) == p.nfc(group') && a == b
  {
    var fa, fb := SplitFields(group, a), SplitFields(group', b);
    assert |fa| == |Normalize(p, fa)| == |fb|;
    AgreeAt(p, fa, fb, 1);
    forall k | 0 <= k < |a| ensures a[k] == b[k] {
      AgreeAt(p, fa, fb, k + 2);
      assert a[k] in a && b[k] in b;
    }
  }

  /** The two field lists hash apart, unless SHA-256 collides on them. */
  ghost predicate KeysDiffer(p: Primitives, a: Fields, b: Fields) {
    HashFields(p, a) != HashFields(p, b) || Collision(p, Serialize(p, a), Serialize(p, b))
  }

  /** The three kinds of key never coincide, unless SHA-256 collides on what they hash. */
  lemma KeyDomainsDisjoint(
      p: Primitives, identity: SourceIdentity, root: string, group: string, members: seq<string>)
    requires Lawful(p)
    ensures var split := SplitFields(group, Listing(members));
      ReconcilerGroupCanonicalKey(p, root) == SplitKey(p, group, members) ==>
        Collision(p, Serialize(p, RootFields(root)), Serialize(p, split))
    ensures SourceThreadCanonicalKey(p, identity) == Some(ReconcilerGroupCanonicalKey(p, root)) ==>
      Collision(p, Serialize(p, SourceThreadFields(identity)), Serialize(p, RootFields(root)))
    ensures var split := SplitFields(group, Listing(members));
      SourceThreadCanonicalKey(p, identity) == Some(SplitKey(p, group, members)) ==>
        Collision(p, Serialize(p, SourceThreadFields(identity)), Serialize(p, split))
  {
    RootAndSplitTagged(p, root, group, Listing(members));
    DifferentTags(p, RootFields(root), SplitFields(group, Listing(members)), 17, 18);
    if identity.identityScope.Known? {
      SourceTagged(p, identity);
      DifferentTags(p, SourceThreadFields(identity), RootFields(root), 13, 17);
      DifferentTags(p, SourceThreadFields(identity), SplitFields(group, Listing(members)), 13, 18);
    }
  }

  /** The leading field is a tag whose normal form has `length` bytes. */
  ghost predicate Tagged(p: Primitives, fields: Fields, length: nat) {
    fields != [] && fields[0].Some? && |p.nfc(fields[0].value)| == length
  }

  lemma SourceTagged(p: Primitives, identity: SourceIdentity)
    requires Lawful(p) && identity.identityScope.Known?
    ensures Tagged(p, SourceThreadFields(identity), 13)
  {
    assert IsAscii("thread-source");
  }

  lemma RootAndSplitTagged(p: Primitives, root: string, group: string, members: seq<string>)
    requires Lawful(p)
    ensures Tagged(p, RootFields(root), 17)
    ensures Tagged(p, SplitFields(group, members), 18)
  {
    assert IsAscii("thread-group-root") && IsAscii("thread-group-split");
  }

  lemma DifferentTags(p: Primitives, a: Fields, b: Fields, m: nat, n: nat)
    requires Tagged(p, a, m) && Tagged(p, b, n) && m != n
    ensures KeysDiffer(p, a, b)
  {
    assert Normalize(p, a)[0] != Normalize(p, b)[0];
    if HashFields(p, a) == HashFields(p, b) {
      HashInjective(p, a, b);
    }
  }

  datatype Evidence = Evidence(
    fingerprintVersion: string, origin: string, adapterVersion: string,
    subject: SourceIdentity, candidateParent: Option<SourceIdentity>,
    relationKind: string, evidenceKind: string, polarity: string,
    sourceConfidence: string, sourceRecordLocator: string)

  function IdentityFields(identity: SourceIdentity): Fields {
    [Some(identity.source),
     Some(if identity.identityScope.Known? then "known" else "unknown"),
     if identity.identityScope.Known? then Some(identity.identityScope.scope) else None,
     Some(LegacyOwnerScope(identity.userId)),
     Some(identity.nativeId)]
  }

  ghost function EvidenceFields(e: Evidence): Fields {
    [Some(e.fingerprintVersion), Some(e.origin), Some(e.adapterVersion)]
    + IdentityFields(e.subject)
    + [Some(if e.candidateParent.Some? then "present" else "absent")]
    + (if e.candidateParent.Some? then IdentityFields(e.candidateParent.value) else [])
    + [Some(e.relationKind), Some(e.evidenceKind), Some(e.polarity),
       Some(e.sourceConfidence), Some(e.sourceRecordLocator)]
  }

  /** `evidence_fingerprint`: the field list grows section by section, then is hashed. */
  method EvidenceFingerprint(p: Primitives, e: Evidence) returns (fingerprint: string)
    ensures fingerprint == HashFields(p, EvidenceFields(e))
  {
    var fields: Fields := [Some(e.fingerprintVersion), Some(e.origin), Some(e.adapterVersion)];
    fields := fields + IdentityFields(e.subject);
    fields := fields + [Some(if e.candidateParent.Some? then "present" else "absent")];
    if e.candidateParent.Some? {
      fields := fields + IdentityFields(e.candidateParent.value);
    } else {
      assert fields == fields + [];
    }
    fields := fields + [Some(e.relationKind), Some(e.evidenceKind), Some(e.polarity),
                        Some(e.sourceConfidence), Some(e.sourceRecordLocator)];
    fingerprint := HashFields(p, fields);
  }

  /** What two fingerprinted observations are told apart by. */
  ghost predicate SameEvidence(p: Primitives, a: Evidence, b: Evidence) {
    && p.nfc(a.fingerprintVersion) == p.nfc(b.fingerprintVersion)
    && p.nfc(a.origin) == p.nfc(b.origin)
    && p.nfc(a.adapterVersion) == p.nfc(b.adapterVersion)
    && SameIdentity(p, a.subject, b.subject)
    && a.candidateParent.Some? == b.candidateParent.Some?
    && (a.candidateParent.Some? ==> SameIdentity(p, a.candidateParent.value, b.candidateParent.value))
    && p.nfc(a.relationKind) == p.nfc(b.relationKind)
    && p.nfc(a.evidenceKind) == p.nfc(b.evidenceKind)
    && p.nfc(a.polarity) == p.nfc(b.polarity)
    && p.nfc(a.sourceConfidence) == p.nfc(b.sourceConfidence)
    && p.nfc(a.sourceRecordLocator) == p.nfc(b.sourceRecordLocator)
  }

  /** Five fields at the same offset in two equal lists carry the same identity. */
  lemma IdentityAt(p: Primitives, a: Fields, b: Fields, k: nat, x: SourceIdentity, y: SourceIdentity)
    requires Lawful(p) && Normalize(p, a) == Normalize(p, b)
    requires k + 5 <= |a| && k + 5 <= |b|
    requires a[k..k + 5] == IdentityFields(x) && b[k..k + 5] == IdentityFields(y)
    ensures SameIdentity(p, x, y)
  {
    forall j | 0 <= j < 5
      ensures NormalizeField(p, IdentityFields(x)[j]) == NormalizeField(p, IdentityFields(y)[j])
    {
      AgreeAt(p, a, b, k + j);
      assert a[k + j] == a[k..k + 5][j] && b[k + j] == b[k..k + 5][j];
    }
    var fx, fy := IdentityFields(x), IdentityFields(y);
    assert NormalizeField(p, fx[0]) == NormalizeField(p, fy[0]);
    assert NormalizeField(p, fx[2]) == NormalizeField(p, fy[2]);
    assert NormalizeField(p, fx[3]) == NormalizeField(p, fy[3]);
    assert NormalizeField(p, fx[4]) == NormalizeField(p, fy[4]);
    OwnerScopeInjective(p, x.userId, y.userId);
  }

  /** Where each part of an observation sits in its field list. */
  ghost predicate Layout(fields: Fields, e: Evidence) {
    var tail := if e.candidateParent.Some? then 14 else 9;
    && |fields| == tail + 5
    && fields[0] == Some(e.fingerprintVersion)
    && fields[1] == Some(e.origin)
    && fields[2] == Some(e.adapterVersion)
    && fields[3..8] == IdentityFields(e.subject)
    && (e.candidateParent.Some? ==> fields[9..14] == IdentityFields(e.candidateParent.value))
    && fields[tail] == Some(e.relationKind)
    && fields[tail + 1] == Some(e.evidenceKind)
    && fields[tail + 2] == Some(e.polarity)
    && fields[tail + 3] == Some(e.sourceConfidence)
    && fields[tail + 4] == Some(e.sourceRecordLocator)
  }

  lemma EvidenceLayout(e: Evidence)
    ensures Layout(EvidenceFields(e), e)
  {
    var head: Fields := [Some(e.fingerprintVersion), Some(e.origin), Some(e.adapterVersion)];
    var upToSubject := head + IdentityFields(e.subject);
    assert upToSubject[3..8] == IdentityFields(e.subject);
    var upToTag := upToSubject + [Some(if e.candidateParent.Some? then "present" else "absent")];
    assert EvidenceFields(e)[..9] == upToTag && EvidenceFields(e)[3..8] == upToTag[3..8] == upToSubject[3..8];
  }

  /** Fingerprints identify the whole observation, unless SHA-256 collides. */
  lemma FingerprintInjective(p: Primitives, a: Evidence, b: Evidence)
    requires Lawful(p) && HashFields(p, EvidenceFields(a)) == HashFields(p, EvidenceFields(b))
    ensures SameEvidence(p, a, b)
         || Collision(p, Serialize(p, EvidenceFields(a)), Serialize(p, EvidenceFields(b)))
  {
    HashInjective(p, EvidenceFields(a), EvidenceFields(b));
    EvidenceLayout(a);
    EvidenceLayout(b);
    if Normalize(p, EvidenceFields(a)) == Normalize(p, EvidenceFields(b)) {
      EvidenceAgrees(p, a, b, EvidenceFields(a), EvidenceFields(b));
    }
  }

  /** A field whose position and text are known agrees up to NFC. */
  lemma TextAt(p: Primitives, a: Fields, b: Fields, k: nat, x: string, y: string)
    requires Normalize(p, a) == Normalize(p, b)
    requires k < |a| && k < |b| && a[k] == Some(x) && b[k] == Some(y)
    ensures p.nfc(x) == p.nfc(y)
  {
    AgreeAt(p, a, b, k);
  }

  lemma EvidenceAgrees(p: Primitives, a: Evidence, b: Evidence, fa: Fields, fb: Fields)
    requires Lawful(p) && Normalize(p, fa) == Normalize(p, fb)
    requires Layout(fa, a) && Layout(fb, b)
    ensures SameEvidence(p, a, b)
  {
    assert |fa| == |Normalize(p, fa)| == |fb|;
    TextAt(p, fa, fb, 0, a.fingerprintVersion, b.fingerprintVersion);
    TextAt(p, fa, fb, 1, a.origin, b.origin);
    TextAt(p, fa, fb, 2, a.adapterVersion, b.adapterVersion);
    IdentityAt(p, fa, fb, 3, a.subject, b.subject);
    if a.candidateParent.Some? {
      IdentityAt(p, fa, fb, 9, a.candidateParent.value, b.candidateParent.value);
    }
    var tail := if a.candidateParent.Some? then 14 else 9;
    TextAt(p, fa, fb, tail, a.relationKind, b.relationKind);
    TextAt(p, fa, fb, tail + 1, a.evidenceKind, b.evidenceKind);
    TextAt(p, fa, fb, tail + 2, a.polarity, b.polarity);
    TextAt(p, fa, fb, tail + 3, a.sourceConfidence, b.sourceConfidence);
    TextAt(p, fa, fb, tail + 4, a.sourceRecordLocator, b.sourceRecordLocator);
  }
}
