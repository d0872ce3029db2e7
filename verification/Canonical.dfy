/**
 The canonical records every source is parsed into, and the memory row an entry
 becomes: parser metadata at the bottom, the canonical layer above it, and the
 importer's fixed keys on top.
 */
module Canonical {
  import opened Wrappers
  import opened Text
  import opened JsonTree
  import CanonicalKey

  /** `canonical.tool`, `canonical.attachment`, `canonical.raw`. */
  datatype Addons = Addons(tool: Option<Json>, attachment: Option<Json>, raw: Option<Fields>)

  datatype Entry = Entry(
    externalId: string, parentExternalIds: seq<string>,
    role: int, contentType: int, content: string, metadata: Fields,
    timestampMs: int, importOrder: int, kindTag: string, canonical: Addons)

  /** An adapter's identity of a session; the importer adds the owner. */
  datatype Identity = Identity(source: string, identityScope: CanonicalKey.IdentityScope, nativeId: string)

  datatype Session = Session(
    sourceId: string, sessionId: string, channel: string, sourceLabels: seq<string>,
    sourceMetadata: Json, sourceIdentity: Option<Identity>, observations: seq<Identity>)

  datatype MemoryData = MemoryData(
    userId: I64, content: string, contentType: int, metadata: Json, createdAt: int, role: int,
    externalId: string, mediaObjectId: Option<int>)

  /** The trees a session and an entry carry are real ordered maps. */
  ghost predicate WellFormedTrees(session: Session, entry: Entry) {
    && WellFormed(session.sourceMetadata)
    && WellFormed(Obj(entry.metadata))
    && (entry.canonical.tool.Some? ==> WellFormed(entry.canonical.tool.value))
    && (entry.canonical.attachment.Some? ==> WellFormed(entry.canonical.attachment.value))
    && (entry.canonical.raw.Some? ==> WellFormed(Obj(entry.canonical.raw.value)))
  }

  const RESERVED: set<string> := {"source", "kind", "session", "tool", "attachment", "raw"}

  /** `metadata.retain`: keys that are, or would become, reserved are dropped. */
  function Retain(fields: Fields): (r: Fields)
    ensures forall f: Field :: f in r <==> f in fields && StripText(f.key) !in RESERVED
    ensures KeysSorted(fields) ==> KeysSorted(r)
  {
    if fields == [] then []
    else
      var init, last := fields[..|fields| - 1], fields[|fields| - 1];
      assert fields == init + [last];
      if StripText(last.key) in RESERVED then Retain(init)
      else
        assert KeysSorted(fields) ==> forall f: Field :: f in init ==> LexLt(f.key, last.key);
        Retain(init) + [last]
  }

  function InsertIf(fields: Fields, key: string, value: Option<Json>): Fields {
    match value
    case None => fields
    case Some(v) => Insert(fields, key, v)
  }

  /** The attachment is embedded only while no media object stands for it. */
  function EmbeddedAttachment(entry: Entry, mediaId: Option<int>): Option<Json> {
    if mediaId.None? then entry.canonical.attachment else None
  }

  function RawValue(entry: Entry): Option<Json> {
    match entry.canonical.raw
    case None => None
    case Some(r) => Some(Obj(r))
  }

  const LAYERS: seq<string> := ["tool", "attachment", "raw", "source", "kind", "session"]

  function LayerValues(session: Session, entry: Entry, mediaId: Option<int>): seq<Option<Json>> {
    [entry.canonical.tool, EmbeddedAttachment(entry, mediaId), RawValue(entry),
     Some(Str(session.sourceId)), Some(Str(entry.kindTag)), Some(session.sourceMetadata)]
  }

  function MergedFields(session: Session, entry: Entry, mediaId: Option<int>): Fields {
    var own := Retain(entry.metadata);
    var withTool := InsertIf(own, "tool", entry.canonical.tool);
    var withAttachment := InsertIf(withTool, "attachment", EmbeddedAttachment(entry, mediaId));
    var withRaw := InsertIf(withAttachment, "raw", RawValue(entry));
    var withSource := Insert(withRaw, "source", Str(session.sourceId));
    var withKind := Insert(withSource, "kind", Str(entry.kindTag));
    Insert(withKind, "session", session.sourceMetadata)
  }

  function MemoryOf(session: Session, entry: Entry, userId: I64, mediaId: Option<int>): MemoryData {
    MemoryData(userId, StripText(entry.content), entry.contentType,
               Strip(Obj(MergedFields(session, entry, mediaId))),
               entry.timestampMs, entry.role, entry.externalId, mediaId)
  }

  /** `build_memory_data`, as a release build runs it: the metadata map is edited in place. */
  method BuildMemoryData(session: Session, entry: Entry, userId: I64, mediaIds: map<string, int>)
    returns (data: MemoryData)
    requires WellFormedTrees(session, entry)
    ensures data == MemoryOf(session, entry, userId, MediaOf(mediaIds, entry.externalId))
  {
    var metadata := Retain(entry.metadata);
    if entry.canonical.tool.Some? {
      metadata := Insert(metadata, "tool", entry.canonical.tool.value);
    }
    var resolved := MediaOf(mediaIds, entry.externalId);
    if resolved.None? && entry.canonical.attachment.Some? {
      metadata := Insert(metadata, "attachment", entry.canonical.attachment.value);
    }
    if entry.canonical.raw.Some? {
      metadata := Insert(metadata, "raw", Obj(entry.canonical.raw.value));
    }
    metadata := Insert(metadata, "source", Str(session.sourceId));
    metadata := Insert(metadata, "kind", Str(entry.kindTag));
    metadata := Insert(metadata, "session", session.sourceMetadata);
    MergedIsWellFormed(session, entry, resolved);
    var value := StripNulBytesInValue(Obj(metadata));
    data := MemoryData(userId, StripText(entry.content), entry.contentType, value,
                       entry.timestampMs, entry.role, entry.externalId, resolved);
  }

  lemma MergedIsWellFormed(session: Session, entry: Entry, mediaId: Option<int>)
    requires WellFormedTrees(session, entry)
    ensures WellFormed(Obj(MergedFields(session, entry, mediaId)))
  {
    var own := Retain(entry.metadata);
    InsertIfWellFormed(own, "tool", entry.canonical.tool);
    var withTool := InsertIf(own, "tool", entry.canonical.tool);
    InsertIfWellFormed(withTool, "attachment", EmbeddedAttachment(entry, mediaId));
    var withAttachment := InsertIf(withTool, "attachment", EmbeddedAttachment(entry, mediaId));
    InsertIfWellFormed(withAttachment, "raw", RawValue(entry));
    var withRaw := InsertIf(withAttachment, "raw", RawValue(entry));
    InsertIfWellFormed(withRaw, "source", Some(Str(session.sourceId)));
    var withSource := Insert(withRaw, "source", Str(session.sourceId));
    InsertIfWellFormed(withSource, "kind", Some(Str(entry.kindTag)));
    InsertIfWellFormed(Insert(withSource, "kind", Str(entry.kindTag)), "session", Some(session.sourceMetadata));
  }

  lemma MergedIsLayered(session: Session, entry: Entry, mediaId: Option<int>)
    ensures MergedFields(session, entry, mediaId)
         == ApplyLayers(Retain(entry.metadata), LAYERS, LayerValues(session, entry, mediaId))
  {
    var own, values := Retain(entry.metadata), LayerValues(session, entry, mediaId);
    ApplyStep(own, LAYERS, values, 0);
    ApplyStep(own, LAYERS, values, 1);
    ApplyStep(own, LAYERS, values, 2);
    ApplyStep(own, LAYERS, values, 3);
    ApplyStep(own, LAYERS, values, 4);
    ApplyStep(own, LAYERS, values, 5);
    assert LAYERS[..6] == LAYERS && values[..6] == values;
  }

  lemma ApplyStep(own: Fields, keys: seq<string>, values: seq<Option<Json>>, n: nat)
    requires |keys| == |values| && n < |keys|
    ensures ApplyLayers(own, keys[..0], values[..0]) == own
    ensures ApplyLayers(own, keys[..n + 1], values[..n + 1])
         == InsertIf(ApplyLayers(own, keys[..n], values[..n]), keys[n], values[n])
  {
    assert keys[..n + 1][..n] == keys[..n] && values[..n + 1][..n] == values[..n];
  }

  function MediaOf(mediaIds: map<string, int>, externalId: string): Option<int> {
    if externalId in mediaIds then Some(mediaIds[externalId]) else None
  }

  lemma InsertIfWellFormed(fields: Fields, key: string, value: Option<Json>)
    requires WellFormed(Obj(fields)) && (value.Some? ==> WellFormed(value.value))
    ensures WellFormed(Obj(InsertIf(fields, key, value)))
  {
    if value.Some? {
      InsertKeepsOrder(fields, key, value.value);
    }
  }

  /** Inserting under a clean key decides that key and leaves every other stripped key alone. */
  lemma {:induction false} InsertLastRaw(fields: Fields, key: string, value: Json, k: string)
    requires NUL !in key
    ensures k != key ==> LastRaw(Insert(fields, key, value), k) == LastRaw(fields, k)
    ensures (forall f: Field :: f in fields && StripText(f.key) == key ==> f.key == key)
        ==> LastRaw(Insert(fields, key, value), key) == Some(value)
  {
    if fields != [] {
      var n := |fields| - 1;
      InsertLastRaw(fields[..n], key, value, k);
      var r := Insert(fields, key, value);
      assert fields[n] in fields && forall f: Field :: f in fields[..n] ==> f in fields;
      if fields[n].key == key || !LexLt(fields[n].key, key) {
        assert r[..|r| - 1] == if fields[n].key == key then fields[..n] else Insert(fields[..n], key, value);
      } else {
        assert r[..|r| - 1] == fields;
      }
    }
  }

  lemma {:induction false} RetainLastRaw(fields: Fields, k: string)
    ensures LastRaw(Retain(fields), k) == if k in RESERVED then None else LastRaw(fields, k)
  {
    if fields != [] {
      var init, last := fields[..|fields| - 1], fields[|fields| - 1];
      RetainLastRaw(init, k);
      var r := Retain(fields);
      assert StripText(last.key) !in RESERVED ==> r[..|r| - 1] == Retain(init);
    }
  }

  /** No field spells a reserved key with NULs in it. */
  ghost predicate NoLaundering(fields: Fields, reserved: set<string>) {
    forall f: Field :: f in fields && StripText(f.key) in reserved ==> f.key == StripText(f.key)
  }

  /** One layer: `key` takes the given value, if there is one, and nothing else changes. */
  lemma Layer(fields: Fields, reserved: set<string>, key: string, value: Option<Json>, k: string)
    requires NoLaundering(fields, reserved) && key in reserved && NUL !in key
    ensures NoLaundering(InsertIf(fields, key, value), reserved)
    ensures LastRaw(InsertIf(fields, key, value), k) == Over(key, value, k, LastRaw(fields, k))
  {
    if value.Some? {
      InsertLastRaw(fields, key, value.value, k);
    }
  }

  function Over(key: string, value: Option<Json>, k: string, below: Option<Json>): Option<Json> {
    if k == key && value.Some? then value else below
  }

  function ApplyLayers(own: Fields, keys: seq<string>, values: seq<Option<Json>>): Fields
    requires |keys| == |values|
  {
    if keys == [] then own
    else InsertIf(ApplyLayers(own, keys[..|keys| - 1], values[..|keys| - 1]), keys[|keys| - 1], values[|keys| - 1])
  }

  /** Layers under distinct reserved keys over metadata that has none of them. */
  lemma {:induction false} LayersLastRaw(
      own: Fields, reserved: set<string>, keys: seq<string>, values: seq<Option<Json>>, k: string)
    requires NoLaundering(own, reserved) && |keys| == |values|
    requires forall i :: 0 <= i < |keys| ==> keys[i] in reserved && NUL !in keys[i]
    requires forall i, j :: 0 <= i < j < |keys| ==> keys[i] != keys[j]
    ensures NoLaundering(ApplyLayers(own, keys, values), reserved)
    ensures forall i :: 0 <= i < |keys| && k == keys[i] && LastRaw(own, k).None? ==>
      LastRaw(ApplyLayers(own, keys, values), k) == values[i]
    ensures k !in keys ==> LastRaw(ApplyLayers(own, keys, values), k) == LastRaw(own, k)
  {
    if keys != [] {
      var n := |keys| - 1;
      LayersLastRaw(own, reserved, keys[..n], values[..n], k);
      Layer(ApplyLayers(own, keys[..n], values[..n]), reserved, keys[n], values[n], k);
      assert k == keys[n] ==> k !in keys[..n];
    }
  }

  lemma LayersDistinct()
    ensures forall i :: 0 <= i < 6 ==> LAYERS[i] in RESERVED && NUL !in LAYERS[i]
    ensures forall i, j :: 0 <= i < j < 6 ==> LAYERS[i] != LAYERS[j]
    ensures forall k :: k in RESERVED <==> k in LAYERS
  {
    assert "tool"[0] != "kind"[0];
    assert LAYERS[0] == "tool" && LAYERS[1] == "attachment" && LAYERS[2] == "raw"
        && LAYERS[3] == "source" && LAYERS[4] == "kind" && LAYERS[5] == "session";
  }

  /** The value each stripped key ends up with, before the strip. */
  lemma MergedLastRaw(session: Session, entry: Entry, mediaId: Option<int>, k: string)
    ensures forall i :: 0 <= i < 6 && k == LAYERS[i] ==>
      LastRaw(MergedFields(session, entry, mediaId), k) == LayerValues(session, entry, mediaId)[i]
    ensures k !in LAYERS ==>
      LastRaw(MergedFields(session, entry, mediaId), k) == LastRaw(entry.metadata, k)
  {
    LayersDistinct();
    MergedIsLayered(session, entry, mediaId);
    RetainLastRaw(entry.metadata, k);
    LayersLastRaw(Retain(entry.metadata), RESERVED, LAYERS, LayerValues(session, entry, mediaId), k);
  }

  function StripOption(v: Option<Json>): Option<Json> {
    match v
    case None => None
    case Some(j) => Some(Strip(j))
  }

  /** The stored value under a top-level key. */
  function Stored(session: Session, entry: Entry, mediaId: Option<int>, key: string): Option<Json> {
    Lookup(StripFields(MergedFields(session, entry, mediaId)), key)
  }

  /**
   Whatever the parser put into the entry's metadata, laundered keys included:
   the importer's own keys win, each canonical layer shows up exactly when it is
   there, and every other key keeps the parser's value.
   */
  lemma FixedKeysWin(session: Session, entry: Entry, userId: I64, mediaId: Option<int>, key: string)
    ensures MemoryOf(session, entry, userId, mediaId).metadata
         == Obj(StripFields(MergedFields(session, entry, mediaId)))
    ensures forall i :: 0 <= i < 6 && key == LAYERS[i] ==>
      Stored(session, entry, mediaId, key) == StripOption(LayerValues(session, entry, mediaId)[i])
    ensures key !in LAYERS ==>
      Stored(session, entry, mediaId, key) == StripOption(LastRaw(entry.metadata, key))
  {
    MergedLastRaw(session, entry, mediaId, key);
    MergeWinner(MergedFields(session, entry, mediaId), key);
  }

  lemma StoredLayer(session: Session, entry: Entry, userId: I64, mediaId: Option<int>, i: nat)
    requires i < 6
    ensures Stored(session, entry, mediaId, LAYERS[i]) == StripOption(LayerValues(session, entry, mediaId)[i])
  {
    hide Stored, LayerValues, StripOption, MergedFields, LastRaw, Retain;
    FixedKeysWin(session, entry, userId, mediaId, LAYERS[i]);
  }

  /** The reserved keys by name: the importer's own, and the canonical layer's exactly when they are there. */
  lemma ReservedKeysByName(session: Session, entry: Entry, userId: I64, mediaId: Option<int>)
    ensures Stored(session, entry, mediaId, "source") == Some(Str(StripText(session.sourceId)))
    ensures Stored(session, entry, mediaId, "kind") == Some(Str(StripText(entry.kindTag)))
    ensures Stored(session, entry, mediaId, "session") == Some(Strip(session.sourceMetadata))
    ensures Stored(session, entry, mediaId, "tool") == StripOption(entry.canonical.tool)
    ensures Stored(session, entry, mediaId, "raw") == StripOption(RawValue(entry))
    ensures Stored(session, entry, mediaId, "attachment")
         == if mediaId.None? then StripOption(entry.canonical.attachment) else None
  {
    hide Stored, MergedFields, LastRaw, StripText;
    StoredLayer(session, entry, userId, mediaId, 0);
    StoredLayer(session, entry, userId, mediaId, 1);
    StoredLayer(session, entry, userId, mediaId, 2);
    StoredLayer(session, entry, userId, mediaId, 3);
    StoredLayer(session, entry, userId, mediaId, 4);
    StoredLayer(session, entry, userId, mediaId, 5);
  }

  /** The emitted content is the entry's without its NULs, all of it, and the other columns are the entry's own. */
  lemma ContentKeepsTheRest(session: Session, entry: Entry, userId: I64, mediaId: Option<int>, a: string, b: string)
    requires entry.content == a + [NUL] + b
    ensures var row := MemoryOf(session, entry, userId, mediaId);
      && row.content == MemoryOf(session, entry.(content := a), userId, mediaId).content
                        + MemoryOf(session, entry.(content := b), userId, mediaId).content
      && (NUL !in a && NUL !in b ==> row.content == a + b)
      && row.userId == userId && row.mediaObjectId == mediaId && row.externalId == entry.externalId
      && row.createdAt == entry.timestampMs && row.role == entry.role && row.contentType == entry.contentType
  {
    hide StripText, StripFields, MergedFields;
    StripTextDropsNul(a, b);
  }

  /** Neither the content nor any key or text of the metadata reaches the database with a NUL. */
  lemma MemoryIsNulFree(session: Session, entry: Entry, userId: I64, mediaId: Option<int>)
    ensures NUL !in MemoryOf(session, entry, userId, mediaId).content
    ensures NoNul(MemoryOf(session, entry, userId, mediaId).metadata)
  {
    StripIsClean(Obj(MergedFields(session, entry, mediaId)));
  }
}
