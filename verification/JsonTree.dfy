/**
 JSON trees as serde_json keeps them, and the NUL strip that every tree passes
 through before it reaches the database.
 */
module JsonTree {
  import opened Wrappers
  import opened Text

  /** An object is its fields in key order, as the library's ordered map iterates. */
  datatype Json =
    | Null
    | Bool(b: bool)
    | Num(n: int)
    | Str(s: string)
    | Arr(items: seq<Json>)
    | Obj(fields: seq<Field>)

  datatype Field = Field(key: string, value: Json)

  type Fields = seq<Field>

  ghost predicate KeysSorted(fields: Fields) {
    forall i, j :: 0 <= i < j < |fields| ==> LexLt(fields[i].key, fields[j].key)
  }

  ghost predicate WellFormed(v: Json) {
    match v
    case Arr(items) => forall item :: item in items ==> WellFormed(item)
    case Obj(fields) => KeysSorted(fields) && forall f: Field :: f in fields ==> WellFormed(f.value)
    case _ => true
  }

  function Lookup(fields: Fields, key: string): Option<Json> {
    if fields == [] then None
    else
      var last := fields[|fields| - 1];
      if last.key == key then Some(last.value) else Lookup(fields[..|fields| - 1], key)
  }

  /** `Map::insert`: the key keeps its place in the order, a present value is replaced. */
  function Insert(fields: Fields, key: string, value: Json): (r: Fields)
    ensures forall f :: f in r ==> f == Field(key, value) || f in fields
  {
    if fields == [] then [Field(key, value)]
    else
      var init, last := fields[..|fields| - 1], fields[|fields| - 1];
      if last.key == key then init + [Field(key, value)]
      else if LexLt(last.key, key) then fields + [Field(key, value)]
      else Insert(init, key, value) + [last]
  }

  lemma {:induction false} InsertKeepsOrder(fields: Fields, key: string, value: Json)
    requires KeysSorted(fields)
    ensures KeysSorted(Insert(fields, key, value))
  {
    if fields != [] {
      var init, last := fields[..|fields| - 1], fields[|fields| - 1];
      LexTotal(last.key, key);
      if last.key != key {
        if LexLt(last.key, key) {
          forall i | 0 <= i < |fields| ensures LexLt(fields[i].key, key) {
            LexTotal(last.key, last.key);
            if i < |init| {
              StrictBelow(fields[i].key, last.key, key);
            }
          }
        } else {
          InsertKeepsOrder(init, key, value);
          var r := Insert(init, key, value);
          forall i | 0 <= i < |r| ensures LexLt(r[i].key, last.key) {
            assert r[i] in r;
            if r[i] in init {
              var k :| 0 <= k < |init| && init[k] == r[i];
              assert fields[k] == r[i];
            }
          }
        }
      }
    }
  }

  lemma {:induction false} InsertLookup(fields: Fields, key: string, value: Json, k: string)
    ensures Lookup(Insert(fields, key, value), key) == Some(value)
    ensures k != key ==> Lookup(Insert(fields, key, value), k) == Lookup(fields, k)
  {
    if fields != [] {
      var n := |fields| - 1;
      InsertLookup(fields[..n], key, value, k);
      var r := Insert(fields, key, value);
      if fields[n].key == key || !LexLt(fields[n].key, key) {
        assert r[..|r| - 1] == if fields[n].key == key then fields[..n] else Insert(fields[..n], key, value);
      } else {
        assert r[..|r| - 1] == fields;
      }
    }
  }

  const NUL: char := '\0'

  function StripText(s: string): (r: string)
    ensures NUL !in r
    ensures NUL !in s ==> r == s
  {
    if s == "" then ""
    else
      var init := StripText(s[..|s| - 1]);
      if s[|s| - 1] == NUL then init
      else
        assert s == s[..|s| - 1] + [s[|s| - 1]];
        init + [s[|s| - 1]]
  }

  /** The strip works piece by piece ... */
  lemma {:induction false} StripTextJoins(a: string, b: string)
    ensures StripText(a + b) == StripText(a) + StripText(b)
  {
    if b == "" {
      assert a + b == a;
    } else {
      hide StripText;
      var init, last := b[..|b| - 1], b[|b| - 1];
      assert b == init + [last];
      StripTextJoins(a, init);
      StripTextSnoc(a + init, last);
      StripTextSnoc(init, last);
      Reassociate(a, init, [last]);
      Reassociate(StripText(a), StripText(init), if last == NUL then "" else [last]);
    }
  }

  lemma StripTextSnoc(s: string, c: char)
    ensures StripText(s + [c]) == StripText(s) + if c == NUL then "" else [c]
  {
    assert (s + [c])[..|s|] == s;
  }

  /** ... so a NUL goes and everything around it stays, wherever in a text or key it is. */
  lemma StripTextDropsNul(a: string, b: string)
    ensures StripText(a + [NUL] + b) == StripText(a) + StripText(b)
    ensures Strip(Str(a + [NUL] + b)) == Str(StripText(a) + StripText(b))
    ensures NUL !in a && NUL !in b ==> StripText(a + [NUL] + b) == a + b
  {
    StripTextJoins(a + [NUL], b);
    StripTextJoins(a, [NUL]);
    assert StripText([NUL]) == "";
  }

  /** No NUL in any string or key, at any depth. */
  ghost predicate NoNul(v: Json) {
    match v
    case Str(s) => NUL !in s
    case Arr(items) => forall item :: item in items ==> NoNul(item)
    case Obj(fields) => forall f: Field :: f in fields ==> NUL !in f.key && NoNul(f.value)
    case _ => true
  }

  /** What the strip makes of a tree. */
  function Strip(v: Json): Json {
    match v
    case Str(s) => Str(StripText(s))
    case Arr(items) => Arr(StripItems(items))
    case Obj(fields) => Obj(StripFields(fields))
    case _ => v
  }

  function StripItems(items: seq<Json>): (r: seq<Json>)
    ensures |r| == |items|
  {
    if items == [] then []
    else StripItems(items[..|items| - 1]) + [Strip(items[|items| - 1])]
  }

  /** Fields are re-inserted in key order under their stripped keys. */
  function StripFields(fields: Fields): Fields {
    if fields == [] then []
    else
      var last := fields[|fields| - 1];
      Insert(StripFields(fields[..|fields| - 1]), StripText(last.key), Strip(last.value))
  }

  lemma {:induction false} StripIsClean(v: Json)
    ensures NoNul(Strip(v)) && WellFormed(Strip(v))
    decreases v, 1
  {
    match v {
      case Arr(items) => StripItemsClean(items);
      case Obj(fields) => StripFieldsClean(fields);
      case _ =>
    }
  }

  lemma {:induction false} StripItemsClean(items: seq<Json>)
    ensures forall item :: item in StripItems(items) ==> NoNul(item) && WellFormed(item)
    decreases items, 0
  {
    if items != [] {
      StripItemsClean(items[..|items| - 1]);
      StripIsClean(items[|items| - 1]);
    }
  }

  lemma {:induction false} StripFieldsClean(fields: Fields)
    ensures KeysSorted(StripFields(fields))
    ensures forall f: Field :: f in StripFields(fields) ==> NUL !in f.key && NoNul(f.value) && WellFormed(f.value)
    decreases fields, 0
  {
    if fields != [] {
      var init, last := fields[..|fields| - 1], fields[|fields| - 1];
      StripFieldsClean(init);
      StripIsClean(last.value);
      InsertKeepsOrder(StripFields(init), StripText(last.key), Strip(last.value));
    }
  }

  /** A clean tree comes back as it was ... */
  lemma {:induction false} StripOfClean(v: Json)
    requires WellFormed(v) && NoNul(v)
    ensures Strip(v) == v
    decreases v, 1
  {
    match v {
      case Arr(items) => StripItemsOfClean(items);
      case Obj(fields) =>
        StripFieldsOfClean(fields);
        KeepsClean(fields);
      case _ =>
    }
  }

  lemma {:induction false} StripItemsOfClean(items: seq<Json>)
    requires forall item :: item in items ==> WellFormed(item) && NoNul(item)
    ensures StripItems(items) == items
    decreases items, 0
  {
    if items != [] {
      StripItemsOfClean(items[..|items| - 1]);
      StripOfClean(items[|items| - 1]);
    }
  }

  /** The fast path: with clean keys nothing moves, and only the values are rewritten. */
  lemma {:induction false} StripFieldsOfClean(fields: Fields)
    requires KeysSorted(fields) && forall f: Field :: f in fields ==> NUL !in f.key
    ensures StripFields(fields) == StripValues(fields)
  {
    if fields != [] {
      hide StripText, Strip, Insert, LexLt;
      var init, last := fields[..|fields| - 1], fields[|fields| - 1];
      StripFieldsOfClean(init);
      assert last in fields;
      assert init != [] ==> LexLt(init[|init| - 1].key, last.key);
      InsertAtEnd(StripValues(init), last.key, Strip(last.value));
    }
  }

  lemma InsertAtEnd(fields: Fields, key: string, value: Json)
    requires fields != [] ==> LexLt(fields[|fields| - 1].key, key)
    ensures Insert(fields, key, value) == fields + [Field(key, value)]
  {
    LexTotal(key, key);
  }

  function StripValues(fields: Fields): (r: Fields)
    ensures |r| == |fields|
    ensures forall k :: 0 <= k < |r| ==> r[k] == Field(fields[k].key, Strip(fields[k].value))
  {
    if fields == [] then []
    else
      var last := fields[|fields| - 1];
      StripValues(fields[..|fields| - 1]) + [Field(last.key, Strip(last.value))]
  }

  lemma KeepsClean(fields: Fields)
    requires forall f: Field :: f in fields ==> WellFormed(f.value) && NoNul(f.value)
    ensures StripValues(fields) == fields
    decreases fields, 0
  {
    forall k | 0 <= k < |fields| ensures StripValues(fields)[k] == fields[k] {
      assert fields[k] in fields;
      StripOfClean(fields[k].value);
    }
  }

  /** ... so stripping twice is stripping once, although keys may have merged. */
  lemma StripIdempotent(v: Json)
    ensures Strip(Strip(v)) == Strip(v)
  {
    StripIsClean(v);
    StripOfClean(Strip(v));
  }

  /** The value of the last field, in key order, whose stripped key is `key`. */
  function LastRaw(fields: Fields, key: string): Option<Json> {
    if fields == [] then None
    else
      var last := fields[|fields| - 1];
      if StripText(last.key) == key then Some(last.value) else LastRaw(fields[..|fields| - 1], key)
  }

  /** When keys merge, the greatest raw key supplies the value. */
  lemma {:induction false} MergeWinner(fields: Fields, key: string)
    ensures Lookup(StripFields(fields), key)
         == match LastRaw(fields, key) { case None => None case Some(v) => Some(Strip(v)) }
  {
    if fields != [] {
      var init, last := fields[..|fields| - 1], fields[|fields| - 1];
      MergeWinner(init, key);
      InsertLookup(StripFields(init), StripText(last.key), Strip(last.value), key);
    }
  }

  /** `strip_nul_bytes_in_value`, which rewrites the tree it is given. */
  method StripNulBytesInValue(value: Json) returns (stripped: Json)
    requires WellFormed(value)
    ensures stripped == Strip(value)
    decreases value, 1
  {
    stripped := value;
    match value {
      case Str(s) =>
        if NUL in s {
          stripped := Str(StripText(s));
        }
      case Arr(items) =>
        var arr := StripNulBytesInArray(items);
        stripped := Arr(arr);
      case Obj(fields) =>
        var rebuilt := StripNulBytesInObject(fields);
        stripped := Obj(rebuilt);
      case _ =>
    }
  }

  method StripNulBytesInArray(items: seq<Json>) returns (arr: seq<Json>)
    requires forall item :: item in items ==> WellFormed(item)
    ensures arr == StripItems(items)
    decreases items, 0
  {
    arr := items;
    for i := 0 to |items|
      invariant |arr| == |items| && arr[..i] == StripItems(items[..i])
    {
      assert items[..i + 1][..i] == items[..i];
      var item := StripNulBytesInValue(items[i]);
      arr := arr[i := item];
    }
    assert items[..|items|] == items && arr[..|items|] == arr;
  }

  /** A map whose keys are all clean keeps them; otherwise it is rebuilt by insertion. */
  method StripNulBytesInObject(fields: Fields) returns (rebuilt: Fields)
    requires KeysSorted(fields) && forall f: Field :: f in fields ==> WellFormed(f.value)
    ensures rebuilt == StripFields(fields)
    decreases fields, 0
  {
    var needsKeyRewrite := exists f | f in fields :: NUL in f.key;
    rebuilt := [];
    if needsKeyRewrite {
      for i := 0 to |fields|
        invariant rebuilt == StripFields(fields[..i])
      {
        assert fields[..i + 1][..i] == fields[..i];
        var v := StripNulBytesInValue(fields[i].value);
        var cleanKey := if NUL in fields[i].key then StripText(fields[i].key) else fields[i].key;
        rebuilt := Insert(rebuilt, cleanKey, v);
      }
    } else {
      for i := 0 to |fields|
        invariant rebuilt == StripValues(fields[..i])
      {
        assert fields[..i + 1][..i] == fields[..i];
        var v := StripNulBytesInValue(fields[i].value);
        rebuilt := rebuilt + [Field(fields[i].key, v)];
      }
      StripFieldsOfClean(fields);
    }
    assert fields[..|fields|] == fields;
  }
}
