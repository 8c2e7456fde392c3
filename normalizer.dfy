/** `processRecord` (lib/admin/sync-utils.ts): a raw record becomes an app
    record by seeding its identity and timestamps and then writing, in
    mapping order, each mapping's coerced cell at the mapping's app field,
    as a nested path when the field holds a dot. */
module Normalizer {
  import opened Wrappers
  import opened Text
  import opened JsValues
  import opened AirtableRecords
  import opened FieldMappings
  import opened Coercion

  /** An app record: top-level keys to values, nested objects as `Obj`. */
  type Entity = map<string, Value>

  /** The path `_.set` follows for an app field: its dot-separated keys. */
  function KeyPath(appField: string): (r: seq<string>)
    ensures |r| >= 1
  {
    Split(appField, '.')
  }

  /** `_.set(e, path, v)` on plain keys: every missing or non-object step on
      the way is replaced by a fresh object; keys off the path are kept. */
  function SetPath(e: Entity, path: seq<string>, v: Value): (r: Entity)
    requires |path| >= 1
    ensures r.Keys == e.Keys + {path[0]}
    decreases |path|
  {
    var k := path[0];
    if |path| == 1 then e[k := v]
    else e[k := Obj(SetPath(Child(e, k), path[1..], v))]
  }

  /** The object under `k`, or an empty one when there is none. */
  function Child(e: Entity, k: string): Entity {
    if k in e && e[k].Obj? then e[k].fields else map[]
  }

  /** The value at a path, undefined where the path leaves the objects. */
  function GetPath(e: Entity, path: seq<string>): Value
    requires |path| >= 1
    decreases |path|
  {
    var k := path[0];
    if k !in e then Undefined
    else if |path| == 1 then e[k]
    else if e[k].Obj? then GetPath(e[k].fields, path[1..])
    else Undefined
  }

  /** Two paths part somewhere: neither is a prefix of the other. */
  predicate Diverge(p: seq<string>, q: seq<string>)
    requires |p| >= 1 && |q| >= 1
    decreases |p|
  {
    p[0] != q[0] || (|p| > 1 && |q| > 1 && Diverge(p[1..], q[1..]))
  }

  /** The assignment of one mapping: a dotted app field goes through `_.set`,
      any other is a plain key assignment. */
  function WriteField(e: Entity, appField: string, v: Value): (r: Entity)
    ensures GetPath(r, KeyPath(appField)) == v
  {
    WriteFieldIsSetPath(e, appField, v);
    GetAfterSet(e, KeyPath(appField), v);
    if Contains(appField, ".") then SetPath(e, KeyPath(appField), v) else e[appField := v]
  }

  /** What one mapping writes for a record. */
  function FieldValue(record: RawRecord, m: FieldMapping): Value {
    Coerce(Get(record, m.airtableField), m.fieldType, m.defaultValue)
  }

  /** The record before any mapping: its id, its creation time (or `now` when
      it has none) and `now` as update time. */
  function Seed(record: RawRecord, now: string): (r: Entity)
    ensures r.Keys == {"id", "createdAt", "updatedAt"}
    ensures r["id"] == Str(record.id) && r["updatedAt"] == Str(now)
    ensures r["createdAt"] == Str(if record.createdTime != "" then record.createdTime else now)
  {
    map["id" := Str(record.id),
        "createdAt" := Str(if record.createdTime != "" then record.createdTime else now),
        "updatedAt" := Str(now)]
  }

  /** The mappings applied in list order to `e`. */
  function ApplyMappings(record: RawRecord, ms: seq<FieldMapping>, e: Entity): Entity
    decreases |ms|
  {
    if ms == [] then e
    else
      var m := ms[|ms| - 1];
      WriteField(ApplyMappings(record, ms[..|ms| - 1], e), m.appField, FieldValue(record, m))
  }

  /** The whole of `processRecord`: a record whose cells cannot be read makes
      the first `record.get` throw, so it fails as soon as there is a mapping. */
  function NormalizeRecord(record: RawRecord, ms: seq<FieldMapping>, now: string): (r: Result<Entity>)
    ensures r.Err? <==> record.readError.Some? && |ms| > 0
    ensures r.Err? ==> r.error == record.readError.value
  {
    if record.readError.Some? && |ms| > 0 then Err(record.readError.value)
    else Ok(ApplyMappings(record, ms, Seed(record, now)))
  }

  /** `processRecord` as the loop it is. */
  method ProcessRecord(record: RawRecord, ms: seq<FieldMapping>, now: string) returns (r: Result<Entity>)
    ensures r == NormalizeRecord(record, ms, now)
  {
    var result := Seed(record, now);
    for i := 0 to |ms|
      invariant result == ApplyMappings(record, ms[..i], Seed(record, now))
      invariant i > 0 ==> record.readError.None?
    {
      if record.readError.Some? {
        return Err(record.readError.value);
      }
      var m := ms[i];
      var value := Get(record, m.airtableField);
      var written := Coerce(value, m.fieldType, m.defaultValue);
      assert ms[..i + 1][..i] == ms[..i];
      result := WriteField(result, m.appField, written);
    }
    assert ms[..|ms|] == ms;
    return Ok(result);
  }

  // ----- paths -----

  /** Reading a path just written gives the value written. */
  lemma {:induction false} GetAfterSet(e: Entity, p: seq<string>, v: Value)
    requires |p| >= 1
    ensures GetPath(SetPath(e, p, v), p) == v
    decreases |p|
  {
    if |p| > 1 {
      GetAfterSet(Child(e, p[0]), p[1..], v);
    }
  }

  lemma GetFromEmpty(p: seq<string>)
    requires |p| >= 1
    ensures GetPath(map[], p) == Undefined
  {
  }

  /** Writing one path leaves every path that parts from it as it was. */
  lemma {:induction false} GetAfterSetElsewhere(e: Entity, p: seq<string>, q: seq<string>, v: Value)
    requires |p| >= 1 && |q| >= 1 && Diverge(p, q)
    ensures GetPath(SetPath(e, p, v), q) == GetPath(e, q)
    decreases |p|
  {
    if p[0] == q[0] {
      var k := p[0];
      GetAfterSetElsewhere(Child(e, k), p[1..], q[1..], v);
      if !(k in e && e[k].Obj?) {
        GetFromEmpty(q[1..]);
      }
    }
  }

  /** A second write to the same path replaces the first. */
  lemma {:induction false} SetTwice(e: Entity, p: seq<string>, v: Value, w: Value)
    requires |p| >= 1
    ensures SetPath(SetPath(e, p, v), p, w) == SetPath(e, p, w)
    decreases |p|
  {
    if |p| > 1 {
      SetTwice(Child(e, p[0]), p[1..], v, w);
    }
  }

  /** Writing a path changes only the entry under its first key. */
  lemma SetPathFrame(e: Entity, p: seq<string>, v: Value, k: string)
    requires |p| >= 1 && k in e && k != p[0]
    ensures SetPath(e, p, v)[k] == e[k]
  {
  }

  /** Both branches of the assignment agree: a field without a dot is a
      one-key path. */
  lemma WriteFieldIsSetPath(e: Entity, appField: string, v: Value)
    ensures (if Contains(appField, ".") then SetPath(e, KeyPath(appField), v) else e[appField := v])
            == SetPath(e, KeyPath(appField), v)
  {
    ContainsChar(appField, '.');
    if '.' !in appField {
      SplitWithoutSeparator(appField, '.');
    }
  }

  // ----- mappings -----

  /** Applying a list is applying its first part, then its second. */
  lemma {:induction false} ApplyConcat(record: RawRecord, a: seq<FieldMapping>, b: seq<FieldMapping>, e: Entity)
    ensures ApplyMappings(record, a + b, e) == ApplyMappings(record, b, ApplyMappings(record, a, e))
    decreases |b|
  {
    if b == [] {
      assert a + b == a;
    } else {
      assert (a + b)[..|a + b| - 1] == a + b[..|b| - 1];
      ApplyConcat(record, a, b[..|b| - 1], e);
    }
  }

  /** Mappings whose paths all part from `q` leave the value at `q` alone. */
  lemma {:induction false} ApplyElsewhere(record: RawRecord, ms: seq<FieldMapping>, e: Entity, q: seq<string>)
    requires |q| >= 1
    requires forall i :: 0 <= i < |ms| ==> Diverge(KeyPath(ms[i].appField), q)
    ensures GetPath(ApplyMappings(record, ms, e), q) == GetPath(e, q)
    decreases |ms|
  {
    if ms != [] {
      var m := ms[|ms| - 1];
      var before := ApplyMappings(record, ms[..|ms| - 1], e);
      ApplyElsewhere(record, ms[..|ms| - 1], e, q);
      WriteFieldIsSetPath(before, m.appField, FieldValue(record, m));
      GetAfterSetElsewhere(before, KeyPath(m.appField), q, FieldValue(record, m));
    }
  }

  /** The last mapping to write a path decides its value: whatever came
      before, and whatever comes after on paths that part from it. */
  lemma LastWriterWins(record: RawRecord, a: seq<FieldMapping>, m: FieldMapping, b: seq<FieldMapping>, e: Entity)
    requires forall i :: 0 <= i < |b| ==> Diverge(KeyPath(b[i].appField), KeyPath(m.appField))
    ensures GetPath(ApplyMappings(record, a + [m] + b, e), KeyPath(m.appField)) == FieldValue(record, m)
  {
    ApplyConcat(record, a + [m], b, e);
    ApplyConcat(record, a, [m], e);
    var mid := ApplyMappings(record, a + [m], e);
    assert ApplyMappings(record, [m], ApplyMappings(record, a, e)) == mid;
    ApplyElsewhere(record, b, mid, KeyPath(m.appField));
  }

  /** The paths of a list pairwise part. */
  predicate PathsApart(ms: seq<FieldMapping>) {
    forall i, j :: 0 <= i < j < |ms| ==> Diverge(KeyPath(ms[i].appField), KeyPath(ms[j].appField))
  }

  /** When the paths pairwise part, every mapping's value is in the result. */
  lemma EveryMappingLands(record: RawRecord, ms: seq<FieldMapping>, e: Entity, i: int)
    requires PathsApart(ms) && 0 <= i < |ms|
    ensures GetPath(ApplyMappings(record, ms, e), KeyPath(ms[i].appField)) == FieldValue(record, ms[i])
  {
    var a, b := ms[..i], ms[i + 1..];
    assert ms == a + [ms[i]] + b;
    forall j | 0 <= j < |b| ensures Diverge(KeyPath(b[j].appField), KeyPath(ms[i].appField)) {
      assert b[j] == ms[i + 1 + j];
      DivergeSymmetric(KeyPath(ms[i].appField), KeyPath(b[j].appField));
    }
    LastWriterWins(record, a, ms[i], b, e);
  }

  lemma {:induction false} DivergeSymmetric(p: seq<string>, q: seq<string>)
    requires |p| >= 1 && |q| >= 1 && Diverge(p, q)
    ensures Diverge(q, p)
    decreases |p|
  {
    if p[0] == q[0] {
      DivergeSymmetric(p[1..], q[1..]);
    }
  }

  /** A seeded key that no mapping's path starts with keeps its seed value. */
  lemma SeedSurvives(record: RawRecord, ms: seq<FieldMapping>, now: string, k: string)
    requires k in Seed(record, now)
    requires forall i :: 0 <= i < |ms| ==> KeyPath(ms[i].appField)[0] != k
    ensures GetPath(ApplyMappings(record, ms, Seed(record, now)), [k]) == Seed(record, now)[k]
  {
    ApplyElsewhere(record, ms, Seed(record, now), [k]);
  }

  /** A null or missing cell writes the mapping's default, whatever its type. */
  lemma NullCellWritesDefault(record: RawRecord, m: FieldMapping)
    requires Nullish(Get(record, m.airtableField))
    ensures FieldValue(record, m) == m.defaultValue
  {
  }
}
