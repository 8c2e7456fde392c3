/** Where the default mappings write: every default app field names its own
    path, so normalising a record with the defaults keeps every mapping's
    value and the seeded identity. */
module DefaultPaths {
  import opened Text
  import opened JsValues
  import opened AirtableRecords
  import opened FieldMappings
  import opened Normalizer

  /** No name holds a dot. */
  predicate Undotted(names: seq<string>) {
    forall i :: 0 <= i < |names| ==> '.' !in names[i]
  }

  /** A list whose app fields are distinct names without dots writes
      pairwise-parting paths. */
  lemma UndottedApart(ms: seq<FieldMapping>, names: seq<string>)
    requires |ms| == |names| && forall i :: 0 <= i < |ms| ==> ms[i].appField == names[i]
    requires DistinctAppFields(ms) && Undotted(names)
    ensures PathsApart(ms)
  {
    forall i, j | 0 <= i < j < |ms|
      ensures Diverge(KeyPath(ms[i].appField), KeyPath(ms[j].appField))
    {
      SplitWithoutSeparator(names[i], '.');
      SplitWithoutSeparator(names[j], '.');
    }
  }

  lemma UndottedJoin(a: seq<string>, b: seq<string>)
    requires Undotted(a) && Undotted(b)
    ensures Undotted(a + b)
  {
  }

  function TourNamesHead(): seq<string> {
    ["name", "location", "price", "duration", "rating", "reviewCount", "image", "shortDescription"]
  }

  function TourNamesTail(): seq<string> {
    ["description", "details", "featured", "maxGroupSize", "availability", "included",
     "categories", "destinationId"]
  }

  lemma TourNamesUndotted()
    ensures Undotted(TourNamesHead() + TourNamesTail())
  {
    assert Undotted(TourNamesHead());
    assert Undotted(TourNamesTail());
    UndottedJoin(TourNamesHead(), TourNamesTail());
  }

  lemma TourPathsApart()
    ensures PathsApart(DefaultTourMappings)
  {
    TourNamesUndotted();
    TourAppFieldsDistinct();
    UndottedApart(DefaultTourMappings, TourNamesHead() + TourNamesTail());
  }

  lemma CategoryPathsApart()
    ensures PathsApart(DefaultCategoryMappings)
  {
    var names := ["name", "slug", "description", "image", "featuredOrder", "parentId"];
    assert Undotted(names);
    CategoryAppFieldsDistinct();
    UndottedApart(DefaultCategoryMappings, names);
  }

  /** The paths of the default destination mappings, in order. */
  function DestinationPaths(): seq<seq<string>> {
    [["name"], ["slug"], ["description"], ["image"],
     ["location", "latitude"], ["location", "longitude"], ["location", "address"],
     ["featuredOrder"]]
  }

  /** A list whose app fields are dot-joins of pairwise-parting paths writes
      those paths. */
  lemma ApartThroughPaths(ms: seq<FieldMapping>, paths: seq<seq<string>>)
    requires |ms| == |paths|
    requires forall i :: 0 <= i < |paths| ==> |paths[i]| >= 1 && Undotted(paths[i])
    requires forall i :: 0 <= i < |ms| ==> ms[i].appField == Join(paths[i], ".")
    requires forall i, j :: 0 <= i < j < |paths| ==> Diverge(paths[i], paths[j])
    ensures PathsApart(ms)
  {
    forall i, j | 0 <= i < j < |ms|
      ensures Diverge(KeyPath(ms[i].appField), KeyPath(ms[j].appField))
    {
      SplitJoin(paths[i], '.');
      SplitJoin(paths[j], '.');
    }
  }

  lemma DestinationJoins()
    ensures forall i :: 0 <= i < |DefaultDestinationMappings| ==>
      DefaultDestinationMappings[i].appField == Join(DestinationPaths()[i], ".")
  {
  }

  lemma DestinationPiecesUndotted()
    ensures forall i :: 0 <= i < |DestinationPaths()| ==>
      |DestinationPaths()[i]| >= 1 && Undotted(DestinationPaths()[i])
  {
  }

  lemma DestinationPathsPart()
    ensures forall i, j :: 0 <= i < j < |DestinationPaths()| ==>
      Diverge(DestinationPaths()[i], DestinationPaths()[j])
  {
  }

  lemma DestinationPathsApart()
    ensures PathsApart(DefaultDestinationMappings)
  {
    DestinationJoins();
    DestinationPiecesUndotted();
    DestinationPathsPart();
    ApartThroughPaths(DefaultDestinationMappings, DestinationPaths());
  }

  /** The keys `processRecord` seeds before any mapping. */
  function SeedKeys(): set<string> {
    {"id", "createdAt", "updatedAt"}
  }

  /** No path of the list starts at a seeded key. */
  predicate AvoidsSeed(ms: seq<FieldMapping>) {
    forall i :: 0 <= i < |ms| ==> KeyPath(ms[i].appField)[0] !in SeedKeys()
  }

  lemma UndottedAvoid(ms: seq<FieldMapping>, names: seq<string>)
    requires |ms| == |names| && forall i :: 0 <= i < |ms| ==> ms[i].appField == names[i]
    requires Undotted(names) && forall i :: 0 <= i < |names| ==> names[i] !in SeedKeys()
    ensures AvoidsSeed(ms)
  {
    forall i | 0 <= i < |ms| ensures KeyPath(ms[i].appField)[0] !in SeedKeys() {
      SplitWithoutSeparator(names[i], '.');
    }
  }

  lemma TourAvoidsSeed()
    ensures AvoidsSeed(DefaultTourMappings)
  {
    var names := TourNamesHead() + TourNamesTail();
    TourNamesUndotted();
    assert forall i :: 0 <= i < |names| ==> names[i] !in SeedKeys();
    UndottedAvoid(DefaultTourMappings, names);
  }

  lemma CategoryAvoidsSeed()
    ensures AvoidsSeed(DefaultCategoryMappings)
  {
    var names := ["name", "slug", "description", "image", "featuredOrder", "parentId"];
    assert Undotted(names);
    assert forall i :: 0 <= i < |names| ==> names[i] !in SeedKeys();
    UndottedAvoid(DefaultCategoryMappings, names);
  }

  lemma DestinationAvoidsSeed()
    ensures AvoidsSeed(DefaultDestinationMappings)
  {
    var ms, ps := DefaultDestinationMappings, DestinationPaths();
    DestinationJoins();
    DestinationPiecesUndotted();
    assert forall i :: 0 <= i < |ps| ==> ps[i][0] !in SeedKeys();
    forall i | 0 <= i < |ms| ensures KeyPath(ms[i].appField)[0] !in SeedKeys() {
      SplitJoin(ps[i], '.');
    }
  }

  /** No default mapping overwrites the record's id or timestamps. */
  lemma DefaultsKeepSeed(record: RawRecord, t: PostType, now: string, k: string)
    requires k in SeedKeys()
    ensures GetPath(ApplyMappings(record, DefaultsFor(t), Seed(record, now)), [k]) == Seed(record, now)[k]
  {
    DefaultsAvoidSeed(t);
    KeepSeed(record, DefaultsFor(t), now, k);
  }

  lemma DefaultsAvoidSeed(t: PostType)
    ensures AvoidsSeed(DefaultsFor(t))
  {
    match t
    case Tour => TourAvoidsSeed();
    case Category => CategoryAvoidsSeed();
    case Destination => DestinationAvoidsSeed();
  }

  lemma KeepSeed(record: RawRecord, ms: seq<FieldMapping>, now: string, k: string)
    requires k in SeedKeys() && AvoidsSeed(ms)
    ensures GetPath(ApplyMappings(record, ms, Seed(record, now)), [k]) == Seed(record, now)[k]
  {
    SeedSurvives(record, ms, now, k);
  }

  /** Within each default list the paths part pairwise. */
  lemma DefaultPathsApart(t: PostType)
    ensures PathsApart(DefaultsFor(t))
  {
    match t
    case Tour => TourPathsApart();
    case Category => CategoryPathsApart();
    case Destination => DestinationPathsApart();
  }

  /** Normalising with a default list puts every mapping's coerced cell at
      its app field. */
  lemma DefaultsLand(record: RawRecord, t: PostType, now: string, i: int)
    requires 0 <= i < |DefaultsFor(t)|
    ensures var m := DefaultsFor(t)[i];
            GetPath(ApplyMappings(record, DefaultsFor(t), Seed(record, now)), KeyPath(m.appField))
            == FieldValue(record, m)
  {
    DefaultPathsApart(t);
    EveryMappingLands(record, DefaultsFor(t), Seed(record, now), i);
  }
}
