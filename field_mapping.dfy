/** The field-mapping registry (lib/admin/field-mapping.ts): the compiled-in
    default mappings per post type, the lookup that prefers saved mappings,
    and the resolution of table names. */
module FieldMappings {
  import opened Wrappers
  import opened JsValues
  import opened Seqs

  datatype PostType = Tour | Category | Destination

  /** The enum's string value, as it appears in messages. */
  function PostTypeName(t: PostType): string {
    match t
    case Tour => "tour"
    case Category => "category"
    case Destination => "destination"
  }

  /** The declared type of a mapping; a mapping loaded from saved JSON may
      carry any other text, which the normaliser treats as pass-through. */
  datatype FieldType =
    | StringType | NumberType | BooleanType | ArrayType
    | ImageType | DateType | ObjectType | RelationType
    | OtherType(name: string)

  datatype FieldMapping = FieldMapping(
    postType: PostType,
    airtableField: string,
    appField: string,
    fieldType: FieldType,
    required: bool,
    defaultValue: Value,
    relationTable: Option<string>,
    relationDisplayField: Option<string>)

  function Plain(t: PostType, airtable: string, app: string, ty: FieldType, req: bool, d: Value): FieldMapping {
    FieldMapping(t, airtable, app, ty, req, d, None, None)
  }

  function Related(t: PostType, airtable: string, app: string, d: Value, table: string): FieldMapping {
    FieldMapping(t, airtable, app, RelationType, false, d, Some(table), Some("Name"))
  }

  const DefaultTourMappings: seq<FieldMapping> := [
    Plain(Tour, "Name", "name", StringType, true, Str("Unnamed Tour")),
    Plain(Tour, "Location", "location", StringType, false, Str("Red Sea, Egypt")),
    Plain(Tour, "Price", "price", NumberType, false, Num(0.0)),
    Plain(Tour, "Duration", "duration", StringType, false, Str("1 day")),
    Plain(Tour, "Rating", "rating", NumberType, false, Num(4.5)),
    Plain(Tour, "Review Count", "reviewCount", NumberType, false, Num(0.0)),
    Plain(Tour, "Image", "image", ImageType, false, Str("")),
    Plain(Tour, "Short Description", "shortDescription", StringType, false, Str("")),
    Plain(Tour, "Description", "description", StringType, false, Str("")),
    Plain(Tour, "Details", "details", StringType, false, Str("")),
    Plain(Tour, "Featured", "featured", BooleanType, false, Bool(false)),
    Plain(Tour, "Max Group Size", "maxGroupSize", NumberType, false, Num(10.0)),
    Plain(Tour, "Availability", "availability", StringType, false, Str("Daily")),
    Plain(Tour, "Included", "included", ArrayType, false, Arr([])),
    Related(Tour, "Categories", "categories", Arr([]), "Categories"),
    Related(Tour, "Destination", "destinationId", Str(""), "Destinations")
  ]

  const DefaultCategoryMappings: seq<FieldMapping> := [
    Plain(Category, "Name", "name", StringType, true, Str("Unnamed Category")),
    Plain(Category, "Slug", "slug", StringType, true, Str("")),
    Plain(Category, "Description", "description", StringType, false, Str("")),
    Plain(Category, "Image", "image", ImageType, false, Str("")),
    Plain(Category, "Featured Order", "featuredOrder", NumberType, false, Num(0.0)),
    Related(Category, "Parent Category", "parentId", Str(""), "Categories")
  ]

  const DefaultDestinationMappings: seq<FieldMapping> := [
    Plain(Destination, "Name", "name", StringType, true, Str("Unnamed Destination")),
    Plain(Destination, "Slug", "slug", StringType, true, Str("")),
    Plain(Destination, "Description", "description", StringType, false, Str("")),
    Plain(Destination, "Image", "image", ImageType, false, Str("")),
    Plain(Destination, "Latitude", "location.latitude", NumberType, false, Null),
    Plain(Destination, "Longitude", "location.longitude", NumberType, false, Null),
    Plain(Destination, "Address", "location.address", StringType, false, Str("")),
    Plain(Destination, "Featured Order", "featuredOrder", NumberType, false, Num(0.0))
  ]

  /** Tours, then categories, then destinations. */
  const DefaultFieldMappings: seq<FieldMapping> :=
    DefaultTourMappings + DefaultCategoryMappings + DefaultDestinationMappings

  /** The compiled-in defaults of one post type (the switch of the editor's
      per-type reset). */
  function DefaultsFor(t: PostType): seq<FieldMapping> {
    match t
    case Tour => DefaultTourMappings
    case Category => DefaultCategoryMappings
    case Destination => DefaultDestinationMappings
  }

  function OfType(t: PostType): FieldMapping -> bool {
    (m: FieldMapping) => m.postType == t
  }

  function NotOfType(t: PostType): FieldMapping -> bool {
    (m: FieldMapping) => m.postType != t
  }

  /** `mappings.filter(m => m.postType === t)`. */
  function MappingsOf(ms: seq<FieldMapping>, t: PostType): (r: seq<FieldMapping>)
    ensures forall i :: 0 <= i < |r| ==> r[i].postType == t
    ensures forall i :: 0 <= i < |ms| && ms[i].postType == t ==> ms[i] in r
  {
    FilterComplete(ms, OfType(t));
    Filter(ms, OfType(t))
  }

  /** `mappings.filter(m => m.postType !== t)`. */
  function MappingsNotOf(ms: seq<FieldMapping>, t: PostType): (r: seq<FieldMapping>)
    ensures forall i :: 0 <= i < |r| ==> r[i].postType != t
    ensures forall i :: 0 <= i < |ms| && ms[i].postType != t ==> ms[i] in r
  {
    FilterComplete(ms, NotOfType(t));
    Filter(ms, NotOfType(t))
  }

  /** Both filters keep the list's order: they work element by element, so a
      concatenation is filtered part by part, and a single mapping is kept
      exactly when it passes. */
  lemma MappingsInOrder(a: seq<FieldMapping>, b: seq<FieldMapping>, m: FieldMapping, t: PostType)
    ensures MappingsOf(a + b, t) == MappingsOf(a, t) + MappingsOf(b, t)
    ensures MappingsNotOf(a + b, t) == MappingsNotOf(a, t) + MappingsNotOf(b, t)
    ensures MappingsOf([m], t) == if m.postType == t then [m] else []
    ensures MappingsNotOf([m], t) == if m.postType != t then [m] else []
  {
    FilterConcat(a, b, OfType(t));
    FilterConcat(a, b, NotOfType(t));
  }

  /** What the browser's local storage holds under the mappings key. */
  datatype SavedMappings =
    | NothingSaved          // no item, or an empty one
    | Unparsable            // JSON.parse throws
    | Saved(mappings: seq<FieldMapping>)

  /** Where `getFieldMappings` runs: on the server (no window) or in a browser. */
  datatype MappingSource = ServerSide | Browser(saved: SavedMappings)

  function SelectType(ms: seq<FieldMapping>, postType: Option<PostType>): seq<FieldMapping> {
    match postType
    case None => ms
    case Some(t) => MappingsOf(ms, t)
  }

  /** `getFieldMappings(postType?)`: saved mappings win when present and
      parseable; the server, a missing item and a parse failure all give the
      defaults. With a post type, only that type's mappings, in order. */
  function GetFieldMappings(postType: Option<PostType>, source: MappingSource): (r: seq<FieldMapping>)
    ensures source.Browser? && source.saved.Saved? ==> r == SelectType(source.saved.mappings, postType)
    ensures !(source.Browser? && source.saved.Saved?) ==> r == SelectType(DefaultFieldMappings, postType)
    ensures postType.Some? ==> forall i :: 0 <= i < |r| ==> r[i].postType == postType.value
  {
    match source
    case ServerSide => SelectType(DefaultFieldMappings, postType)
    case Browser(NothingSaved) => SelectType(DefaultFieldMappings, postType)
    case Browser(Unparsable) => SelectType(DefaultFieldMappings, postType)
    case Browser(Saved(ms)) => SelectType(ms, postType)
  }

  /** Asking for one type is filtering the whole answer by that type. */
  lemma GetFieldMappingsByType(t: PostType, source: MappingSource)
    ensures GetFieldMappings(Some(t), source) == MappingsOf(GetFieldMappings(None, source), t)
  {
  }

  /** Every default mapping carries its own list's post type. */
  lemma DefaultsCarryTheirType(t: PostType)
    ensures forall i :: 0 <= i < |DefaultsFor(t)| ==> DefaultsFor(t)[i].postType == t
  {
  }

  /** 16 tour, 6 category and 8 destination defaults. */
  lemma DefaultCounts()
    ensures |DefaultTourMappings| == 16 && |DefaultCategoryMappings| == 6
    ensures |DefaultDestinationMappings| == 8 && |DefaultFieldMappings| == 30
  {
  }

  /** Filtering the combined defaults by a type gives back exactly that type's list. */
  lemma DefaultsOfType(t: PostType)
    ensures MappingsOf(DefaultFieldMappings, t) == DefaultsFor(t)
  {
    DefaultsCarryTheirType(Tour);
    DefaultsCarryTheirType(Category);
    DefaultsCarryTheirType(Destination);
    LayoutSplits(DefaultsFor(Tour), DefaultsFor(Category), DefaultsFor(Destination), t);
  }

  function Part(a: seq<FieldMapping>, b: seq<FieldMapping>, c: seq<FieldMapping>, t: PostType): seq<FieldMapping> {
    match t
    case Tour => a
    case Category => b
    case Destination => c
  }

  lemma LayoutSplits(a: seq<FieldMapping>, b: seq<FieldMapping>, c: seq<FieldMapping>, t: PostType)
    requires InLayout(a, b, c)
    ensures MappingsOf(a + b + c, t) == Part(a, b, c, t)
  {
    match t
    case Tour => ToursOfLayout(a, b, c);
    case Category => CategoriesOfLayout(a, b, c);
    case Destination => DestinationsOfLayout(a, b, c);
  }

  predicate AllOfType(ms: seq<FieldMapping>, t: PostType) {
    forall i :: 0 <= i < |ms| ==> ms[i].postType == t
  }

  /** A list laid out as tours, then categories, then destinations: the
      per-type filter gives back each of its three parts. */
  predicate InLayout(a: seq<FieldMapping>, b: seq<FieldMapping>, c: seq<FieldMapping>) {
    AllOfType(a, Tour) && AllOfType(b, Category) && AllOfType(c, Destination)
  }

  lemma ToursOfLayout(a: seq<FieldMapping>, b: seq<FieldMapping>, c: seq<FieldMapping>)
    requires InLayout(a, b, c)
    ensures MappingsOf(a + b + c, Tour) == a
  {
    var p := OfType(Tour);
    FilterConcat(a + b, c, p);
    FilterConcat(a, b, p);
    FilterAll(a, p); FilterNone(b, p); FilterNone(c, p);
  }

  lemma CategoriesOfLayout(a: seq<FieldMapping>, b: seq<FieldMapping>, c: seq<FieldMapping>)
    requires InLayout(a, b, c)
    ensures MappingsOf(a + b + c, Category) == b
  {
    var p := OfType(Category);
    FilterConcat(a + b, c, p);
    FilterConcat(a, b, p);
    FilterNone(a, p); FilterAll(b, p); FilterNone(c, p);
  }

  lemma DestinationsOfLayout(a: seq<FieldMapping>, b: seq<FieldMapping>, c: seq<FieldMapping>)
    requires InLayout(a, b, c)
    ensures MappingsOf(a + b + c, Destination) == c
  {
    var p := OfType(Destination);
    FilterConcat(a + b, c, p);
    FilterConcat(a, b, p);
    FilterNone(a, p); FilterNone(b, p); FilterAll(c, p);
  }

  /** Without saved mappings, asking for one type gives that type's defaults. */
  lemma DefaultMappingsByType(t: PostType, source: MappingSource)
    requires !(source.Browser? && source.saved.Saved?)
    ensures GetFieldMappings(Some(t), source) == DefaultsFor(t)
  {
    assert GetFieldMappings(Some(t), source) == SelectType(DefaultFieldMappings, Some(t));
    assert SelectType(DefaultFieldMappings, Some(t)) == MappingsOf(DefaultFieldMappings, t);
    DefaultsOfType(t);
  }

  /** No two mappings of the list write the same app field. */
  predicate DistinctAppFields(ms: seq<FieldMapping>) {
    forall i, j :: 0 <= i < j < |ms| ==> ms[i].appField != ms[j].appField
  }

  /** Within each default list the app fields are pairwise distinct. */
  lemma DefaultAppFieldsDistinct(t: PostType)
    ensures DistinctAppFields(DefaultsFor(t))
  {
    match t
    case Tour => TourAppFieldsDistinct();
    case Category => CategoryAppFieldsDistinct();
    case Destination => DestinationAppFieldsDistinct();
  }

  lemma TourAppFieldsDistinct()
    ensures DistinctAppFields(DefaultTourMappings)
  {
    var names := ["name", "location", "price", "duration", "rating", "reviewCount",
                  "image", "shortDescription", "description", "details", "featured",
                  "maxGroupSize", "availability", "included", "categories", "destinationId"];
    assert Distinct(names);
    DistinctThroughNames(DefaultTourMappings, names);
  }

  lemma CategoryAppFieldsDistinct()
    ensures DistinctAppFields(DefaultCategoryMappings)
  {
    var names := ["name", "slug", "description", "image", "featuredOrder", "parentId"];
    assert Distinct(names);
    DistinctThroughNames(DefaultCategoryMappings, names);
  }

  lemma DestinationAppFieldsDistinct()
    ensures DistinctAppFields(DefaultDestinationMappings)
  {
    var names := ["name", "slug", "description", "image", "location.latitude",
                  "location.longitude", "location.address", "featuredOrder"];
    assert Distinct(names);
    DistinctThroughNames(DefaultDestinationMappings, names);
  }

  predicate Distinct(names: seq<string>) {
    forall i, j :: 0 <= i < j < |names| ==> names[i] != names[j]
  }

  lemma DistinctThroughNames(ms: seq<FieldMapping>, names: seq<string>)
    requires |ms| == |names| && forall i :: 0 <= i < |ms| ==> ms[i].appField == names[i]
    requires Distinct(names)
    ensures DistinctAppFields(ms)
  {
  }

  /** Table-name overrides from the environment; "" stands for unset. */
  datatype TableEnv = TableEnv(toursTable: string, categoriesTable: string, destinationsTable: string)

  function Override(t: PostType, env: TableEnv): string {
    match t
    case Tour => env.toursTable
    case Category => env.categoriesTable
    case Destination => env.destinationsTable
  }

  function StandardTableName(t: PostType): string {
    match t
    case Tour => "Tours"
    case Category => "Categories"
    case Destination => "Destinations"
  }

  /** `getAirtableTableName(t)`: the override when set, else the standard
      name; never empty. */
  function AirtableTableName(t: PostType, env: TableEnv): (r: string)
    ensures r != ""
    ensures Override(t, env) != "" ==> r == Override(t, env)
    ensures Override(t, env) == "" ==> r == StandardTableName(t)
  {
    match t
    case Tour => if env.toursTable != "" then env.toursTable else "Tours"
    case Category => if env.categoriesTable != "" then env.categoriesTable else "Categories"
    case Destination => if env.destinationsTable != "" then env.destinationsTable else "Destinations"
  }
}
