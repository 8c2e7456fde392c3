/** `recordToTour` (lib/airtable.ts): a raw record becomes a tour, field by
    field with fixed fallbacks; a record that cannot be read becomes the
    default tour under the record's id. */
module Tours {
  import opened Wrappers
  import opened Seqs
  import opened Text
  import opened JsValues
  import opened AirtableRecords
  import opened Coercion
  import opened CoercionProperties
  import opened LegacyParse

  /** A tour as the older path builds it. Fields copied from a cell keep the
      cell's value; the numeric ones are plain numbers, NaN only for
      `maxGroupSize`, whose `parseInt` is not guarded. */
  datatype Tour = Tour(
    id: string,
    name: Value,
    location: Value,
    price: real,
    duration: Value,
    rating: real,
    reviewCount: real,
    image: Value,
    shortDescription: Value,
    description: Value,
    details: Value,
    featured: bool,
    maxGroupSize: Value,
    availability: Value,
    included: seq<Value>,
    itinerary: seq<Value>,
    reviews: seq<Value>,
    categories: seq<Value>)

  const DefaultShortDescription := "Experience this amazing tour in the Red Sea region."

  function DefaultIncluded(): seq<Value> {
    [Str("Professional guide"), Str("Transportation"), Str("Snacks and drinks")]
  }

  function Step(title: string, text: string): Value {
    Obj(map["title" := Str(title), "description" := Str(text)])
  }

  function DefaultItinerary(): seq<Value> {
    [Step("Start of Tour", "Meet your guide and begin your adventure."),
     Step("Main Activity", "Experience the highlight of this tour."),
     Step("End of Tour", "Return to your starting point with amazing memories.")]
  }

  function DefaultReviews(): seq<Value> {
    [Obj(map["name" := Str("John Doe"), "rating" := Num(5.0), "date" := Str("Last month"),
             "comment" := Str("Amazing experience! Would definitely recommend.")])]
  }

  /** The default values of every field, named after the record. */
  function DefaultTour(id: string, name: string): Tour {
    Tour(id, Str(name), Str("Red Sea, Egypt"), 0.0, Str("1 day"), DefaultRating, 0.0, Str(""),
         Str(DefaultShortDescription), Str(""), Str(""), false, Num(10.0), Str("Daily"),
         DefaultIncluded(), DefaultItinerary(), DefaultReviews(), [])
  }

  /** The tour of the catch branch: the defaults, the record's id, and the
      name "Tour " followed by the first five characters of the id. */
  function FallbackTour(id: string): (t: Tour)
    ensures t.id == id && t.name == Str("Tour " + Take(id, 5))
  {
    DefaultTour(id, "Tour " + Take(id, 5))
  }

  /** `getFieldValue(record, name, d)`: the cell, or `d` when it is null or missing. */
  function CellOr(record: RawRecord, name: string, d: Value): (r: Value)
    ensures !Nullish(Get(record, name)) ==> r == Get(record, name)
    ensures Nullish(Get(record, name)) ==> r == d
  {
    var value := Get(record, name);
    if !Nullish(value) then value else d
  }

  /** The review count: a string's `parseInt`, a number, 0 for NaN or anything else. */
  function ReviewCountOf(v: Value): real {
    match v
    case Str(s) => if ParseIntText(s).Some? then ParseIntText(s).value as real else 0.0
    case Num(n) => n
    case _ => 0.0
  }

  /** `parseInt(String(raw))` for a truthy raw value, else 10; NaN stays NaN. */
  function MaxGroupSizeOf(raw: Value): Value {
    if !Truthy(raw) then Num(10.0)
    else
      var parsed := ParseIntText(ToText(raw));
      if parsed.Some? then Num(parsed.value as real) else NaN
  }

  /** An attribute that only a non-empty array may replace. */
  function NonEmptyArrayOr(raw: Value, d: seq<Value>): seq<Value> {
    if Truthy(raw) && raw.Arr? && |raw.items| > 0 then raw.items else d
  }

  /** The try branch of `recordToTour`, on a readable record. */
  function Converted(record: RawRecord): (t: Tour)
    ensures t.id == record.id
  {
    var includedRaw := FirstPresent(record, Aliases(IncludedKey));
    var categoriesRaw := FirstPresent(record, Aliases(CategoriesKey));
    Tour(
      record.id,
      CellOr(record, "Name", Str("Unnamed Tour")),
      CellOr(record, "Location", Str("Red Sea, Egypt")),
      ParsePrice(CellOr(record, "Price", Str("$0"))),
      CellOr(record, "Duration", Str("1 day")),
      ParseRating(CellOr(record, "Rating", Num(DefaultRating))),
      ReviewCountOf(CellOr(record, "Review Count", Num(0.0))),
      ExtractImageUrl(FirstPresent(record, Aliases(ImageKey))),
      Or(FirstPresent(record, Aliases(ShortDescriptionKey)), Str(DefaultShortDescription)),
      Or(FirstPresent(record, Aliases(DescriptionKey)), Str("")),
      Or(FirstPresent(record, Aliases(DetailsKey)), Str("")),
      ParseBoolean(FirstPresent(record, Aliases(FeaturedKey))),
      MaxGroupSizeOf(FirstPresent(record, Aliases(MaxGroupSizeKey))),
      Or(FirstPresent(record, Aliases(AvailabilityKey)), Str("Daily")),
      if Truthy(includedRaw) then ParseArray(includedRaw) else DefaultIncluded(),
      NonEmptyArrayOr(FirstPresent(record, Aliases(ItineraryKey)), DefaultItinerary()),
      NonEmptyArrayOr(FirstPresent(record, Aliases(ReviewsKey)), DefaultReviews()),
      if Truthy(categoriesRaw) then ParseArray(categoriesRaw) else [])
  }

  /** `recordToTour`: never fails. A record whose cells cannot be read throws
      at the first `get`, and the catch gives the fallback tour. */
  function TourOf(record: RawRecord): (t: Tour)
    ensures t.id == record.id
    ensures record.readError.Some? ==> t == FallbackTour(record.id)
  {
    if record.readError.Some? then FallbackTour(record.id) else Converted(record)
  }

  /** `recordToTour` step by step, with its `reviewCount` variable. */
  method RecordToTour(record: RawRecord) returns (tour: Tour)
    ensures tour == TourOf(record)
  {
    if record.readError.Some? {
      return FallbackTour(record.id);
    }
    var name := CellOr(record, "Name", Str("Unnamed Tour"));
    var location := CellOr(record, "Location", Str("Red Sea, Egypt"));
    var price := ParsePrice(CellOr(record, "Price", Str("$0")));
    var duration := CellOr(record, "Duration", Str("1 day"));
    var rating := ParseRating(CellOr(record, "Rating", Num(DefaultRating)));
    var reviewCount := 0.0;
    var reviewCountValue := CellOr(record, "Review Count", Num(0.0));
    if reviewCountValue.Str? {
      var parsed := ParseIntText(reviewCountValue.s);
      reviewCount := if parsed.None? then 0.0 else parsed.value as real;
    } else if reviewCountValue.Num? {
      reviewCount := reviewCountValue.n;
    }
    assert reviewCount == ReviewCountOf(reviewCountValue);
    var imageField := FindFieldValue(record, ImageKey);
    var image := ExtractImageUrl(imageField);
    var shortDescription := FindFieldValue(record, ShortDescriptionKey);
    var description := FindFieldValue(record, DescriptionKey);
    var details := FindFieldValue(record, DetailsKey);
    var featuredRaw := FindFieldValue(record, FeaturedKey);
    var maxGroupSizeRaw := FindFieldValue(record, MaxGroupSizeKey);
    var availability := FindFieldValue(record, AvailabilityKey);
    var includedRaw := FindFieldValue(record, IncludedKey);
    var categoriesRaw := FindFieldValue(record, CategoriesKey);
    var itineraryRaw := FindFieldValue(record, ItineraryKey);
    var reviewsRaw := FindFieldValue(record, ReviewsKey);
    tour := Tour(record.id, name, location, price, duration, rating, reviewCount, image,
                 Or(shortDescription, Str(DefaultShortDescription)), Or(description, Str("")),
                 Or(details, Str("")), ParseBoolean(featuredRaw), MaxGroupSizeOf(maxGroupSizeRaw),
                 Or(availability, Str("Daily")),
                 if Truthy(includedRaw) then ParseArray(includedRaw) else DefaultIncluded(),
                 NonEmptyArrayOr(itineraryRaw, DefaultItinerary()),
                 NonEmptyArrayOr(reviewsRaw, DefaultReviews()),
                 if Truthy(categoriesRaw) then ParseArray(categoriesRaw) else []);

  }

  /** A readable record with no cells at all gets every default, under the
      name "Unnamed Tour". */
  lemma EmptyRecordGetsDefaults(record: RawRecord)
    requires record.readError.None? && record.fields == map[]
    ensures TourOf(record) == DefaultTour(record.id, "Unnamed Tour")
  {
    NoCells(record, ImageKey);
    NoCells(record, ShortDescriptionKey);
    NoCells(record, DescriptionKey);
    NoCells(record, DetailsKey);
    NoCells(record, FeaturedKey);
    NoCells(record, MaxGroupSizeKey);
    NoCells(record, AvailabilityKey);
    NoCells(record, IncludedKey);
    NoCells(record, CategoriesKey);
    NoCells(record, ItineraryKey);
    NoCells(record, ReviewsKey);
    DefaultPrice();
  }

  lemma NoCells(record: RawRecord, key: TourKey)
    requires record.fields == map[]
    ensures FirstPresent(record, Aliases(key)) == Null
  {
    FirstPresentNone(record, Aliases(key));
  }

  /** A price written as a run of non-digits and then a whole number reads
      as that number. */
  lemma PriceAfterSymbol(p: string, n: nat)
    requires forall i :: 0 <= i < |p| ==> !IsDigit(p[i])
    ensures ParsePrice(Str(p + NatText(n))) == n as real
  {
    var s := NatText(n);
    NatTextMatch(n);
    MatchAfterNonDigits(p, s);
    assert Truthy(Str(p + s)) by { assert |p + s| >= 1; }
  }

  /** The price fallback "$0" reads as 0. */
  lemma DefaultPrice()
    ensures ParsePrice(Str("$0")) == 0.0
  {
    assert NatText(0) == "0";
    assert "$" + NatText(0) == "$0";
    PriceAfterSymbol("$", 0);
  }

  /** A price read from text is never negative. */
  lemma PriceFromText(record: RawRecord)
    requires record.readError.None?
    requires Get(record, "Price").Str?
    ensures TourOf(record).price >= 0.0
  {
  }
}
