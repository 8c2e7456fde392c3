/** The alias-based field lookup and the fixed-fallback coercions of the
    older tour path (lib/airtable.ts, with the alias lists and defaults of
    lib/config.ts). */
module LegacyParse {
  import opened Wrappers
  import opened Text
  import opened JsValues
  import opened AirtableRecords
  import opened Coercion

  /** The keys of the alias table. */
  datatype TourKey =
    | NameKey | LocationKey | PriceKey | DurationKey | RatingKey | ReviewCountKey
    | ImageKey | ShortDescriptionKey | DescriptionKey | DetailsKey | FeaturedKey
    | MaxGroupSizeKey | AvailabilityKey | IncludedKey | CategoriesKey | ItineraryKey | ReviewsKey

  /** The column names tried for each key, in order. */
  function Aliases(key: TourKey): seq<string> {
    match key
    case NameKey => ["Name", "name", "title", "Title"]
    case LocationKey => ["Location", "location"]
    case PriceKey => ["Price", "price", "cost", "Cost"]
    case DurationKey => ["Duration", "duration"]
    case RatingKey => ["Rating", "rating", "Average Rating"]
    case ReviewCountKey => ["Review Count", "reviewCount", "review_count", "Total Reviews"]
    case ImageKey => ["Image", "image", "photo", "Photo", "Images"]
    case ShortDescriptionKey => ["Short Description", "shortDescription", "short_description", "summary", "Summary"]
    case DescriptionKey => ["Description", "description"]
    case DetailsKey => ["Details", "details"]
    case FeaturedKey => ["Featured", "featured", "is_featured", "IsFeatured"]
    case MaxGroupSizeKey => ["Max Group Size", "maxGroupSize", "max_group_size", "group_size"]
    case AvailabilityKey => ["Availability", "availability", "Availability Summary"]
    case IncludedKey => ["Included", "included", "whats_included"]
    case CategoriesKey => ["Categories", "categories", "category", "Category", "Category Summary"]
    case ItineraryKey => ["Itinerary", "itinerary"]
    case ReviewsKey => ["Reviews", "reviews"]
  }

  /** The value of the first column, in order, whose cell is neither
      undefined nor null; null when there is none. */
  function FirstPresent(record: RawRecord, names: seq<string>): (r: Value)
    ensures r == Null || !Nullish(r)
    decreases |names|
  {
    if names == [] then Null
    else if !Nullish(Get(record, names[0])) then Get(record, names[0])
    else FirstPresent(record, names[1..])
  }

  /** `findFieldValue(record, key)`: the loop over the aliases with its early return. */
  method FindFieldValue(record: RawRecord, key: TourKey) returns (v: Value)
    ensures v == FirstPresent(record, Aliases(key))
  {
    var possibleFields := Aliases(key);
    for i := 0 to |possibleFields|
      invariant FirstPresent(record, possibleFields) == FirstPresent(record, possibleFields[i..])
    {
      assert possibleFields[i..][1..] == possibleFields[i + 1..];
      var value := Get(record, possibleFields[i]);
      if !Nullish(value) {
        return value;
      }
    }
    return Null;
  }

  /** The first present column wins over every later one. */
  lemma {:induction false} FirstPresentIs(record: RawRecord, names: seq<string>, i: nat)
    requires i < |names| && !Nullish(Get(record, names[i]))
    requires forall j :: 0 <= j < i ==> Nullish(Get(record, names[j]))
    ensures FirstPresent(record, names) == Get(record, names[i])
    decreases i
  {
    if i > 0 {
      FirstPresentIs(record, names[1..], i - 1);
    }
  }

  /** With no present column the lookup gives null. */
  lemma {:induction false} FirstPresentNone(record: RawRecord, names: seq<string>)
    requires forall j :: 0 <= j < |names| ==> Nullish(Get(record, names[j]))
    ensures FirstPresent(record, names) == Null
    decreases |names|
  {
    if names != [] {
      FirstPresentNone(record, names[1..]);
    }
  }

  /** `parsePrice`: falsy gives 0, a number passes, a string gives its first
      `\d+(\.\d+)?` match read as a number, anything else 0. Never NaN. */
  function ParsePrice(v: Value): (r: real)
    ensures !Truthy(v) ==> r == 0.0
    ensures Truthy(v) && v.Num? ==> r == v.n
    ensures v.Str? ==> r >= 0.0
    ensures v.Str? && FirstDecimalMatch(v.s).None? ==> r == 0.0
    ensures !v.Str? && !v.Num? ==> r == 0.0
  {
    if !Truthy(v) then 0.0
    else match v
      case Num(n) => n
      case Str(s) =>
        var m := FirstDecimalMatch(s);
        if m.None? then 0.0
        else
          ParseUnsignedDecimal(m.value);
          ParseFloatText(m.value).value
      case _ => 0.0
  }

  /** `parseBoolean`: a boolean passes; a string is true when it lower-cases
      to "true" or is "1"; every other value, the number 1 included, is false. */
  function ParseBoolean(v: Value): (r: bool)
    ensures v.Bool? ==> r == v.b
    ensures v.Str? ==> (r <==> ToLower(v.s) == "true" || v.s == "1")
    ensures !v.Bool? && !v.Str? ==> !r
  {
    match v
    case Bool(b) => b
    case Str(s) => ToLower(s) == "true" || s == "1"
    case _ => false
  }

  /** `parseArray` with its default separator: falsy gives [], an array
      passes, a string gives its trimmed non-empty items, anything else []. */
  function ParseArray(v: Value): (r: seq<Value>)
    ensures !Truthy(v) ==> r == []
    ensures v.Arr? ==> r == v.items
    ensures v.Str? ==> r == Strs(ListItems(v.s))
    ensures !v.Arr? && !v.Str? ==> r == []
  {
    if !Truthy(v) then []
    else match v
      case Arr(items) => items
      case Str(s) => Strs(ListItems(s))
      case _ => []
  }

  /** `extractImageUrl`: falsy gives ""; a string starting with "http" or "/"
      passes; a non-empty array gives its first element when that is an http
      string, else that element's truthy `url`; an object gives its truthy
      `url`; anything else "". */
  function ExtractImageUrl(v: Value): (r: Value)
    ensures !Truthy(v) ==> r == Str("")
    ensures v.Str? && (StartsWith(v.s, "http") || StartsWith(v.s, "/")) ==> r == v
    ensures v.Str? && !StartsWith(v.s, "http") && !StartsWith(v.s, "/") ==> r == Str("")
    ensures v.Arr? && |v.items| > 0 && v.items[0].Str? && StartsWith(v.items[0].s, "http") ==> r == v.items[0]
    ensures v.Arr? && |v.items| > 0 && !(v.items[0].Str? && StartsWith(v.items[0].s, "http")) ==>
              (Truthy(UrlOf(v.items[0])) ==> r == UrlOf(v.items[0])) && (!Truthy(UrlOf(v.items[0])) ==> r == Str(""))
    ensures v.Arr? && |v.items| == 0 ==> r == Str("")
    ensures v.Obj? && Truthy(UrlOf(v)) ==> r == UrlOf(v)
    ensures !v.Str? && !v.Arr? && !(v.Obj? && Truthy(UrlOf(v))) ==> r == Str("")
    ensures r == Str("") || Truthy(r)
  {
    if !Truthy(v) then Str("")
    else if v.Str? && (StartsWith(v.s, "http") || StartsWith(v.s, "/")) then v
    else if v.Arr? && |v.items| > 0 && v.items[0].Str? && StartsWith(v.items[0].s, "http") then v.items[0]
    else if v.Arr? && |v.items| > 0 && Truthy(v.items[0]) && Truthy(UrlOf(v.items[0])) then UrlOf(v.items[0])
    else if v.Obj? && Truthy(UrlOf(v)) then UrlOf(v)
    else Str("")
  }

  const DefaultRating: real := 4.5

  /** `parseRating`: falsy gives 4.5, a string its `parseFloat` or 4.5 when
      that is NaN, a number passes, anything else 4.5. Never NaN. */
  function ParseRating(v: Value): (r: real)
    ensures !Truthy(v) ==> r == DefaultRating
    ensures v.Str? && Truthy(v) ==> r == ParseFloatText(v.s).GetOr(DefaultRating)
    ensures v.Num? && Truthy(v) ==> r == v.n
    ensures !v.Str? && !v.Num? ==> r == DefaultRating
  {
    if !Truthy(v) then DefaultRating
    else match v
      case Str(s) => ParseFloatText(s).GetOr(DefaultRating)
      case Num(n) => n
      case _ => DefaultRating
  }
}
