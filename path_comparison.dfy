/** The two normalisation paths side by side: the mapping-driven coercions
    of lib/admin/sync-utils.ts and the alias-based parsers of
    lib/airtable.ts. They agree on numbers and on most arrays, and differ on
    the number 1 and upper-case text as booleans, on site-relative image
    paths, on anything else given as an array, and on unreadable records. */
module PathComparison {
  import opened Text
  import opened JsValues
  import opened AirtableRecords
  import opened FieldMappings
  import opened Coercion
  import opened CoercionProperties
  import opened Normalizer
  import opened LegacyParse
  import opened Tours

  /** Prices: the number coercion with default 0 and `parsePrice` give the
      same number for every value. */
  lemma PricePathsAgree(v: Value)
    ensures CoerceNumber(v, Num(0.0)) == Num(ParsePrice(v))
  {
    if v.Str? && v.s == "" {
      assert FirstDecimalMatch(v.s).None?;
    }
  }

  /** Booleans agree on booleans and on text without upper-case letters. */
  lemma BooleanPathsAgree(v: Value)
    requires v.Bool? || (v.Str? && ToLower(v.s) == v.s)
    ensures CoerceBoolean(v) == Bool(ParseBoolean(v))
  {
  }

  /** The number 1 is true for the mapping path and false for the legacy one. */
  lemma BooleanPathsDifferOnOne()
    ensures CoerceBoolean(Num(1.0)) == Bool(true) && !ParseBoolean(Num(1.0))
  {
  }

  /** Text that lower-cases to "true" without being "true" is true only for
      the legacy path. */
  lemma BooleanPathsDifferOnCase(s: string)
    requires ToLower(s) == "true" && s != "true"
    ensures CoerceBoolean(Str(s)) == Bool(false) && ParseBoolean(Str(s))
  {
  }

  /** Arrays and text give the same list on both paths. */
  lemma ArrayPathsAgree(v: Value, d: Value)
    requires v.Arr? || v.Str?
    ensures CoerceArray(v, d) == Arr(ParseArray(v))
  {
    if v.Str? && v.s == "" {
      NoListItems();
    }
  }

  /** Any other value gives the mapping's default on one path and [] on the other. */
  lemma ArrayPathsDifferOnOthers(v: Value, d: Value)
    requires !v.Arr? && !v.Str?
    ensures CoerceArray(v, d) == d && ParseArray(v) == []
  {
  }

  /** Text starting with "http" is kept by both paths. */
  lemma ImagePathsAgreeOnHttp(s: string, d: Value)
    requires StartsWith(s, "http")
    ensures CoerceImage(Str(s), d) == Str(s) && ExtractImageUrl(Str(s)) == Str(s)
  {
    assert Truthy(Str(s)) by { assert |s| >= 4; }
  }

  /** A site-relative path ("/...") without "http" is kept by the legacy
      path only; the mapping path writes the default. */
  lemma ImagePathsDifferOnRelative(s: string, d: Value)
    requires StartsWith(s, "/") && !Contains(s, "http")
    ensures CoerceImage(Str(s), d) == d && ExtractImageUrl(Str(s)) == Str(s)
  {
    assert Truthy(Str(s)) by { assert |s| >= 1; }
  }

  /** An attachment list whose first entry has a url gives that url on both
      paths. */
  lemma ImagePathsAgreeOnAttachments(items: seq<Value>, d: Value)
    requires |items| > 0 && items[0].Obj? && Truthy(UrlOf(items[0]))
    ensures CoerceImage(Arr(items), d) == UrlOf(items[0])
    ensures ExtractImageUrl(Arr(items)) == UrlOf(items[0])
  {
  }

  /** A single attachment object with a url gives that url on both paths. */
  lemma ImagePathsAgreeOnObject(fields: map<string, Value>, d: Value)
    requires "url" in fields && Truthy(fields["url"])
    ensures CoerceImage(Obj(fields), d) == fields["url"]
    ensures ExtractImageUrl(Obj(fields)) == fields["url"]
  {
  }

  /** A list whose first entry is an http link is kept by the legacy path
      only: the mapping path looks for a `url` and writes the default. */
  lemma ImagePathsDifferOnLinkList(link: string, rest: seq<Value>, d: Value)
    requires StartsWith(link, "http")
    ensures CoerceImage(Arr([Str(link)] + rest), d) == d
    ensures ExtractImageUrl(Arr([Str(link)] + rest)) == Str(link)
  {
    assert Truthy(Str(link)) by { assert |link| >= 4; }
  }

  /** An empty list, or an object without a url, gives the mapping's default
      on one path and the empty text on the other. */
  lemma ImagePathsWithoutUrl(v: Value, d: Value)
    requires (v.Arr? && |v.items| == 0) || (v.Obj? && !Truthy(UrlOf(v)))
    ensures CoerceImage(v, d) == d
    ensures ExtractImageUrl(v) == Str("")
  {
  }

  /** A record whose cells cannot be read fails the whole mapping path but
      becomes the fallback tour on the legacy path. */
  lemma UnreadableRecordPaths(record: RawRecord, ms: seq<FieldMapping>, now: string)
    requires record.readError.Some? && |ms| > 0
    ensures NormalizeRecord(record, ms, now).Err?
    ensures TourOf(record) == FallbackTour(record.id)
  {
  }
}
