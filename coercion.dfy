/** The per-type coercions that `processRecord` (lib/admin/sync-utils.ts)
    applies to a cell before writing it: total functions from a cell value,
    a declared field type and the mapping's default to the value written. */
module Coercion {
  import opened Wrappers
  import opened Seqs
  import opened Text
  import opened JsValues
  import opened FieldMappings

  /** "string": `String(value)`. */
  function CoerceString(v: Value): (r: Value)
    ensures r.Str?
    ensures v.Str? ==> r == v
  {
    Str(ToText(v))
  }

  /** "number": a string gives its first `\d+(\.\d+)?` match read as a number,
      or the default without a match; a number other than NaN passes; every
      other value gives the default. A number read from text is never negative. */
  function CoerceNumber(v: Value, d: Value): (r: Value)
    ensures v.Str? && FirstDecimalMatch(v.s).None? ==> r == d
    ensures v.Str? && FirstDecimalMatch(v.s).Some? ==> r.Num? && r.n >= 0.0
    ensures v.Num? ==> r == v
    ensures !v.Str? && !v.Num? ==> r == d
  {
    match v
    case Str(s) =>
      var m := FirstDecimalMatch(s);
      if m.None? then d
      else
        ParseUnsignedDecimal(m.value);
        Num(ParseFloatText(m.value).value)
    case Num(_) => v
    case _ => d
  }

  /** "boolean": exactly `true`, `"true"`, `1` and `"1"` are true. */
  function CoerceBoolean(v: Value): (r: Value)
    ensures r.Bool?
    ensures r.b <==> v in {Bool(true), Str("true"), Num(1.0), Str("1")}
  {
    Bool(v == Bool(true) || v == Str("true") || v == Num(1.0) || v == Str("1"))
  }

  function NonEmptyText(w: string): bool { w != "" }

  /** `ws.map(w => w.trim())`. */
  function TrimAll(ws: seq<string>): (r: seq<string>)
    ensures |r| == |ws|
    ensures forall i :: 0 <= i < |r| ==> r[i] == Trim(ws[i])
  {
    seq(|ws|, i requires 0 <= i < |ws| => Trim(ws[i]))
  }

  /** Text with no comma, no white space at either end, and at least one character. */
  predicate IsListItem(w: string) {
    w != "" && ',' !in w && !IsSpace(w[0]) && !IsSpace(w[|w| - 1])
  }

  /** `s.split(",").map(w => w.trim()).filter(Boolean)`. */
  function ListItems(s: string): seq<string> {
    Filter(TrimAll(Split(s, ',')), NonEmptyText)
  }

  /** Every item of a text is non-empty, trimmed and free of commas. */
  lemma ListItemsAreItems(s: string)
    ensures forall i :: 0 <= i < |ListItems(s)| ==> IsListItem(ListItems(s)[i])
  {
    var pieces := Split(s, ',');
    var trimmed := TrimAll(pieces);
    forall i | 0 <= i < |trimmed| ensures ',' !in trimmed[i] {
      TrimKeepsOut(pieces[i], ',');
    }
    FilterSubset(trimmed, NonEmptyText);
  }

  function Strs(ws: seq<string>): (r: seq<Value>)
    ensures |r| == |ws| && forall i :: 0 <= i < |r| ==> r[i] == Str(ws[i])
  {
    seq(|ws|, i requires 0 <= i < |ws| => Str(ws[i]))
  }

  /** "array": a string becomes the list of its items, an array passes, and
      anything else gives the default. */
  function CoerceArray(v: Value, d: Value): (r: Value)
    ensures v.Arr? ==> r == v
    ensures v.Str? ==> r == Arr(Strs(ListItems(v.s)))
    ensures !v.Str? && !v.Arr? ==> r == d
  {
    match v
    case Str(s) => Arr(Strs(ListItems(s)))
    case Arr(_) => v
    case _ => d
  }

  /** "image": a string holding "http" passes; else the first element's truthy
      `url` of an array; else the value's own truthy `url`; else the default. */
  function CoerceImage(v: Value, d: Value): (r: Value)
    ensures v.Str? && Contains(v.s, "http") ==> r == v
    ensures v.Str? && !Contains(v.s, "http") ==> r == d
    ensures v.Arr? && |v.items| > 0 && Truthy(UrlOf(v.items[0])) ==> r == UrlOf(v.items[0])
    ensures v.Arr? && !(|v.items| > 0 && Truthy(UrlOf(v.items[0]))) ==> r == d
    ensures v.Obj? && Truthy(UrlOf(v)) ==> r == UrlOf(v)
    ensures !v.Str? && !v.Arr? && !(v.Obj? && Truthy(UrlOf(v))) ==> r == d
    ensures r == v || r == d || Truthy(r)
  {
    if v.Str? && Contains(v.s, "http") then v
    else if v.Arr? && |v.items| > 0 && Truthy(UrlOf(v.items[0])) then UrlOf(v.items[0])
    else if Truthy(UrlOf(v)) then UrlOf(v)
    else d
  }

  /** "date": a Date gives its ISO text, a string passes, anything else gives
      the default. */
  function CoerceDate(v: Value, d: Value): (r: Value)
    ensures v.DateV? ==> r == Str(v.iso)
    ensures v.Str? ==> r == v
    ensures !v.DateV? && !v.Str? ==> r == d
  {
    match v
    case DateV(iso, _) => Str(iso)
    case Str(_) => v
    case _ => d
  }

  /** "relation": an array or any truthy value passes; a falsy one (false, 0,
      NaN, "") gives the default. */
  function CoerceRelation(v: Value, d: Value): (r: Value)
    ensures Truthy(v) || v.Arr? ==> r == v
    ensures !Truthy(v) ==> r == d
  {
    if v.Arr? then v
    else if Truthy(v) then v
    else d
  }

  /** The value a mapping writes for the cell `v`: the default for a null or
      missing cell whatever the type, otherwise the declared type's coercion;
      "object" and unknown types pass the value through. */
  function Coerce(v: Value, ty: FieldType, d: Value): (r: Value)
    ensures Nullish(v) ==> r == d
    ensures !Nullish(v) && (ty == ObjectType || ty.OtherType?) ==> r == v
  {
    if Nullish(v) then d
    else
      match ty
      case StringType => CoerceString(v)
      case NumberType => CoerceNumber(v, d)
      case BooleanType => CoerceBoolean(v)
      case ArrayType => CoerceArray(v, d)
      case ImageType => CoerceImage(v, d)
      case DateType => CoerceDate(v, d)
      case RelationType => CoerceRelation(v, d)
      case ObjectType => v
      case OtherType(_) => v
  }
}
