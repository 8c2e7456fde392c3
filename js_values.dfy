/** The loosely-typed values a spreadsheet cell can hold once the external
    client has decoded it, with the JavaScript notions the core applies to
    them: nullishness, truthiness, property `url`, and `String(v)`. */
module JsValues {
  import opened Text

  /** A JavaScript value. Numbers are reals with NaN as its own case; a Date
      carries its ISO-8601 text and its `toString` text, both supplied by
      the clock/locale outside the model. */
  datatype Value =
    | Undefined
    | Null
    | Bool(b: bool)
    | Num(n: real)
    | NaN
    | Str(s: string)
    | Arr(items: seq<Value>)
    | Obj(fields: map<string, Value>)
    | DateV(iso: string, text: string)

  /** `v === undefined || v === null`. */
  predicate Nullish(v: Value) { v.Undefined? || v.Null? }

  /** JavaScript truthiness: false, 0, NaN, "", null and undefined are falsy. */
  predicate Truthy(v: Value) {
    match v
    case Undefined => false
    case Null => false
    case NaN => false
    case Bool(b) => b
    case Num(n) => n != 0.0
    case Str(s) => s != ""
    case _ => true
  }

  /** `a || b`. */
  function Or(a: Value, b: Value): (r: Value)
    ensures Truthy(a) ==> r == a
    ensures !Truthy(a) ==> r == b
  {
    if Truthy(a) then a else b
  }

  /** `v?.url`: only a plain object can carry the property. */
  function UrlOf(v: Value): (r: Value)
    ensures !v.Obj? ==> r == Undefined
  {
    if v.Obj? && "url" in v.fields then v.fields["url"] else Undefined
  }

  /** `String(v)`. An array is joined with "," after writing its null and
      undefined elements as empty text. */
  function ToText(v: Value): string
  {
    match v
    case Undefined => "undefined"
    case Null => "null"
    case Bool(b) => if b then "true" else "false"
    case Num(n) => NumberText(n)
    case NaN => "NaN"
    case Str(s) => s
    case Arr(items) => Join(ElementTexts(items), ",")
    case Obj(_) => "[object Object]"
    case DateV(_, text) => text
  }

  function ElementTexts(items: seq<Value>): (r: seq<string>)
    ensures |r| == |items|
  {
    if items == [] then []
    else [if Nullish(items[0]) then "" else ToText(items[0])] + ElementTexts(items[1..])
  }
}
