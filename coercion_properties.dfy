/** Properties of the per-type coercions of lib/admin/sync-utils.ts: their
    round trips through text, idempotence, and the readings of prices. */
module CoercionProperties {
  import opened Wrappers
  import opened Seqs
  import opened Text
  import opened JsValues
  import opened FieldMappings
  import opened Coercion


  /** Coercing a coerced value again changes nothing, for every type but
      "image", provided the default is itself left alone by the coercion. */
  lemma CoerceIdempotent(v: Value, ty: FieldType, d: Value)
    requires ty != ImageType
    requires Coerce(d, ty, d) == d
    ensures Coerce(Coerce(v, ty, d), ty, d) == Coerce(v, ty, d)
  {
  }

  /** Joining items with "," and coercing the text as an array gives the
      items back. */
  lemma ArrayOfJoinedItems(items: seq<string>, d: Value)
    requires forall i :: 0 <= i < |items| ==> IsListItem(items[i])
    ensures CoerceArray(Str(Join(items, ",")), d) == Arr(Strs(items))
  {
    ListItemsOfJoin(items);
  }

  lemma ListItemsOfJoin(items: seq<string>)
    requires forall i :: 0 <= i < |items| ==> IsListItem(items[i])
    ensures ListItems(Join(items, ",")) == items
  {
    if items == [] {
      NoListItems();
    } else {
      ListItemsOfNonEmptyJoin(items);
    }
  }

  /** The empty text has no items: its one empty piece is dropped. */
  lemma NoListItems()
    ensures ListItems("") == []
  {
    assert Split("", ',') == [""];
    assert TrimAll([""]) == [""];
  }

  lemma ListItemsOfNonEmptyJoin(items: seq<string>)
    requires forall i :: 0 <= i < |items| ==> IsListItem(items[i])
    requires items != []
    ensures ListItems(Join(items, ",")) == items
  {
    var s := Join(items, ",");
    SplitJoin(items, ',');
    assert Split(s, ',') == items;
    TrimAllUnchanged(items);
    FilterAll(items, NonEmptyText);
  }

  lemma TrimAllUnchanged(items: seq<string>)
    requires forall i :: 0 <= i < |items| ==> IsListItem(items[i])
    ensures TrimAll(items) == items
  {
    forall i | 0 <= i < |items| ensures Trim(items[i]) == items[i] {
      TrimUnchanged(items[i]);
    }
  }

  /** The number a text gives is the parsed value of its first match. */
  lemma NumberOfMatch(s: string, m: string, x: real, d: Value)
    requires FirstDecimalMatch(s) == Some(m) && ParseFloatText(m) == Some(x)
    ensures CoerceNumber(Str(s), d) == Num(x)
  {
  }

  /** The number text of a natural number is its own match, and parses to
      that number. */
  lemma NatTextMatch(n: nat)
    ensures FirstDecimalMatch(NatText(n)) == Some(NatText(n))
    ensures ParseFloatText(NatText(n)) == Some(n as real)
  {
    var s := NatText(n);
    LeadingDigitsAll(s);
    assert DecimalAt(s) == s;
    ParseIntegerText(n);
    assert IntText(n) == s;
  }

  /** The number text of a natural number coerces back to that number. */
  lemma NumberOfNatText(n: nat, d: Value)
    ensures CoerceNumber(Str(NatText(n)), d) == Num(n as real)
  {
    var s := NatText(n);
    NatTextMatch(n);
    NumberOfMatch(s, s, n as real, d);
  }

  /** Text without digits in front of a number does not change the match. */
  lemma {:induction false} MatchAfterNonDigits(p: string, s: string)
    requires forall i :: 0 <= i < |p| ==> !IsDigit(p[i])
    ensures FirstDecimalMatch(p + s) == FirstDecimalMatch(s)
    decreases |p|
  {
    if |p| > 0 {
      assert (p + s)[1..] == p[1..] + s;
      MatchAfterNonDigits(p[1..], s);
    } else {
      assert p + s == s;
    }
  }

  /** A currency symbol or a sign in front of a natural number is skipped:
      "$45" gives 45, and "-5" gives 5, not -5. */
  lemma NumberAfterNonDigits(p: string, n: nat, d: Value)
    requires forall i :: 0 <= i < |p| ==> !IsDigit(p[i])
    ensures CoerceNumber(Str(p + NatText(n)), d) == Num(n as real)
  {
    var s := NatText(n);
    NatTextMatch(n);
    MatchAfterNonDigits(p, s);
    NumberOfMatch(p + s, s, n as real, d);
  }

  /** Digits, a point and digits are their own match, and parse to their
      value: with `MatchAfterNonDigits` and `NumberOfMatch`, "$45.99" gives
      45.99 and, by `ZeroFraction`, "$45.00" gives 45. */
  lemma DecimalWithFraction(ip: string, fp: string, m: string)
    requires |ip| >= 1 && AllDigits(ip)
    requires |fp| >= 1 && AllDigits(fp)
    requires m == ip + "." + fp
    ensures FirstDecimalMatch(m) == Some(m)
    ensures ParseFloatText(m) == Some(DigitsValue(ip) as real + FractionValue(fp))
  {
    FractionMatch(ip, fp);
    ParseDigitsWithFraction(ip, fp);
  }

  lemma FractionMatch(ip: string, fp: string)
    requires |ip| >= 1 && AllDigits(ip)
    requires |fp| >= 1 && AllDigits(fp)
    ensures FirstDecimalMatch(ip + "." + fp) == Some(ip + "." + fp)
  {
    DecimalOfFraction(ip, fp);
  }

  lemma DecimalOfFraction(ip: string, fp: string)
    requires |ip| >= 1 && AllDigits(ip)
    requires |fp| >= 1 && AllDigits(fp)
    ensures DecimalAt(ip + "." + fp) == ip + "." + fp
  {
    var s := ip + "." + fp;
    var tail := "." + fp;
    assert s == ip + tail;
    LeadingDigitsConcat(ip, tail);
    assert s[|ip|..] == tail;
    assert tail[1..] == fp;
    LeadingDigitsAll(fp);
  }

  /** Cents that are all zero add nothing: "$45.00" gives 45. */
  lemma {:induction false} ZeroFraction(fp: string)
    requires forall i :: 0 <= i < |fp| ==> fp[i] == '0'
    ensures AllDigits(fp) && FractionValue(fp) == 0.0
  {
    if |fp| > 0 {
      ZeroFraction(fp[1..]);
    }
  }

  /** Writing a natural number as text and coercing it back as a number
      gives the number. */
  lemma NumberThroughString(n: nat, d: Value)
    ensures CoerceNumber(CoerceString(Num(n as real)), d) == Num(n as real)
  {
    NumberTextOfInteger(n);
    NumberOfNatText(n, d);
  }

  /** Writing a boolean as text and coercing it back as a boolean gives the boolean. */
  lemma BooleanThroughString(b: bool)
    ensures CoerceBoolean(CoerceString(Bool(b))) == Bool(b)
  {
  }
}
