/** The JavaScript string primitives the core relies on: `split`, `join`,
    `trim`, `includes`, `startsWith`, ASCII case mapping, the conversion of a
    number to text, `Number.parseFloat` / `Number.parseInt`, and the first
    match of the regular expression `\d+(\.\d+)?`. */
module Text {
  import opened Wrappers

  predicate IsDigit(c: char) { '0' <= c <= '9' }

  function DigitValue(c: char): (d: nat)
    requires IsDigit(c)
    ensures d < 10
  {
    c as int - '0' as int
  }

  function DigitChar(d: nat): (c: char)
    requires d < 10
    ensures IsDigit(c) && DigitValue(c) == d
  {
    ('0' as int + d) as char
  }

  predicate AllDigits(s: string) { forall i :: 0 <= i < |s| ==> IsDigit(s[i]) }

  /** The characters JavaScript's `trim` removes: white space and line terminators. */
  predicate IsSpace(c: char) {
    var k := c as int;
    k == 0x09 || k == 0x0A || k == 0x0B || k == 0x0C || k == 0x0D || k == 0x20
    || k == 0xA0 || k == 0x1680 || (0x2000 <= k <= 0x200A) || k == 0x2028 || k == 0x2029
    || k == 0x202F || k == 0x205F || k == 0x3000 || k == 0xFEFF
  }

  // ----- includes / startsWith -----

  predicate StartsWith(s: string, prefix: string) {
    |prefix| <= |s| && s[..|prefix|] == prefix
  }

  /** `s.includes(sub)`. */
  predicate Contains(s: string, sub: string)
    decreases |s|
  {
    StartsWith(s, sub) || (|s| > 0 && Contains(s[1..], sub))
  }

  // ----- trim -----

  function TrimStart(s: string): (r: string)
    ensures |r| <= |s| && r == s[|s| - |r|..]
    ensures r == [] || !IsSpace(r[0])
    ensures forall i :: 0 <= i < |s| - |r| ==> IsSpace(s[i])
    decreases |s|
  {
    if |s| > 0 && IsSpace(s[0]) then TrimStart(s[1..]) else s
  }

  function TrimEnd(s: string): (r: string)
    ensures r <= s
    ensures r == [] || !IsSpace(r[|r| - 1])
    ensures forall i :: |r| <= i < |s| ==> IsSpace(s[i])
    decreases |s|
  {
    if |s| > 0 && IsSpace(s[|s| - 1]) then TrimEnd(s[..|s| - 1]) else s
  }

  /** `s.trim()`: a piece of `s` that neither starts nor ends with white space
      (`TrimCutsWhiteSpace` shows that only white space is cut). */
  function Trim(s: string): (r: string)
    ensures |r| <= |s|
    ensures r == [] || (!IsSpace(r[0]) && !IsSpace(r[|r| - 1]))
  {
    var t := TrimStart(s);
    var r := TrimEnd(t);
    assert r == [] || r[0] == t[0];
    r
  }

  /** The trim is a piece of `s`, and everything cut from either end of `s`
      is white space. */
  lemma TrimCutsWhiteSpace(s: string)
    ensures exists k :: 0 <= k <= |s| - |Trim(s)| && Trim(s) == s[k..][..|Trim(s)|]
              && (forall i :: 0 <= i < k ==> IsSpace(s[i]))
              && (forall i :: k + |Trim(s)| <= i < |s| ==> IsSpace(s[i]))
  {
    var t := TrimStart(s);
    var r := TrimEnd(t);
    var k := |s| - |t|;
    assert t == s[k..];
    assert r == t[..|r|];
    forall i | k + |r| <= i < |s|
      ensures IsSpace(s[i])
    {
      assert s[i] == t[i - k];
    }
  }

  /** A character absent from a text is absent from its trim. */
  lemma TrimKeepsOut(s: string, c: char)
    requires c !in s
    ensures c !in Trim(s)
  {
    var t := TrimStart(s);
    forall i | 0 <= i < |t| ensures t[i] != c {
      assert t[i] == s[|s| - |t| + i];
    }
    var r := TrimEnd(t);
    forall i | 0 <= i < |r| ensures r[i] != c {
      assert r[i] == t[i];
    }
  }

  /** Text without white space at either end is its own trim. */
  lemma TrimUnchanged(s: string)
    requires s == [] || (!IsSpace(s[0]) && !IsSpace(s[|s| - 1]))
    ensures Trim(s) == s
  {
    TrimStartUnchanged(s);
  }

  /** `s.includes(c)` for a one-character text is membership. */
  lemma {:induction false} ContainsChar(s: string, c: char)
    ensures Contains(s, [c]) <==> c in s
    decreases |s|
  {
    if |s| > 0 {
      ContainsChar(s[1..], c);
      assert s == [s[0]] + s[1..];
    }
  }

  // ----- split / join -----

  /** `s.split(c)` for a one-character separator: never empty, and no piece
      holds the separator. */
  function Split(s: string, c: char): (r: seq<string>)
    ensures |r| >= 1
    ensures forall i :: 0 <= i < |r| ==> c !in r[i]
    decreases |s|
  {
    if |s| == 0 then [""]
    else
      var rest := Split(s[1..], c);
      if s[0] == c then [""] + rest else [[s[0]] + rest[0]] + rest[1..]
  }

  /** `ws.join(sep)`. */
  function Join(ws: seq<string>, sep: string): string
  {
    if |ws| == 0 then ""
    else if |ws| == 1 then ws[0]
    else ws[0] + sep + Join(ws[1..], sep)
  }

  /** Joining the pieces of a split with the separator gives the text back. */
  lemma {:induction false} JoinSplit(s: string, c: char)
    ensures Join(Split(s, c), [c]) == s
    decreases |s|
  {
    if |s| > 0 {
      var rest := Split(s[1..], c);
      JoinSplit(s[1..], c);
      if s[0] == c {
        assert Split(s, c) == [""] + rest;
        assert ([""] + rest)[1..] == rest;
        assert s == [c] + s[1..];
      } else {
        var r := [[s[0]] + rest[0]] + rest[1..];
        assert Split(s, c) == r;
        if |rest| == 1 {
          assert s == [s[0]] + s[1..];
        } else {
          assert r[1..] == rest[1..];
          assert Join(rest, [c]) == rest[0] + [c] + Join(rest[1..], [c]);
          assert s == [s[0]] + s[1..];
        }
      }
    }
  }

  lemma {:induction false} SplitWithoutSeparator(w: string, c: char)
    requires c !in w
    ensures Split(w, c) == [w]
    decreases |w|
  {
    if |w| > 0 {
      SplitWithoutSeparator(w[1..], c);
      assert w == [w[0]] + w[1..];
    }
  }

  lemma {:induction false} SplitAfterPiece(w: string, c: char, t: string)
    requires c !in w
    ensures Split(w + [c] + t, c) == [w] + Split(t, c)
    decreases |w|
  {
    var s := w + [c] + t;
    if |w| == 0 {
      assert s[1..] == t;
    } else {
      assert s[1..] == w[1..] + [c] + t;
      SplitAfterPiece(w[1..], c, t);
      assert w == [w[0]] + w[1..];
    }
  }

  /** Splitting a join again gives the pieces back, when no piece holds the separator. */
  lemma {:induction false} SplitJoin(ws: seq<string>, c: char)
    requires |ws| >= 1
    requires forall i :: 0 <= i < |ws| ==> c !in ws[i]
    ensures Split(Join(ws, [c]), c) == ws
    decreases |ws|
  {
    if |ws| == 1 {
      SplitWithoutSeparator(ws[0], c);
    } else {
      SplitJoin(ws[1..], c);
      SplitAfterPiece(ws[0], c, Join(ws[1..], [c]));
      assert ws == [ws[0]] + ws[1..];
    }
  }

  // ----- case mapping (ASCII letters only) -----

  function LowerChar(c: char): char {
    if 'A' <= c <= 'Z' then (c as int + 32) as char else c
  }

  function UpperChar(c: char): char {
    if 'a' <= c <= 'z' then (c as int - 32) as char else c
  }

  /** `s.toLowerCase()`: lower-casing twice is lower-casing once. */
  function ToLower(s: string): (r: string)
    ensures |r| == |s|
    ensures forall i :: 0 <= i < |r| ==> r[i] == LowerChar(s[i]) && !('A' <= r[i] <= 'Z')
  {
    seq(|s|, i requires 0 <= i < |s| => LowerChar(s[i]))
  }

  lemma ToLowerIdempotent(s: string)
    ensures ToLower(ToLower(s)) == ToLower(s)
  {
  }

  // ----- numbers as text -----

  /** The value of a run of decimal digits. */
  function DigitsValue(s: string): nat
    requires AllDigits(s)
  {
    if |s| == 0 then 0 else DigitsValue(s[..|s| - 1]) * 10 + DigitValue(s[|s| - 1])
  }

  /** The decimal text of a natural number: digits only, no leading zero,
      and reading it back gives the number. */
  function NatText(n: nat): (r: string)
    ensures |r| >= 1 && AllDigits(r)
    ensures r[0] != '0' || r == "0"
    ensures DigitsValue(r) == n
  {
    if n < 10 then [DigitChar(n)]
    else
      var r := NatText(n / 10) + [DigitChar(n % 10)];
      assert r[..|r| - 1] == NatText(n / 10);
      r
  }

  /** The text JavaScript gives an integer. */
  function IntText(k: int): (r: string)
    ensures |r| >= 1
  {
    if k < 0 then "-" + NatText(-k) else NatText(k)
  }

  /** Up to `fuel` decimal digits of a fraction in [0, 1), without trailing zeros. */
  function FractionText(f: real, fuel: nat): (r: string)
    requires 0.0 <= f < 1.0
    ensures AllDigits(r)
    decreases fuel
  {
    if fuel == 0 || f == 0.0 then ""
    else
      var d := (f * 10.0).Floor;
      [DigitChar(d)] + FractionText(f * 10.0 - d as real, fuel - 1)
  }

  /** The text of a number in positional notation. */
  function NumberText(x: real): string
  {
    if x < 0.0 then "-" + UnsignedText(-x) else UnsignedText(x)
  }

  function UnsignedText(x: real): string
    requires x >= 0.0
  {
    var n := x.Floor;
    NatText(n) + (if n as real == x then "" else "." + FractionText(x - n as real, 20))
  }

  /** On integers, the number text is the integer text. */
  lemma NumberTextOfInteger(k: int)
    ensures NumberText(k as real) == IntText(k)
  {
    if k < 0 {
      assert (-(k as real)).Floor == -k;
    } else {
      assert (k as real).Floor == k;
    }
  }

  // ----- parsing -----

  /** The longest run of digits at the start of `s`. */
  function LeadingDigits(s: string): (r: string)
    ensures r <= s && AllDigits(r)
    ensures |r| == |s| || !IsDigit(s[|r|])
    decreases |s|
  {
    if |s| > 0 && IsDigit(s[0]) then [s[0]] + LeadingDigits(s[1..]) else ""
  }

  lemma {:induction false} LeadingDigitsConcat(a: string, b: string)
    requires AllDigits(a)
    requires b == [] || !IsDigit(b[0])
    ensures LeadingDigits(a + b) == a
    decreases |a|
  {
    if |a| == 0 {
      assert a + b == b;
    } else {
      assert (a + b)[1..] == a[1..] + b;
      LeadingDigitsConcat(a[1..], b);
      assert a == [a[0]] + a[1..];
    }
  }

  /** The value of the digits after a decimal point: in [0, 1). */
  function FractionValue(ds: string): (r: real)
    requires AllDigits(ds)
    ensures 0.0 <= r < 1.0
  {
    if |ds| == 0 then 0.0 else (DigitValue(ds[0]) as real + FractionValue(ds[1..])) / 10.0
  }

  /** `Number.parseInt(s)` (base ten): leading white space, an optional sign,
      then the longest run of digits; None stands for NaN. */
  function ParseIntText(s: string): Option<int>
  {
    var t := TrimStart(s);
    var ds := LeadingDigits(SignFree(t));
    if ds == "" then None
    else Some(if IsNegative(t) then -(DigitsValue(ds) as int) else DigitsValue(ds))
  }

  predicate IsNegative(t: string) { |t| > 0 && t[0] == '-' }

  function SignFree(t: string): string {
    if |t| > 0 && (t[0] == '-' || t[0] == '+') then t[1..] else t
  }

  /** `Number.parseFloat(s)`: leading white space, an optional sign, then the
      longest prefix of the form digits [ "." digits ] holding at least one
      digit; None stands for NaN. */
  function ParseFloatText(s: string): Option<real>
  {
    var t := TrimStart(s);
    var x := ParseUnsignedFloat(SignFree(t));
    if x.None? then None else Some(if IsNegative(t) then -x.value else x.value)
  }

  /** The unsigned part of `Number.parseFloat`. */
  function ParseUnsignedFloat(body: string): Option<real>
  {
    var ip := LeadingDigits(body);
    var fp := FractionDigits(body);
    if ip == "" && fp == "" then None
    else if fp == "" then Some(DigitsValue(ip) as real)
    else Some(DigitsValue(ip) as real + FractionValue(fp))
  }

  /** The digits after the point that follows the leading digits of `body`. */
  function FractionDigits(body: string): (r: string)
    ensures AllDigits(r)
  {
    var rest := body[|LeadingDigits(body)|..];
    if |rest| > 0 && rest[0] == '.' then LeadingDigits(rest[1..]) else ""
  }

  lemma DigitIsNotSpace(c: char)
    requires IsDigit(c) || c == '-'
    ensures !IsSpace(c)
  {
  }

  lemma TrimStartUnchanged(s: string)
    requires |s| == 0 || !IsSpace(s[0])
    ensures TrimStart(s) == s
  {
  }

  /** The text of an integer: no leading space, an optional minus, then
      the digits of its magnitude and nothing after them. */
  lemma IntTextShape(k: int)
    ensures TrimStart(IntText(k)) == IntText(k)
    ensures IsNegative(IntText(k)) <==> k < 0
    ensures SignFree(IntText(k)) == NatText(if k < 0 then -k else k)
    ensures LeadingDigits(NatText(if k < 0 then -k else k)) == NatText(if k < 0 then -k else k)
    ensures FractionDigits(NatText(if k < 0 then -k else k)) == ""
  {
    var n: nat := if k < 0 then -k else k;
    var ds := NatText(n);
    var t := IntText(k);
    LeadingDigitsConcat(ds, "");
    assert ds + "" == ds;
    DigitIsNotSpace(t[0]);
    TrimStartUnchanged(t);
    assert SignFree(t) == ds;
  }

  /** Reading back the text of an integer gives the integer, with either parser. */
  lemma ParseIntegerText(k: int)
    ensures ParseIntText(IntText(k)) == Some(k)
    ensures ParseFloatText(IntText(k)) == Some(k as real)
  {
    IntTextShape(k);
    ParseIntOfIntText(k);
    ParseFloatOfIntText(k);
  }

  lemma ParseIntOfIntText(k: int)
    requires TrimStart(IntText(k)) == IntText(k)
    requires IsNegative(IntText(k)) <==> k < 0
    requires SignFree(IntText(k)) == NatText(if k < 0 then -k else k)
    requires LeadingDigits(NatText(if k < 0 then -k else k)) == NatText(if k < 0 then -k else k)
    ensures ParseIntText(IntText(k)) == Some(k)
  {
  }

  lemma ParseFloatOfIntText(k: int)
    requires TrimStart(IntText(k)) == IntText(k)
    requires IsNegative(IntText(k)) <==> k < 0
    requires SignFree(IntText(k)) == NatText(if k < 0 then -k else k)
    requires LeadingDigits(NatText(if k < 0 then -k else k)) == NatText(if k < 0 then -k else k)
    requires FractionDigits(NatText(if k < 0 then -k else k)) == ""
    ensures ParseFloatText(IntText(k)) == Some(k as real)
  {
    var n: nat := if k < 0 then -k else k;
    var ds := NatText(n);
    UnsignedOfIntegerDigits(ds);
    assert DigitsValue(ds) == n;
    assert ParseUnsignedFloat(SignFree(IntText(k))) == Some(n as real);
  }

  // ----- the regular expression \d+(\.\d+)? -----

  /** The match of `\d+(\.\d+)?` that starts at the beginning of `s`. */
  function DecimalAt(s: string): (m: string)
    requires |s| > 0 && IsDigit(s[0])
    ensures m <= s && |m| >= 1
    ensures IsUnsignedDecimal(m)
    ensures |m| == |s| || !IsDigit(s[|m|])
    ensures AllDigits(m) ==> !(|m| + 1 < |s| && s[|m|] == '.' && IsDigit(s[|m| + 1]))
  {
    var ip := LeadingDigits(s);
    var rest := s[|ip|..];
    if |rest| >= 2 && rest[0] == '.' && IsDigit(rest[1]) then
      var fp := LeadingDigits(rest[1..]);
      assert s[..|ip| + 1 + |fp|] == ip + "." + fp;
      ip + "." + fp
    else ip
  }

  /** Text of the form digits [ "." digits ] with digits on both sides of the point. */
  ghost predicate IsUnsignedDecimal(m: string) {
    exists ip: string, fp: string ::
      |ip| >= 1 && AllDigits(ip) && AllDigits(fp)
      && (m == ip || (|fp| >= 1 && m == ip + "." + fp))
  }

  /** `s.match(/\d+(\.\d+)?/)?.[0]`: the leftmost match, which starts at the
      first digit of `s` and is as long as the greedy pattern makes it; None
      when `s` holds no digit. */
  function FirstDecimalMatch(s: string): (r: Option<string>)
    ensures r.None? <==> forall i :: 0 <= i < |s| ==> !IsDigit(s[i])
    ensures r.Some? ==> IsUnsignedDecimal(r.value)
    ensures r.Some? ==>
      exists i :: 0 <= i < |s| && IsDigit(s[i]) && r.value == DecimalAt(s[i..])
                     && forall j :: 0 <= j < i ==> !IsDigit(s[j])
    decreases |s|
  {
    if |s| == 0 then None
    else if IsDigit(s[0]) then Some(DecimalAt(s))
    else
      var r := FirstDecimalMatch(s[1..]);
      if r.Some? then FirstMatchShift(s, r.value); r else r
  }

  lemma FirstMatchShift(s: string, m: string)
    requires |s| > 0 && !IsDigit(s[0])
    requires exists i :: 0 <= i < |s[1..]| && IsDigit(s[1..][i]) && m == DecimalAt(s[1..][i..])
                         && forall j :: 0 <= j < i ==> !IsDigit(s[1..][j])
    ensures exists i :: 0 <= i < |s| && IsDigit(s[i]) && m == DecimalAt(s[i..])
                        && forall j :: 0 <= j < i ==> !IsDigit(s[j])
  {
    var i :| 0 <= i < |s[1..]| && IsDigit(s[1..][i]) && m == DecimalAt(s[1..][i..])
             && forall j :: 0 <= j < i ==> !IsDigit(s[1..][j]);
    assert s[i + 1..] == s[1..][i..];
    assert forall j :: 0 <= j < i + 1 ==> !IsDigit(s[j]) by {
      forall j | 0 <= j < i + 1 ensures !IsDigit(s[j]) {
        if j > 0 { assert s[j] == s[1..][j - 1]; }
      }
    }
  }

  /** Parsing a match of `\d+(\.\d+)?` never fails and never gives a negative number. */
  lemma ParseUnsignedDecimal(m: string)
    requires IsUnsignedDecimal(m)
    ensures ParseFloatText(m).Some? && ParseFloatText(m).value >= 0.0
  {
    var ip, fp :| |ip| >= 1 && AllDigits(ip) && AllDigits(fp)
      && (m == ip || (|fp| >= 1 && m == ip + "." + fp));
    if m == ip {
      ParseDigits(ip);
    } else {
      ParseDigitsWithFraction(ip, fp);
    }
  }

  /** Text that starts with a digit is parsed by the unsigned part alone. */
  lemma ParseFloatOfUnsigned(m: string)
    requires |m| >= 1 && IsDigit(m[0])
    ensures ParseFloatText(m) == ParseUnsignedFloat(m)
  {
    DigitIsNotSpace(m[0]);
    TrimStartUnchanged(m);
    assert SignFree(m) == m;
  }

  lemma LeadingDigitsAll(ip: string)
    requires AllDigits(ip)
    ensures LeadingDigits(ip) == ip
  {
    LeadingDigitsConcat(ip, "");
    assert ip + "" == ip;
  }

  lemma UnsignedOfDigits(ip: string, fp: string, body: string)
    requires |ip| >= 1 && AllDigits(ip) && AllDigits(fp)
    requires LeadingDigits(body) == ip && FractionDigits(body) == fp
    ensures ParseUnsignedFloat(body) == Some(DigitsValue(ip) as real + FractionValue(fp))
  {
    if fp == "" {
      assert FractionValue(fp) == 0.0;
      assert ParseUnsignedFloat(body) == Some(DigitsValue(ip) as real);
    } else {
      assert ParseUnsignedFloat(body) == Some(DigitsValue(ip) as real + FractionValue(fp));
    }
  }

  lemma ParseDigits(ip: string)
    requires |ip| >= 1 && AllDigits(ip)
    ensures ParseFloatText(ip) == Some(DigitsValue(ip) as real)
  {
    ParseFloatOfUnsigned(ip);
    LeadingDigitsAll(ip);
    assert FractionDigits(ip) == "";
    UnsignedOfIntegerDigits(ip);
  }

  lemma UnsignedOfIntegerDigits(ip: string)
    requires |ip| >= 1 && AllDigits(ip)
    requires LeadingDigits(ip) == ip && FractionDigits(ip) == ""
    ensures ParseUnsignedFloat(ip) == Some(DigitsValue(ip) as real)
  {
  }

  lemma ParseDigitsWithFraction(ip: string, fp: string)
    requires |ip| >= 1 && AllDigits(ip) && AllDigits(fp)
    ensures ParseFloatText(ip + "." + fp) == Some(DigitsValue(ip) as real + FractionValue(fp))
  {
    var m := ip + "." + fp;
    var tail := "." + fp;
    assert m == ip + tail;
    ParseFloatOfUnsigned(m);
    assert LeadingDigits(m) == ip by {
      assert !IsDigit(tail[0]);
      LeadingDigitsConcat(ip, tail);
    }
    assert FractionDigits(m) == fp by {
      assert m[|ip|..] == tail;
      assert tail[1..] == fp;
      LeadingDigitsAll(fp);
    }
    UnsignedOfDigits(ip, fp, m);
  }
}
