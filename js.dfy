/** The few pieces of JavaScript's built-in semantics the storefront's logic
    leans on: truthiness, `Number(...)`, `parseInt`, `String.prototype.trim`,
    `Array.prototype.slice`/`splice`, `Math.ceil` of a quotient and the
    decimal rendering of a non-negative integer. Numbers are modelled as
    integers (plus NaN); the fractional forms are not modelled. */
module Js {
  import opened Wrappers

  /** A JavaScript number restricted to integers, plus NaN. */
  datatype JsNumber = Num(n: int) | NaN

  /** A JavaScript value as it arrives in a request body. An array carries
      its elements, since `Number` reads them; a plain object is opaque. */
  datatype JsValue =
    | Undefined
    | Null
    | Bool(b: bool)
    | Number(num: JsNumber)
    | Str(s: string)
    | Arr(elems: seq<JsValue>)
    | Obj

  /** `!!v`: false exactly for undefined, null, false, 0, NaN and "". */
  predicate Truthy(v: JsValue) {
    match v
    case Undefined => false
    case Null => false
    case Bool(b) => b
    case Number(x) => x.Num? && x.n != 0
    case Str(s) => s != ""
    case Arr(_) => true
    case Obj => true
  }

  // ---------------------------------------------------------------------
  // Whitespace and trim

  /** The characters `trim` removes: the ECMAScript WhiteSpace set (tab,
      vertical tab, form feed, the byte order mark and the Unicode space
      separators) and the LineTerminator set. */
  predicate IsWhitespace(c: char) {
    c == '\t' || c == '\U{000B}' || c == '\U{000C}' || c == '\U{FEFF}' ||
    c == ' ' || c == '\U{00A0}' || c == '\U{1680}' || '\U{2000}' <= c <= '\U{200A}' ||
    c == '\U{202F}' || c == '\U{205F}' || c == '\U{3000}' ||
    c == '\n' || c == '\r' || c == '\U{2028}' || c == '\U{2029}'
  }

  /** Every character of `s` is whitespace (this includes ""). */
  predicate IsBlank(s: string) {
    forall i :: 0 <= i < |s| ==> IsWhitespace(s[i])
  }

  function TrimStart(s: string): (r: string)
    ensures |r| <= |s|
    ensures r == s[|s| - |r|..]
    ensures r != [] ==> !IsWhitespace(r[0])
  {
    if s != [] && IsWhitespace(s[0]) then TrimStart(s[1..]) else s
  }

  function TrimEnd(s: string): (r: string)
    ensures |r| <= |s|
    ensures r == s[..|r|]
    ensures r != [] ==> !IsWhitespace(r[|r| - 1])
  {
    if s != [] && IsWhitespace(s[|s| - 1]) then TrimEnd(s[..|s| - 1]) else s
  }

  /** `s.trim()`: what is left starts and ends with a character that is not
      whitespace. */
  function Trim(s: string): (r: string)
    ensures |r| <= |s|
    ensures r != [] ==> !IsWhitespace(r[0]) && !IsWhitespace(r[|r| - 1])
  {
    var t := TrimStart(s);
    var r := TrimEnd(t);
    assert r != [] ==> r[0] == t[0];
    r
  }

  /** `trim` removes exactly the surrounding whitespace: a text that starts
      and ends with other characters comes back from any blank padding. */
  lemma TrimSurrounded(a: string, t: string, b: string)
    requires IsBlank(a) && IsBlank(b)
    requires t != [] && !IsWhitespace(t[0]) && !IsWhitespace(t[|t| - 1])
    ensures Trim(a + t + b) == t
  {
    assert a + t + b == a + (t + b);
    TrimStartPadding(a, t + b);
    TrimEndPadding(t, b);
  }

  lemma {:induction false} TrimStartPadding(a: string, x: string)
    requires IsBlank(a) && x != [] && !IsWhitespace(x[0])
    ensures TrimStart(a + x) == x
  {
    if a == [] {
      assert a + x == x;
    } else {
      assert (a + x)[0] == a[0];
      assert (a + x)[1..] == a[1..] + x;
      TrimStartPadding(a[1..], x);
    }
  }

  lemma {:induction false} TrimEndPadding(x: string, b: string)
    requires IsBlank(b) && x != [] && !IsWhitespace(x[|x| - 1])
    ensures TrimEnd(x + b) == x
    decreases |b|
  {
    if b == [] {
      assert x + b == x;
    } else {
      var c := x + b;
      assert c[|c| - 1] == b[|b| - 1];
      assert c[..|c| - 1] == x + b[..|b| - 1];
      TrimEndPadding(x, b[..|b| - 1]);
    }
  }

  lemma {:induction false} TrimStartBlank(s: string)
    ensures TrimStart(s) == [] <==> IsBlank(s)
  {
    if s == [] {
    } else if IsWhitespace(s[0]) {
      var t := s[1..];
      assert TrimStart(s) == TrimStart(t);
      TrimStartBlank(t);
      BlankCons(s);
    } else {
      assert TrimStart(s) == s;
    }
  }

  /** A string led by whitespace is blank exactly when its tail is. */
  lemma BlankCons(s: string)
    requires s != [] && IsWhitespace(s[0])
    ensures IsBlank(s) <==> IsBlank(s[1..])
  {
    var t := s[1..];
    if IsBlank(t) {
      forall i | 0 <= i < |s| ensures IsWhitespace(s[i]) {
        if i > 0 {
          assert s[i] == t[i - 1];
        }
      }
    }
    if IsBlank(s) {
      forall i | 0 <= i < |t| ensures IsWhitespace(t[i]) {
        assert t[i] == s[i + 1];
      }
    }
  }

  /** A string is falsy after trimming (`!s.trim()`) exactly when every one
      of its characters is whitespace. */
  lemma TrimEmptyIffBlank(s: string)
    ensures Trim(s) == "" <==> IsBlank(s)
  {
    TrimStartBlank(s);
    TrimEndOfNoLeadingSpace(TrimStart(s));
  }

  lemma {:induction false} TrimEndOfNoLeadingSpace(s: string)
    requires s != [] ==> !IsWhitespace(s[0])
    ensures TrimEnd(s) == [] <==> s == []
  {
    if s != [] && IsWhitespace(s[|s| - 1]) {
      assert |s| > 1;
      TrimEndOfNoLeadingSpace(s[..|s| - 1]);
    }
  }

  // ---------------------------------------------------------------------
  // Decimal digits

  predicate IsDigit(c: char) {
    '0' <= c <= '9'
  }

  predicate AllDigits(s: string) {
    forall i :: 0 <= i < |s| ==> IsDigit(s[i])
  }

  function DigitValue(c: char): (d: nat)
    requires IsDigit(c)
    ensures d < 10
  {
    (c as int) - ('0' as int)
  }

  function DigitChar(d: nat): (c: char)
    requires d < 10
    ensures IsDigit(c) && DigitValue(c) == d
  {
    (('0' as int) + d) as char
  }

  /** The value of a string of decimal digits, most significant first. */
  function DigitsValue(s: string): nat
    requires AllDigits(s)
  {
    if s == [] then 0 else DigitsValue(s[..|s| - 1]) * 10 + DigitValue(s[|s| - 1])
  }

  /** `String(n)` for a non-negative integer: its shortest decimal rendering. */
  function DecimalString(n: nat): (s: string)
    ensures s != [] && AllDigits(s)
    ensures |s| > 1 ==> s[0] != '0'
  {
    if n < 10 then [DigitChar(n)] else DecimalString(n / 10) + [DigitChar(n % 10)]
  }

  lemma {:induction false} DecimalStringValue(n: nat)
    ensures DigitsValue(DecimalString(n)) == n
  {
    if n >= 10 {
      DecimalStringValue(n / 10);
      var s := DecimalString(n);
      assert s[..|s| - 1] == DecimalString(n / 10);
    }
  }

  /** Distinct numbers render differently (so two timestamps give two ids). */
  lemma DecimalStringInjective(m: nat, n: nat)
    requires DecimalString(m) == DecimalString(n)
    ensures m == n
  {
    DecimalStringValue(m);
    DecimalStringValue(n);
  }

  // ---------------------------------------------------------------------
  // Number(string) and parseInt(string)

  /** `Number(s)` for a string: surrounding whitespace is ignored, a blank
      string is 0, an optionally signed run of decimal digits is its value,
      anything else is NaN. */
  function StringToNumber(s: string): (r: JsNumber)
    ensures IsBlank(s) ==> r == Num(0)
  {
    TrimEmptyIffBlank(s);
    var t := Trim(s);
    if t == "" then Num(0)
    else if t[0] == '-' && |t| > 1 && AllDigits(t[1..]) then Num(-(DigitsValue(t[1..]) as int))
    else if t[0] == '+' && |t| > 1 && AllDigits(t[1..]) then Num(DigitsValue(t[1..]))
    else if AllDigits(t) then Num(DigitsValue(t))
    else NaN
  }

  /** `Number(String(n))` gives `n` back. */
  lemma StringToNumberOfDecimal(n: nat)
    ensures StringToNumber(DecimalString(n)) == Num(n)
  {
    StringToNumberOfDigits(DecimalString(n));
    DecimalStringValue(n);
  }

  lemma DigitNotWhitespace(c: char)
    requires IsDigit(c)
    ensures !IsWhitespace(c)
  {
  }

  /** A run of decimal digits reads as its value. */
  lemma StringToNumberOfDigits(s: string)
    requires s != [] && AllDigits(s)
    ensures StringToNumber(s) == Num(DigitsValue(s))
  {
    DigitNotWhitespace(s[0]);
    DigitNotWhitespace(s[|s| - 1]);
    assert "" + s + "" == s;
    TrimSurrounded("", s, "");
  }

  /** `Number(v)` for the value kinds a request body can carry. An array is
      read through its string form, the elements joined by ",": the empty
      array is "" and so 0, an array of one element is that element's
      string (undefined and null give ""), and two or more elements put a
      comma in the text, which makes it NaN. A plain object reads as
      "[object Object]", which is NaN too. */
  function ToNumber(v: JsValue): (r: JsNumber)
    ensures v == Arr([]) ==> r == Num(0)
    ensures v.Arr? && |v.elems| >= 2 ==> r.NaN?
    ensures v.Arr? && |v.elems| == 1 && v.elems[0].Number? ==> r == v.elems[0].num
    ensures v.Arr? && |v.elems| == 1 && (v.elems[0].Undefined? || v.elems[0].Null?) ==> r == Num(0)
    ensures v.Str? && IsBlank(v.s) ==> r == Num(0)
    ensures v.Undefined? || v.Obj? ==> r.NaN?
  {
    match v
    case Undefined => NaN
    case Null => Num(0)
    case Bool(b) => if b then Num(1) else Num(0)
    case Number(x) => x
    case Str(s) => StringToNumber(s)
    case Obj => NaN
    case Arr(elems) => ArrayNumber(elems)
  }

  /** `Number` of an array with these elements. */
  function ArrayNumber(elems: seq<JsValue>): (r: JsNumber) {
    if |elems| == 0 then Num(0)
    else if |elems| > 1 then NaN
    else
      match elems[0]
      case Undefined => Num(0)
      case Null => Num(0)
      case Bool(_) => NaN
      case Obj => NaN
      case Number(x) => x
      case Str(s) => StringToNumber(s)
      case Arr(inner) => ArrayNumber(inner)
  }

  /** An array holding one number, or the decimal text of one, reads as that
      number; booleans inside an array do not (their text is "true"). */
  lemma ToNumberOfArrays(n: nat)
    ensures ToNumber(Arr([Number(Num(n))])) == Num(n)
    ensures ToNumber(Arr([Str(DecimalString(n))])) == Num(n)
    ensures ToNumber(Arr([Arr([Str(DecimalString(n))])])) == Num(n)
    ensures ToNumber(Arr([Bool(true)])) == NaN && ToNumber(Bool(true)) == Num(1)
  {
    StringToNumberOfDecimal(n);
    ToNumberOfTextArrays(DecimalString(n));
  }

  /** An array of one text, or of one array of one text, reads as the text. */
  lemma ToNumberOfTextArrays(s: string)
    ensures ToNumber(Arr([Str(s)])) == StringToNumber(s)
    ensures ToNumber(Arr([Arr([Str(s)])])) == StringToNumber(s)
  {
    var one := [Str(s)];
    assert |one| == 1 && one[0] == Str(s);
    assert ArrayNumber(one) == StringToNumber(s);
    var nested := [Arr(one)];
    assert |nested| == 1 && nested[0] == Arr(one);
    assert ArrayNumber(nested) == ArrayNumber(one);
  }

  /** Length of the longest prefix of `s` made of decimal digits. */
  function DigitRun(s: string): (k: nat)
    ensures k <= |s| && AllDigits(s[..k])
    ensures k < |s| ==> !IsDigit(s[k])
  {
    if s != [] && IsDigit(s[0]) then
      var k := 1 + DigitRun(s[1..]);
      assert forall i :: 1 <= i < k ==> s[..k][i] == s[1..][..k - 1][i - 1];
      k
    else 0
  }

  predicate IsHexDigit(c: char) {
    ('0' <= c <= '9') || ('a' <= c <= 'f') || ('A' <= c <= 'F')
  }

  predicate AllHexDigits(s: string) {
    forall i :: 0 <= i < |s| ==> IsHexDigit(s[i])
  }

  function HexDigitValue(c: char): (d: nat)
    requires IsHexDigit(c)
    ensures d < 16
  {
    if '0' <= c <= '9' then (c as int) - ('0' as int)
    else if 'a' <= c <= 'f' then (c as int) - ('a' as int) + 10
    else (c as int) - ('A' as int) + 10
  }

  /** The value of a string of hexadecimal digits, most significant first. */
  function HexValue(s: string): nat
    requires AllHexDigits(s)
  {
    if s == [] then 0 else HexValue(s[..|s| - 1]) * 16 + HexDigitValue(s[|s| - 1])
  }

  /** Length of the longest prefix of `s` made of hexadecimal digits. */
  function HexRun(s: string): (k: nat)
    ensures k <= |s| && AllHexDigits(s[..k])
    ensures k < |s| ==> !IsHexDigit(s[k])
  {
    if s != [] && IsHexDigit(s[0]) then
      var k := 1 + HexRun(s[1..]);
      assert forall i :: 1 <= i < k ==> s[..k][i] == s[1..][..k - 1][i - 1];
      k
    else 0
  }

  /** The text starts with the prefix "0x" or "0X" that makes `parseInt`
      read hexadecimal when it is given no radix. */
  predicate HexPrefixed(s: string) {
    |s| >= 2 && s[0] == '0' && (s[1] == 'x' || s[1] == 'X')
  }

  /** The unsigned part of `parseInt(s)` with no radix: after a "0x" or "0X"
      prefix the longest run of hexadecimal digits, otherwise the longest
      run of decimal digits; None when the run is empty. */
  function ParseMagnitude(body: string): (r: Option<nat>)
    ensures HexPrefixed(body) ==> (r.None? <==> HexRun(body[2..]) == 0)
    ensures !HexPrefixed(body) ==> (r.None? <==> DigitRun(body) == 0)
  {
    if HexPrefixed(body) then
      var h := body[2..];
      var k := HexRun(h);
      if k == 0 then None else Some(HexValue(h[..k]))
    else
      var k := DigitRun(body);
      if k == 0 then None else Some(DigitsValue(body[..k]))
  }

  /** A magnitude with its sign; None stays None (NaN). */
  function Signed(m: Option<nat>, neg: bool): (r: Option<int>) {
    match m
    case None => None
    case Some(v) => if neg then Some(-(v as int)) else Some(v)
  }

  /** `parseInt(s)` with no radix, as the query handlers call it: leading
      whitespace skipped, an optional sign, then a hexadecimal or decimal
      digit run; None stands for NaN (no digit found, or the query parameter
      was absent). Trailing characters are ignored. */
  function ParseInt(q: Option<string>): (r: Option<int>)
    ensures q.None? ==> r.None?
    ensures q.Some? && q.value == "" ==> r.None?
  {
    match q
    case None => None
    case Some(s) =>
      var t := TrimStart(s);
      var neg := t != [] && t[0] == '-';
      var body := if t != [] && (t[0] == '-' || t[0] == '+') then t[1..] else t;
      Signed(ParseMagnitude(body), neg)
  }

  /** A blank query, made only of whitespace, is NaN. */
  lemma ParseIntBlank(s: string)
    requires IsBlank(s)
    ensures ParseInt(Some(s)).None?
  {
    TrimStartBlank(s);
  }

  /** A text that starts with neither whitespace nor a sign is read as a
      magnitude only. */
  lemma ParseIntUnsigned(s: string)
    requires s != [] && !IsWhitespace(s[0]) && s[0] != '-' && s[0] != '+'
    ensures ParseInt(Some(s)) == Signed(ParseMagnitude(s), false)
  {
    assert TrimStart(s) == s;
  }

  /** A leading minus negates what follows it. */
  lemma ParseIntMinus(m: string)
    requires m != [] && m[0] == '-'
    ensures ParseInt(Some(m)) == Signed(ParseMagnitude(m[1..]), true)
  {
    assert !IsWhitespace(m[0]);
    assert TrimStart(m) == m;
  }

  lemma MagnitudeOfDecimal(n: nat)
    ensures ParseMagnitude(DecimalString(n)) == Some(n)
  {
    var s := DecimalString(n);
    DecimalStringValue(n);
    assert DigitRun(s) == |s|;
    assert s[..|s|] == s;
    assert !HexPrefixed(s) by {
      if |s| >= 2 {
        assert IsDigit(s[1]);
      }
    }
  }

  /** `parseInt` reads back the decimal text of a number, with or without a
      minus sign. */
  lemma ParseIntOfDecimal(n: nat)
    ensures ParseInt(Some(DecimalString(n))) == Some(n)
    ensures ParseInt(Some("-" + DecimalString(n))) == Some(-(n as int))
  {
    MagnitudeOfDecimal(n);
    ParseIntOfMagnitude(DecimalString(n), n);
  }

  lemma ParseIntOfMagnitude(s: string, n: nat)
    requires s != [] && IsDigit(s[0]) && ParseMagnitude(s) == Some(n)
    ensures ParseInt(Some(s)) == Some(n)
    ensures ParseInt(Some("-" + s)) == Some(-(n as int))
  {
    ParseIntUnsigned(s);
    var m := "-" + s;
    assert m[1..] == s;
    ParseIntMinus(m);
  }

  lemma MagnitudeHexExamples()
    ensures ParseMagnitude("0x10") == Some(16)
    ensures ParseMagnitude("0X1f") == Some(31)
    ensures ParseMagnitude("0x") == None
  {
    assert "0x10"[2..] == "10";
    assert HexRun("10") == 2 by {
      assert "10"[1..] == "0";
      assert HexRun("0") == 1;
    }
    assert "10"[..2] == "10" && "10"[..1] == "1";
    assert HexValue("10") == 16;
    assert "0X1f"[2..] == "1f";
    assert HexRun("1f") == 2 by {
      assert "1f"[1..] == "f";
      assert HexRun("f") == 1;
    }
    assert "1f"[..2] == "1f" && "1f"[..1] == "1";
    assert HexValue("1f") == 31;
    assert "0x"[2..] == "";
  }

  lemma MagnitudeDecimalExample()
    ensures ParseMagnitude("12abc") == Some(12)
  {
    var d := "12abc";
    assert !HexPrefixed(d);
    assert DigitRun(d) == 2 by {
      assert d[1..] == "2abc";
      assert "2abc"[1..] == "abc";
      assert DigitRun("abc") == 0;
    }
    assert d[..2] == "12" && "12"[..1] == "1";
    assert DigitsValue("1") == 1;
    assert DigitsValue("12") == 12;
  }

  /** Without a radix, "0x" and "0X" switch to hexadecimal, after an optional
      sign; a prefix with no hexadecimal digit after it is NaN, and trailing
      text after a decimal run is ignored. */
  lemma ParseIntHex()
    ensures ParseInt(Some("0x10")) == Some(16)
    ensures ParseInt(Some("-0X1f")) == Some(-31)
    ensures ParseInt(Some("0x")) == None
    ensures ParseInt(Some("12abc")) == Some(12)
  {
    ParseIntHexPositive();
    ParseIntHexNegative();
    ParseIntDecimalPrefix();
  }

  lemma ParseIntHexPositive()
    ensures ParseInt(Some("0x10")) == Some(16)
    ensures ParseInt(Some("0x")) == None
  {
    MagnitudeHexExamples();
    ParseIntUnsigned("0x10");
    ParseIntUnsigned("0x");
  }

  lemma ParseIntHexNegative()
    ensures ParseInt(Some("-0X1f")) == Some(-31)
  {
    MagnitudeHexExamples();
    assert "-0X1f"[1..] == "0X1f";
    ParseIntMinus("-0X1f");
  }

  lemma ParseIntDecimalPrefix()
    ensures ParseInt(Some("12abc")) == Some(12)
  {
    MagnitudeDecimalExample();
    ParseIntUnsigned("12abc");
  }

  lemma MagnitudeFractionExample()
    ensures ParseMagnitude("1.5") == Some(1)
  {
    var d := "1.5";
    assert !HexPrefixed(d);
    assert DigitRun(d) == 1 by {
      assert d[1..] == ".5";
      assert DigitRun(".5") == 0;
    }
    assert d[..1] == "1";
    assert DigitsValue("1") == 1;
  }

  /** A decimal point ends the digit run: "1.5" is 1 and "-1.5" is -1. */
  lemma ParseIntFraction()
    ensures ParseInt(Some("1.5")) == Some(1)
    ensures ParseInt(Some("-1.5")) == Some(-1)
  {
    MagnitudeFractionExample();
    ParseIntOfMagnitude("1.5", 1);
    assert "-" + "1.5" == "-1.5";
  }

  /** `parseInt(q) || d`: NaN and 0 both fall back to the default. */
  function ParseIntOr(q: Option<string>, d: int): (r: int)
    ensures r == d || (ParseInt(q).Some? && r == ParseInt(q).value)
    ensures r == d <== (ParseInt(q) == None || ParseInt(q) == Some(0))
    ensures d != 0 ==> r != 0
  {
    match ParseInt(q)
    case None => d
    case Some(n) => if n == 0 then d else n
  }

  // ---------------------------------------------------------------------
  // Arithmetic

  /** `Math.ceil(a / b)` computed exactly. */
  function CeilDiv(a: int, b: int): (r: int)
    requires b != 0
  {
    var q := a as real / b as real;
    -((-q).Floor)
  }

  /** For a positive divisor the ceiling is the least multiple count that
      covers `a`. */
  lemma CeilDivPositive(a: int, b: int)
    requires b > 0
    ensures (CeilDiv(a, b) - 1) * b < a <= CeilDiv(a, b) * b
  {
    var br := b as real;
    var q := a as real / br;
    var c := CeilDiv(a, b);
    assert q * br == a as real;
    assert (c - 1) as real < q <= c as real;
    RealScale((c - 1) as real, q, br);
    RealScale(q, c as real, br);
    assert ((c - 1) * b) as real == (c - 1) as real * br;
    assert (c * b) as real == c as real * br;
  }

  /** `pages` pages of `limit` items just hold `total` items: the last
      page is non-empty. */
  predicate PagesJustCover(pages: int, limit: int, total: int) {
    (pages - 1) * limit < total <= pages * limit
  }

  lemma PagesCover(total: nat, limit: int, pages: int)
    requires limit > 0 && pages == CeilDiv(total, limit)
    ensures PagesJustCover(pages, limit, total)
  {
    CeilDivPositive(total, limit);
  }

  lemma RealScale(x: real, y: real, k: real)
    requires x <= y && k > 0.0
    ensures x * k <= y * k
    ensures x < y ==> x * k < y * k
  {
  }

  /** For a non-negative dividend and positive divisor, Math.ceil agrees with
      integer division rounded up. */
  lemma CeilDivNat(a: nat, b: nat)
    requires b > 0
    ensures CeilDiv(a, b) == (a + b - 1) / b
    ensures CeilDiv(a, b) >= 0
  {
    CeilDivPositive(a, b);
    var c := CeilDiv(a, b);
    var d := (a + b - 1) / b;
    assert d * b <= a + b - 1 < (d + 1) * b;
    CeilUnique(a, b, c, d);
  }

  lemma CeilUnique(a: int, b: int, c: int, d: int)
    requires b > 0
    requires (c - 1) * b < a <= c * b
    requires d * b <= a + b - 1 < (d + 1) * b
    ensures c == d
  {
    assert (c - d + 1) * b > 0;
    PositiveFactor(c - d + 1, b);
    assert (d - c + 1) * b > 0;
    PositiveFactor(d - c + 1, b);
  }

  lemma PositiveFactor(x: int, b: int)
    requires b > 0 && x * b > 0
    ensures x > 0
  {
  }

  // ---------------------------------------------------------------------
  // Arrays

  /** How `slice` and `splice` read an index relative to a length: negative
      counts from the end, everything is clamped to [0, len]. */
  function RelativeIndex(i: int, len: nat): (r: nat)
    ensures r <= len
  {
    if i < 0 then (if len + i < 0 then 0 else len + i)
    else if i > len then len
    else i
  }

  /** `s.slice(start, end)` */
  function Slice<T>(s: seq<T>, start: int, end: int): (r: seq<T>)
    ensures |r| <= |s|
    ensures 0 <= start <= end <= |s| ==> r == s[start..end]
    ensures forall i :: 0 <= i < |r| ==> RelativeIndex(start, |s|) + i < |s| && r[i] == s[RelativeIndex(start, |s|) + i]
    ensures start >= |s| ==> r == []
  {
    var from := RelativeIndex(start, |s|);
    var to := RelativeIndex(end, |s|);
    if from < to then s[from..to] else []
  }

  /** The array after `copy.splice(index, 1)`: the element at the relative
      index is removed when there is one, otherwise nothing changes. */
  function SpliceOne<T>(s: seq<T>, index: int): (r: seq<T>)
    ensures 0 <= index < |s| ==>
      |r| == |s| - 1 &&
      (forall i :: 0 <= i < index ==> r[i] == s[i]) &&
      (forall i :: index <= i < |r| ==> r[i] == s[i + 1])
    ensures -|s| <= index < 0 ==> |r| == |s| - 1 && r == s[..|s| + index] + s[|s| + index + 1..]
    ensures index >= |s| ==> r == s
  {
    var at := RelativeIndex(index, |s|);
    if at < |s| then s[..at] + s[at + 1..] else s
  }
}
