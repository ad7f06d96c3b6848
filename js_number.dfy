/**
 * The part of JavaScript's number semantics that the carts store relies on:
 * the integer and NaN values its ids and product ids take, the strict
 * equality `===` on them, and the global `parseInt` called without a radix
 * (section 19.2.5 of ECMA-262, "parseInt ( string, radix )"), applied either
 * to a number or to a piece of text such as a URL parameter.
 */
module JsNumber {

  /** A JavaScript number as far as the store sees one: an integer or NaN. */
  datatype Number = Int(value: int) | NaN

  /** A value handed in by a caller: a number, or text. */
  datatype Arg = NumberArg(number: Number) | TextArg(text: string)

  /** `a === b` on numbers: plain equality, except that NaN is equal to nothing, not even to itself. */
  predicate StrictEquals(a: Number, b: Number)
    ensures StrictEquals(a, b) <==> a != NaN && a == b
  {
    a.Int? && b.Int? && a.value == b.value
  }

  /** StrWhiteSpaceChar of ECMA-262: WhiteSpace (the Zs category, TAB, VT, FF, ZWNBSP) and LineTerminator. */
  predicate IsStrWhiteSpace(c: char)
  {
    c == '\t' || c == '\n' || c == '\U{000B}' || c == '\U{000C}' || c == '\r' || c == ' ' ||
    c == '\U{00A0}' || c == '\U{1680}' || ('\U{2000}' <= c <= '\U{200A}') ||
    c == '\U{2028}' || c == '\U{2029}' || c == '\U{202F}' || c == '\U{205F}' ||
    c == '\U{3000}' || c == '\U{FEFF}'
  }

  /** The text with its leading white space removed. */
  function TrimStart(s: string): (r: string)
    ensures |r| <= |s| && r == s[|s| - |r|..]
    ensures forall i :: 0 <= i < |s| - |r| ==> IsStrWhiteSpace(s[i])
    ensures r != [] ==> !IsStrWhiteSpace(r[0])
  {
    if s != [] && IsStrWhiteSpace(s[0]) then TrimStart(s[1..]) else s
  }

  /** The value of a digit in radix 36 ('0'..'9', then 'a'..'z' or 'A'..'Z'); 36 for any other character. */
  function DigitValue(c: char): (d: nat)
    ensures d <= 36
    ensures d < 10 <==> '0' <= c <= '9'
  {
    if '0' <= c <= '9' then c as int - '0' as int
    else if 'a' <= c <= 'z' then c as int - 'a' as int + 10
    else if 'A' <= c <= 'Z' then c as int - 'A' as int + 10
    else 36
  }

  predicate IsDigit(c: char, radix: nat)
  {
    DigitValue(c) < radix
  }

  /** The length of the longest prefix of `s` made of radix-`radix` digits. */
  function DigitRun(s: string, radix: nat): (n: nat)
    ensures n <= |s|
    ensures forall i :: 0 <= i < n ==> IsDigit(s[i], radix)
    ensures n < |s| ==> !IsDigit(s[n], radix)
  {
    if s != [] && IsDigit(s[0], radix) then 1 + DigitRun(s[1..], radix) else 0
  }

  /** The mathematical value of a string of digits, most significant first. */
  function DigitsValue(z: string, radix: nat): nat
  {
    if z == [] then 0 else DigitsValue(z[..|z| - 1], radix) * radix + DigitValue(z[|z| - 1])
  }

  /**
   * `parseInt(s)` on text: skip leading white space, take an optional sign,
   * read hexadecimal after a `0x` or `0X` prefix and decimal otherwise, stop
   * at the first character that is not a digit, and give NaN when no digit
   * was read. A number is read only from text holding a digit, and a
   * negative one only from text holding a minus sign.
   */
  function ParseText(s: string): (r: Number)
    ensures r.Int? ==> exists i :: 0 <= i < |s| && '0' <= s[i] <= '9'
    ensures r.Int? && r.value < 0 ==> exists i :: 0 <= i < |s| && s[i] == '-'
  {
    var t := TrimStart(s);
    var r := ParseSigned(t);
    assert r.Int? ==> '0' <= s[|s| - |t| + (if t[0] == '-' || t[0] == '+' then 1 else 0)] <= '9';
    assert r.Int? && r.value < 0 ==> s[|s| - |t|] == '-';
    r
  }

  /** An optional sign, then an unsigned number right after it. */
  function ParseSigned(t: string): (r: Number)
    ensures r.Int? ==> t != [] && var k := if t[0] == '-' || t[0] == '+' then 1 else 0; k < |t| && '0' <= t[k] <= '9'
    ensures r.Int? && r.value < 0 ==> t != [] && t[0] == '-'
  {
    if t != [] && t[0] == '-' then Negate(ParseUnsigned(t[1..]))
    else if t != [] && t[0] == '+' then ParseUnsigned(t[1..])
    else ParseUnsigned(t)
  }

  /** A non-negative number, read only from text that starts with a digit. */
  function ParseUnsigned(u: string): (r: Number)
    ensures r.Int? ==> r.value >= 0 && u != [] && '0' <= u[0] <= '9'
  {
    if |u| >= 2 && u[0] == '0' && (u[1] == 'x' || u[1] == 'X') then ParseDigits(u[2..], 16)
    else ParseDigits(u, 10)
  }

  function ParseDigits(v: string, radix: nat): (r: Number)
    ensures r.Int? ==> r.value >= 0 && v != [] && IsDigit(v[0], radix)
  {
    var n := DigitRun(v, radix);
    if n == 0 then NaN else Int(DigitsValue(v[..n], radix))
  }

  function Negate(x: Number): Number
  {
    match x
    case NaN => NaN
    case Int(n) => Int(0 - n)
  }

  /** A string made only of digits is read to its end. */
  lemma {:induction false} DigitRunOfDigits(z: string, radix: nat)
    requires forall i :: 0 <= i < |z| ==> IsDigit(z[i], radix)
    ensures DigitRun(z, radix) == |z|
  {
    if z != [] {
      DigitRunOfDigits(z[1..], radix);
    }
  }

  function DecimalDigit(d: nat): char
    requires d < 10
  {
    ('0' as int + d) as char
  }

  /** The decimal digits of `n`, without leading zeros. */
  function DecimalText(n: nat): string
  {
    if n < 10 then [DecimalDigit(n)] else DecimalText(n / 10) + [DecimalDigit(n % 10)]
  }

  /** `Number::toString` of a number, the text `parseInt` reads when it is given a number. */
  function NumberText(x: Number): string
  {
    match x
    case NaN => "NaN"
    case Int(n) => if n < 0 then "-" + DecimalText(-n) else DecimalText(n)
  }

  /**
   * `parseInt(a)`: a number is first turned into its text, and reading that
   * text gives the number back, so normalising a numeric id changes nothing.
   */
  function ParseInt(a: Arg): (r: Number)
    ensures a.NumberArg? ==> r == a.number
  {
    match a
    case NumberArg(x) => NumberTextParses(x); ParseText(NumberText(x))
    case TextArg(s) => ParseText(s)
  }

  lemma {:induction false} DecimalTextIsDigits(n: nat)
    ensures DecimalText(n) != []
    ensures forall i :: 0 <= i < |DecimalText(n)| ==> '0' <= DecimalText(n)[i] <= '9'
  {
    if n >= 10 {
      DecimalTextIsDigits(n / 10);
    }
  }

  lemma {:induction false} DecimalTextValue(n: nat)
    ensures DigitsValue(DecimalText(n), 10) == n
  {
    var z := DecimalText(n);
    if n >= 10 {
      DecimalTextValue(n / 10);
      assert z[..|z| - 1] == DecimalText(n / 10);
    }
  }

  /** A digit string is read whole, as its decimal value. */
  lemma ParseDigitsOfDigits(z: string, radix: nat)
    requires z != [] && forall i :: 0 <= i < |z| ==> IsDigit(z[i], radix)
    ensures ParseDigits(z, radix) == Int(DigitsValue(z, radix))
  {
    DigitRunOfDigits(z, radix);
    assert z[..|z|] == z;
  }

  predicate IsDecimalText(z: string)
  {
    z != [] && forall i :: 0 <= i < |z| ==> '0' <= z[i] <= '9'
  }

  lemma ParseUnsignedOfDecimal(z: string)
    requires IsDecimalText(z)
    ensures ParseUnsigned(z) == Int(DigitsValue(z, 10))
  {
    assert |z| >= 2 ==> z[1] != 'x' && z[1] != 'X';
    ParseDigitsOfDigits(z, 10);
  }

  lemma ParseTextOfDecimalText(z: string)
    requires IsDecimalText(z)
    ensures ParseText(z) == Int(DigitsValue(z, 10))
  {
    assert !IsStrWhiteSpace(z[0]);
    assert TrimStart(z) == z;
    assert z[0] != '-' && z[0] != '+';
    ParseUnsignedOfDecimal(z);
  }

  lemma ParseTextOfNegativeDecimalText(z: string)
    requires IsDecimalText(z)
    ensures ParseText("-" + z) == Int(0 - DigitsValue(z, 10))
  {
    var s := "-" + z;
    assert !IsStrWhiteSpace(s[0]);
    assert TrimStart(s) == s;
    assert s[1..] == z;
    ParseUnsignedOfDecimal(z);
  }

  /** On the text of a non-negative integer, `parseInt` reads every character and gives the integer back. */
  lemma DecimalTextParses(n: nat)
    ensures ParseText(DecimalText(n)) == Int(n)
  {
    DecimalTextIsDigits(n);
    DecimalTextValue(n);
    ParseTextOfDecimalText(DecimalText(n));
  }

  /** Reading the text of a number gives the number: an integer back, and NaN from "NaN". */
  lemma NumberTextParses(x: Number)
    ensures ParseText(NumberText(x)) == x
  {
    if x.NaN? {
      NaNTextParses();
    } else if x.value < 0 {
      NegativeTextParses(-x.value);
    } else {
      DecimalTextParses(x.value);
    }
  }

  lemma NegativeTextParses(n: nat)
    ensures ParseText("-" + DecimalText(n)) == Int(0 - n)
  {
    DecimalTextIsDigits(n);
    DecimalTextValue(n);
    ParseTextOfNegativeDecimalText(DecimalText(n));
  }

  lemma NaNTextParses()
    ensures ParseText("NaN") == NaN
  {
    assert TrimStart("NaN") == "NaN";
    assert DigitRun("NaN", 10) == 0;
  }

  /** Text arguments: a leading number is read and whatever follows it is ignored. */
  lemma ParseTextOfSignedPrefix()
    ensures ParseText(" -7px") == Int(-7)
  {
    var s := " -7px";
    assert IsStrWhiteSpace(s[0]) && !IsStrWhiteSpace(s[1]);
    assert TrimStart(s[1..]) == s[1..];
    assert s[1..][1..] == "7px";
    DigitThenLetters();
  }

  lemma DigitThenLetters()
    ensures ParseUnsigned("7px") == Int(7)
  {
    var v := "7px";
    assert DigitRun(v, 10) == 1 by {
      assert v[1..] == "px";
      assert DigitRun("px", 10) == 0;
    }
    assert v[..1] == "7" && "7"[..0] == [];
    assert ParseDigits(v, 10) == Int(7);
  }

  lemma ParseTextOfHex()
    ensures ParseText("0x1A") == Int(26)
  {
    var s := "0x1A";
    assert !IsStrWhiteSpace(s[0]);
    assert TrimStart(s) == s;
    var v := "1A";
    assert s[2..] == v;
    assert forall i :: 0 <= i < |v| ==> IsDigit(v[i], 16);
    ParseDigitsOfDigits(v, 16);
    assert v[..1] == "1" && "1"[..0] == [];
    assert DigitsValue(v, 16) == 26;
    assert ParseUnsigned(s) == Int(26);
  }

  /** Text from which no unsigned number can be read: no leading decimal digit, or a `0x` prefix with no hexadecimal digit after it. */
  predicate NoLeadingNumber(u: string)
  {
    !(u != [] && '0' <= u[0] <= '9') ||
    (|u| >= 2 && u[0] == '0' && (u[1] == 'x' || u[1] == 'X') && (|u| == 2 || !IsDigit(u[2], 16)))
  }

  lemma ParseUnsignedNaN(u: string)
    ensures ParseUnsigned(u) == NaN <==> NoLeadingNumber(u)
  {
    if |u| >= 2 && u[0] == '0' && (u[1] == 'x' || u[1] == 'X') {
      assert u[2..] != [] ==> u[2..][0] == u[2];
    } else {
      assert u != [] ==> (IsDigit(u[0], 10) <==> '0' <= u[0] <= '9');
    }
  }

  /**
   * Exactly when `parseInt` gives NaN: after the white space and an optional
   * sign no unsigned number can be read.
   */
  lemma ParseTextNaN(s: string)
    ensures ParseText(s) == NaN <==>
      var t := TrimStart(s);
      NoLeadingNumber(if t != [] && (t[0] == '-' || t[0] == '+') then t[1..] else t)
  {
    var t := TrimStart(s);
    var u := if t != [] && (t[0] == '-' || t[0] == '+') then t[1..] else t;
    ParseUnsignedNaN(u);
    assert ParseSigned(t) == NaN <==> ParseUnsigned(u) == NaN;
  }

  /** Text with no digit after its white space and sign, and no text at all, give NaN. */
  lemma ParseTextWithoutDigits()
    ensures ParseText("abc") == NaN
    ensures ParseText("") == NaN
  {
    assert !IsStrWhiteSpace('a');
    assert TrimStart("abc") == "abc";
    assert DigitRun("abc", 10) == 0;
  }

  /** A `0x` prefix with no hexadecimal digit after it gives NaN, although it starts with the digit 0. */
  lemma ParseTextOfBareHexPrefix()
    ensures ParseText("0xg") == NaN
  {
    var s := "0xg";
    assert !IsStrWhiteSpace(s[0]);
    assert TrimStart(s) == s;
    assert s[2..] == "g";
    assert DigitRun("g", 16) == 0;
  }
}
