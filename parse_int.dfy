/** `Number.parseInt(s, 16)` as section 19.2.5 of ECMA-262 defines parseInt
    for radix 16: skip leading white space, take an optional sign, then an
    optional "0x" or "0X", then the longest run of hexadecimal digits; NaN
    when that run is empty. */
module JsParseInt {

  /** The Numbers parseInt(s, 16) can produce: NaN or an integer. */
  datatype Number = NaN | Int(value: int)

  /** StrWhiteSpaceChar: the WhiteSpace code points (TAB, VT, FF, ZWNBSP and
      the Space_Separator category) and the LineTerminators. */
  predicate IsStrWhiteSpace(c: char)
  {
    var n := c as int;
    || n == 0x09 || n == 0x0B || n == 0x0C || n == 0xFEFF
    || n == 0x20 || n == 0xA0 || n == 0x1680 || 0x2000 <= n <= 0x200A
    || n == 0x202F || n == 0x205F || n == 0x3000
    || n == 0x0A || n == 0x0D || n == 0x2028 || n == 0x2029
  }

  predicate AllWhiteSpace(s: string)
  {
    forall i :: 0 <= i < |s| ==> IsStrWhiteSpace(s[i])
  }

  predicate IsHexDigit(c: char)
  {
    '0' <= c <= '9' || 'a' <= c <= 'f' || 'A' <= c <= 'F'
  }

  predicate AllHexDigits(s: string)
  {
    forall i :: 0 <= i < |s| ==> IsHexDigit(s[i])
  }

  function DigitValue(c: char): (d: nat)
    requires IsHexDigit(c)
    ensures d < 16
  {
    if '0' <= c <= '9' then c as int - '0' as int
    else if 'a' <= c <= 'f' then c as int - 'a' as int + 10
    else c as int - 'A' as int + 10
  }

  /** TrimString(s, start): `s` without its leading white space. */
  function TrimStart(s: string): (t: string)
    ensures |t| <= |s| && t == s[|s| - |t|..]
    ensures AllWhiteSpace(s[..|s| - |t|])
    ensures t == [] || !IsStrWhiteSpace(t[0])
  {
    if s != [] && IsStrWhiteSpace(s[0]) then
      var t := TrimStart(s[1..]);
      assert s[..|s| - |t|] == [s[0]] + s[1..][..|s| - 1 - |t|];
      t
    else
      s
  }

  /** Length of the longest prefix of `s` made of hexadecimal digits. */
  function HexRunLength(s: string): (k: nat)
    ensures k <= |s| && AllHexDigits(s[..k])
    ensures k == |s| || !IsHexDigit(s[k])
  {
    if s != [] && IsHexDigit(s[0]) then
      var k := HexRunLength(s[1..]);
      assert s[..k + 1] == [s[0]] + s[1..][..k];
      k + 1
    else
      0
  }

  /** The value of a string of hexadecimal digits, most significant first. */
  function HexValue(digits: string): nat
    requires AllHexDigits(digits)
  {
    if digits == [] then 0
    else HexValue(digits[..|digits| - 1]) * 16 + DigitValue(digits[|digits| - 1])
  }

  predicate HasHexPrefix(s: string)
  {
    |s| >= 2 && s[0] == '0' && (s[1] == 'x' || s[1] == 'X')
  }

  /** Number.parseInt(input, 16). */
  function ParseInt16(input: string): Number
  {
    ParseSigned(TrimStart(input))
  }

  /** A leading "-" negates, a leading "+" is dropped. */
  function ParseSigned(s: string): Number
  {
    if s != [] && s[0] == '-' then Negate(ParseUnsigned(s[1..]))
    else if s != [] && s[0] == '+' then ParseUnsigned(s[1..])
    else ParseUnsigned(s)
  }

  function Negate(n: Number): Number
  {
    match n
    case NaN => NaN
    case Int(v) => Int(-v)
  }

  /** Radix 16 strips an optional "0x" or "0X". */
  function ParseUnsigned(u: string): Number
  {
    ParseDigits(if HasHexPrefix(u) then u[2..] else u)
  }

  /** The value of the longest run of digits, NaN when there is none. */
  function ParseDigits(body: string): Number
  {
    var end := HexRunLength(body);
    if end == 0 then NaN else Int(HexValue(body[..end]))
  }

  /** The lower-case digit for a value below 16. */
  function HexDigitChar(d: nat): (c: char)
    requires d < 16
    ensures IsHexDigit(c) && DigitValue(c) == d
  {
    if d < 10 then ('0' as int + d) as char else ('a' as int + d - 10) as char
  }

  /** `n` in lower-case hexadecimal, without leading zeros. */
  function ToHex(n: nat): (s: string)
    ensures s != [] && AllHexDigits(s)
  {
    if n < 16 then [HexDigitChar(n)] else ToHex(n / 16) + [HexDigitChar(n % 16)]
  }

  /** The QUANTITY encoding a wallet uses for the `eth_chainId` result. */
  function QuantityHex(n: nat): string
  {
    "0x" + ToHex(n)
  }

  /** ToHex writes no leading zero except for zero itself. */
  lemma {:induction false} ToHexNoLeadingZero(n: nat)
    ensures ToHex(n)[0] == '0' <==> n == 0
  {
    if n >= 16 {
      ToHexNoLeadingZero(n / 16);
    }
  }

  /** HexValue reads back what ToHex writes. */
  lemma {:induction false} HexValueOfToHex(n: nat)
    ensures HexValue(ToHex(n)) == n
  {
    var s := ToHex(n);
    if n >= 16 {
      HexValueOfToHex(n / 16);
      assert s[..|s| - 1] == ToHex(n / 16);
    }
  }

  /** Removing leading white space that is followed by something else. */
  lemma {:induction false} TrimStartSkipsWhiteSpace(ws: string, t: string)
    requires AllWhiteSpace(ws)
    requires t == [] || !IsStrWhiteSpace(t[0])
    ensures TrimStart(ws + t) == t
  {
    if ws != [] {
      assert (ws + t)[1..] == ws[1..] + t;
      TrimStartSkipsWhiteSpace(ws[1..], t);
    } else {
      assert ws + t == t;
    }
  }

  /** The digit run ends exactly where the digits end. */
  lemma {:induction false} HexRunOfDigits(digits: string, rest: string)
    requires AllHexDigits(digits)
    requires rest == [] || !IsHexDigit(rest[0])
    ensures HexRunLength(digits + rest) == |digits|
  {
    if digits != [] {
      assert (digits + rest)[1..] == digits[1..] + rest;
      HexRunOfDigits(digits[1..], rest);
    } else {
      assert digits + rest == rest;
    }
  }

  /** Digits followed by anything that does not continue them. */
  lemma {:induction false} ParseDigitsOf(digits: string, rest: string)
    requires AllHexDigits(digits)
    requires rest == [] || !IsHexDigit(rest[0])
    ensures ParseDigits(digits + rest) == if digits == [] then NaN else Int(HexValue(digits))
  {
    HexRunOfDigits(digits, rest);
    assert (digits + rest)[..|digits|] == digits;
  }

  /** Stripping the radix-16 prefix, when there is one. */
  lemma {:induction false} ParseUnsignedOf(prefix: string, body: string)
    requires prefix == "0x" || prefix == "0X" || (prefix == "" && !HasHexPrefix(body))
    ensures ParseUnsigned(prefix + body) == ParseDigits(body)
  {
    if prefix != "" {
      assert (prefix + body)[2..] == body;
    } else {
      assert prefix + body == body;
    }
  }

  /** Stripping the sign. */
  lemma {:induction false} ParseSignedOf(sign: string, unsigned: string)
    requires sign == "+" || sign == "-" || (sign == "" && (unsigned == [] || (unsigned[0] != '+' && unsigned[0] != '-')))
    ensures ParseSigned(sign + unsigned)
         == if sign == "-" then Negate(ParseUnsigned(unsigned)) else ParseUnsigned(unsigned)
  {
    if sign != "" {
      assert (sign + unsigned)[1..] == unsigned;
    } else {
      assert sign + unsigned == unsigned;
    }
  }

  /** Leading white space does not change the result. */
  lemma {:induction false} ParseInt16AfterWhiteSpace(ws: string, t: string)
    requires AllWhiteSpace(ws)
    requires t == [] || !IsStrWhiteSpace(t[0])
    ensures ParseInt16(ws + t) == ParseSigned(t)
  {
    TrimStartSkipsWhiteSpace(ws, t);
  }

  /** Sign, prefix and digits, once the white space is gone. */
  lemma {:induction false} ParseSignedDigits(sign: string, prefix: string, digits: string, rest: string)
    requires sign == "" || sign == "+" || sign == "-"
    requires prefix == "" || prefix == "0x" || prefix == "0X"
    requires digits != [] && AllHexDigits(digits)
    requires rest == [] || !IsHexDigit(rest[0])
    requires prefix == "" ==> !HasHexPrefix(digits + rest)
    ensures ParseSigned(sign + (prefix + (digits + rest)))
         == Int(if sign == "-" then -(HexValue(digits) as int) else HexValue(digits))
  {
    var body := digits + rest;
    var unsigned := prefix + body;
    ParseDigitsOf(digits, rest);
    ParseUnsignedOf(prefix, body);
    assert IsHexDigit(body[0]);
    assert unsigned[0] == '0' || IsHexDigit(unsigned[0]);
    ParseSignedOf(sign, unsigned);
  }

  /** Every input of the form white space, sign, prefix, digits, then
      anything that does not continue the digits parses to the signed value
      of the digits. */
  lemma {:induction false} ParseInt16Digits(ws: string, sign: string, prefix: string, digits: string, rest: string)
    requires AllWhiteSpace(ws)
    requires sign == "" || sign == "+" || sign == "-"
    requires prefix == "" || prefix == "0x" || prefix == "0X"
    requires digits != [] && AllHexDigits(digits)
    requires rest == [] || !IsHexDigit(rest[0])
    requires prefix == "" ==> !HasHexPrefix(digits + rest)
    ensures ParseInt16(ws + sign + prefix + digits + rest)
         == Int(if sign == "-" then -(HexValue(digits) as int) else HexValue(digits))
  {
    var t := sign + (prefix + (digits + rest));
    calc {
      ws + sign + prefix + digits + rest;
      ws + t;
    }
    assert IsHexDigit(digits[0]);
    if sign != "" {
      assert t[0] == sign[0];
    } else if prefix != "" {
      assert t[0] == '0';
    } else {
      assert t[0] == digits[0];
    }
    ParseInt16AfterWhiteSpace(ws, t);
    ParseSignedDigits(sign, prefix, digits, rest);
  }

  /** Sign and prefix followed by no digit, once the white space is gone. */
  lemma {:induction false} ParseSignedNoDigits(sign: string, prefix: string, rest: string)
    requires sign == "" || sign == "+" || sign == "-"
    requires prefix == "" || prefix == "0x" || prefix == "0X"
    requires rest == [] || !IsHexDigit(rest[0])
    requires sign == "" && prefix == "" && rest != [] ==> rest[0] != '+' && rest[0] != '-'
    ensures ParseSigned(sign + (prefix + rest)) == NaN
  {
    var unsigned := prefix + rest;
    ParseDigitsOf([], rest);
    assert [] + rest == rest;
    ParseUnsignedOf(prefix, rest);
    if prefix != "" {
      assert unsigned[0] == '0';
    }
    ParseSignedOf(sign, unsigned);
  }

  /** An input whose sign and prefix are followed by no hexadecimal digit
      parses to NaN. */
  lemma {:induction false} ParseInt16NoDigits(ws: string, sign: string, prefix: string, rest: string)
    requires AllWhiteSpace(ws)
    requires sign == "" || sign == "+" || sign == "-"
    requires prefix == "" || prefix == "0x" || prefix == "0X"
    requires rest == [] || !IsHexDigit(rest[0])
    requires sign == "" && prefix == "" && rest != [] ==>
               !IsStrWhiteSpace(rest[0]) && rest[0] != '+' && rest[0] != '-'
    ensures ParseInt16(ws + sign + prefix + rest) == NaN
  {
    var t := sign + (prefix + rest);
    calc {
      ws + sign + prefix + rest;
      ws + t;
    }
    if sign != "" {
      assert t[0] == sign[0];
    } else if prefix != "" {
      assert t[0] == '0';
    } else {
      assert t == rest;
    }
    ParseInt16AfterWhiteSpace(ws, t);
    ParseSignedNoDigits(sign, prefix, rest);
  }

  /** No hexadecimal digit is white space or a sign. */
  lemma HexDigitIsNotSpaceOrSign(c: char)
    requires IsHexDigit(c)
    ensures !IsStrWhiteSpace(c) && c != '+' && c != '-'
  {
  }

  /** "0x" followed by digits reads as those digits. */
  lemma {:induction false} ParseQuantity(h: string)
    requires h != [] && AllHexDigits(h)
    ensures ParseInt16("0x" + h) == Int(HexValue(h))
  {
    assert h + [] == h;
    ParseDigitsOf(h, []);
    var q := "0x" + h;
    assert q[0] == '0' && q[2..] == h;
    assert TrimStart(q) == q;
    assert ParseUnsigned(q) == ParseDigits(h);
  }

  /** Digits that do not start with "0x" read as themselves. */
  lemma {:induction false} ParseBareHex(h: string)
    requires h != [] && AllHexDigits(h) && !HasHexPrefix(h)
    ensures ParseInt16(h) == Int(HexValue(h))
  {
    assert h + [] == h;
    ParseDigitsOf(h, []);
    HexDigitIsNotSpaceOrSign(h[0]);
    assert TrimStart(h) == h;
    assert ParseSigned(h) == ParseUnsigned(h);
  }

  /** The chain id a wallet reports as a QUANTITY parses back to itself,
      with or without the "0x" prefix. */
  lemma {:induction false} ChainIdRoundTrip(n: nat)
    ensures ParseInt16(QuantityHex(n)) == Int(n)
    ensures ParseInt16(ToHex(n)) == Int(n)
  {
    var h := ToHex(n);
    HexValueOfToHex(n);
    ToHexNoLeadingZero(n);
    assert !HasHexPrefix(h) by {
      if n == 0 {
        assert h == "0";
      }
    }
    ParseQuantity(h);
    ParseBareHex(h);
  }
}
