/** `Number.parseInt(string)` with no radix, as section 19.2.5 of ECMA-262
    defines `parseInt`: skip leading white space, take an optional sign,
    read radix 16 after a `0x`/`0X` prefix and radix 10 otherwise, then
    the longest run of digits of that radix; no digit at all gives NaN. */
module NumberParse {
  import opened Wrappers
  import Strings

  /** StrWhiteSpaceChar: WhiteSpace (TAB, VT, FF, ZWNBSP and every space
      separator of category Zs) or LineTerminator (LF, CR, LS, PS). */
  predicate IsStrWhiteSpaceChar(c: char)
  {
    || c == '\t' || c == '\U{000B}' || c == '\U{000C}' || c == '\U{FEFF}'
    || c == ' ' || c == '\U{00A0}' || c == '\U{1680}' || ('\U{2000}' <= c <= '\U{200A}')
    || c == '\U{202F}' || c == '\U{205F}' || c == '\U{3000}'
    || c == '\n' || c == '\r' || c == '\U{2028}' || c == '\U{2029}'
  }

  /** `s` with its leading white space removed. */
  function TrimStart(s: string): (r: string)
    ensures |r| <= |s| && r == s[|s| - |r|..]
    ensures forall i :: 0 <= i < |s| - |r| ==> IsStrWhiteSpaceChar(s[i])
    ensures r == [] || !IsStrWhiteSpaceChar(r[0])
    decreases |s|
  {
    if |s| > 0 && IsStrWhiteSpaceChar(s[0]) then TrimStart(s[1..]) else s
  }

  /** The value of `c` as a digit of radix up to 36 (`0`-`9`, then `a`-`z`
      or `A`-`Z` for 10 to 35), and -1 for any other character. */
  function DigitValue(c: char): (d: int)
    ensures -1 <= d < 36
  {
    if '0' <= c <= '9' then c as int - '0' as int
    else if 'a' <= c <= 'z' then c as int - 'a' as int + 10
    else if 'A' <= c <= 'Z' then c as int - 'A' as int + 10
    else -1
  }

  predicate IsRadixDigit(c: char, radix: nat)
  {
    0 <= DigitValue(c) < radix
  }

  /** A digit is neither white space nor a sign: a proof step for
      `ParseIntOfDecimal`, not a claim about the source. */
  lemma DigitIsNotSpaceOrSign(c: char, radix: nat)
    requires IsRadixDigit(c, radix)
    ensures !IsStrWhiteSpaceChar(c) && c != '+' && c != '-'
  {
  }

  predicate AllDigits(s: string, radix: nat)
  {
    forall i :: 0 <= i < |s| ==> IsRadixDigit(s[i], radix)
  }

  /** The length of the longest prefix of `s` made of digits of `radix`. */
  function DigitRun(s: string, radix: nat): (n: nat)
    ensures n <= |s| && AllDigits(s[..n], radix)
    ensures n == |s| || !IsRadixDigit(s[n], radix)
    decreases |s|
  {
    if |s| > 0 && IsRadixDigit(s[0], radix) then 1 + DigitRun(s[1..], radix) else 0
  }

  /** The number that a string of digits denotes in `radix`, most significant first. */
  function Value(digits: string, radix: nat): nat
    requires AllDigits(digits, radix)
    decreases |digits|
  {
    if |digits| == 0 then 0
    else Value(digits[..|digits| - 1], radix) * radix + DigitValue(digits[|digits| - 1])
  }

  /** Steps of `parseInt` after the sign: a `0x`/`0X` prefix selects radix
      16, otherwise radix 10; then the longest run of digits of that radix,
      and NaN (`None`) when the run is empty. */
  function ParseUnsigned(s: string): Option<nat>
  {
    var hex := |s| >= 2 && s[0] == '0' && (s[1] == 'x' || s[1] == 'X');
    var radix := if hex then 16 else 10;
    var body := if hex then s[2..] else s;
    var end := DigitRun(body, radix);
    if end == 0 then None else Some(Value(body[..end], radix))
  }

  /** `parseInt(input)` with the radix left undefined; `None` is NaN.  The
      result is the exact integer: the only use made of it compares it with
      small integers, which a double represents exactly. */
  function ParseInt(input: string): Option<int>
  {
    ParseSigned(TrimStart(input))
  }

  /** `parseInt` once leading white space is gone: an optional sign, then
      the unsigned numeral, whose value the sign applies to. */
  function ParseSigned(s: string): Option<int>
  {
    if |s| > 0 && (s[0] == '+' || s[0] == '-') then
      match ParseUnsigned(s[1..])
      case None => None
      case Some(m) => Some(if s[0] == '-' then -(m as int) else m)
    else
      ParseUnsigned(s)
  }

  /** A sign as `parseInt` accepts it: none, `+` or `-`. */
  predicate IsSign(sign: string)
  {
    sign == "" || sign == "+" || sign == "-"
  }

  function Signed(sign: string, m: nat): int
  {
    if sign == "-" then -(m as int) else m
  }

  predicate AllWhiteSpace(ws: string)
  {
    forall i :: 0 <= i < |ws| ==> IsStrWhiteSpaceChar(ws[i])
  }

  /** Leading white space is exactly what `TrimStart` removes. */
  lemma {:induction false} TrimStartWhiteSpace(ws: string, t: string)
    requires AllWhiteSpace(ws)
    requires t == [] || !IsStrWhiteSpaceChar(t[0])
    ensures TrimStart(ws + t) == t
    decreases |ws|
  {
    if |ws| > 0 {
      assert (ws + t)[1..] == ws[1..] + t;
      TrimStartWhiteSpace(ws[1..], t);
    }
  }

  /** The digit run of `digits + rest` is `digits` when `rest` does not go on with a digit. */
  lemma {:induction false} DigitRunOf(digits: string, rest: string, radix: nat)
    requires AllDigits(digits, radix)
    requires rest == [] || !IsRadixDigit(rest[0], radix)
    ensures DigitRun(digits + rest, radix) == |digits|
    decreases |digits|
  {
    if |digits| > 0 {
      assert (digits + rest)[1..] == digits[1..] + rest;
      DigitRunOf(digits[1..], rest, radix);
    }
  }

  /** White space and a sign in front of an unsigned numeral: `parseInt`
      skips the one and applies the other.  Without a sign, the numeral
      must not itself begin with white space or a sign. */
  lemma ParseIntSigned(ws: string, sign: string, u: string)
    requires AllWhiteSpace(ws) && IsSign(sign)
    requires sign != "" || u == [] || (!IsStrWhiteSpaceChar(u[0]) && u[0] != '+' && u[0] != '-')
    ensures ParseInt(ws + sign + u)
         == match ParseUnsigned(u) case None => None case Some(m) => Some(Signed(sign, m))
  {
    var t := sign + u;
    assert ws + sign + u == ws + t by {
      Strings.Regroup3(ws, sign, u);
    }
    TrimStartWhiteSpace(ws, t);
    if sign == "" {
      assert t == u;
    } else {
      SignThenUnsigned(sign, u);
    }
  }

  /** `+` or `-` followed by an unsigned numeral. */
  lemma SignThenUnsigned(sign: string, u: string)
    requires sign == "+" || sign == "-"
    ensures ParseSigned(sign + u)
         == match ParseUnsigned(u) case None => None case Some(m) => Some(Signed(sign, m))
  {
    var s := sign + u;
    assert s[0] == sign[0] && s[1..] == u;
  }

  /** Decimal digits followed by anything but a digit: the value of the
      digits, unless they are the `0` of a `0x`/`0X` prefix. */
  lemma ParseUnsignedDecimal(digits: string, rest: string)
    requires |digits| > 0 && AllDigits(digits, 10)
    requires rest == [] || !IsRadixDigit(rest[0], 10)
    requires !(digits == "0" && rest != [] && (rest[0] == 'x' || rest[0] == 'X'))
    ensures ParseUnsigned(digits + rest) == Some(Value(digits, 10))
  {
    var s := digits + rest;
    assert !(|s| >= 2 && s[0] == '0' && (s[1] == 'x' || s[1] == 'X'));
    DigitRunOf(digits, rest, 10);
    assert s[..|digits|] == digits;
  }

  /** `0x` or `0X`, hexadecimal digits, then anything but one: their value in radix 16. */
  lemma ParseUnsignedHex(prefix: string, digits: string, rest: string)
    requires prefix == "0x" || prefix == "0X"
    requires |digits| > 0 && AllDigits(digits, 16)
    requires rest == [] || !IsRadixDigit(rest[0], 16)
    ensures ParseUnsigned(prefix + digits + rest) == Some(Value(digits, 16))
  {
    var body := digits + rest;
    var s := prefix + body;
    assert prefix + digits + rest == s;
    assert |prefix| == 2 && s[0] == '0' && (s[1] == 'x' || s[1] == 'X');
    assert s[2..] == body;
    DigitRunOf(digits, rest, 16);
    assert body[..|digits|] == digits;
    assert ParseUnsigned(s) == Some(Value(body[..DigitRun(body, 16)], 16));
  }

  /** A `0x` or `0X` prefix with no hexadecimal digit after it: NaN. */
  lemma ParseUnsignedHexNaN(prefix: string, rest: string)
    requires prefix == "0x" || prefix == "0X"
    requires rest == [] || !IsRadixDigit(rest[0], 16)
    ensures ParseUnsigned(prefix + rest) == None
  {
    var s := prefix + rest;
    assert s[0] == '0' && (s[1] == 'x' || s[1] == 'X') && s[2..] == rest;
    DigitRunOf("", rest, 16);
    assert "" + rest == rest;
  }

  /** No digit where the numeral should start: NaN. */
  lemma ParseUnsignedNaN(rest: string)
    requires rest == [] || !IsRadixDigit(rest[0], 10)
    ensures ParseUnsigned(rest) == None
  {
    DigitRunOf("", rest, 10);
    assert "" + rest == rest;
  }

  /** The decimal numeral of `n`, without leading zeros: the partner of `Value`. */
  function Decimal(n: nat): (s: string)
    ensures |s| > 0 && AllDigits(s, 10)
    ensures s[0] == '0' ==> n == 0
    decreases n
  {
    var last := ['0' + (n % 10) as char];
    if n < 10 then last else Decimal(n / 10) + last
  }

  /** Reading back a decimal numeral gives the number. */
  lemma {:induction false} ValueOfDecimal(n: nat)
    ensures Value(Decimal(n), 10) == n
    decreases n
  {
    if n >= 10 {
      ValueOfDecimal(n / 10);
      var s := Decimal(n);
      assert s[..|s| - 1] == Decimal(n / 10);
    }
  }

  /** The decimal numeral of `n`, after white space and followed by anything
      but a digit (or by a non-`x` when `n` is 0), parses back to `n`. */
  lemma ParseIntOfDecimal(ws: string, n: nat, rest: string)
    requires AllWhiteSpace(ws)
    requires rest == [] || !IsRadixDigit(rest[0], 10)
    requires !(n == 0 && rest != [] && (rest[0] == 'x' || rest[0] == 'X'))
    ensures ParseInt(ws + Decimal(n) + rest) == Some(n)
  {
    var d := Decimal(n);
    var u := d + rest;
    assert ParseUnsigned(u) == Some(n) by {
      ValueOfDecimal(n);
      ParseUnsignedDecimal(d, rest);
    }
    assert !IsStrWhiteSpaceChar(u[0]) && u[0] != '+' && u[0] != '-' by {
      assert u[0] == d[0];
      DigitIsNotSpaceOrSign(d[0], 10);
    }
    Strings.Regroup3(ws, d, rest);
    ParseIntSigned(ws, "", u);
  }

  /** White space, `0x` or `0X`, hexadecimal digits, then anything but
      one: `parseInt` reads the digits in radix 16. */
  lemma ParseIntOfHex(ws: string, prefix: string, digits: string, rest: string)
    requires AllWhiteSpace(ws) && (prefix == "0x" || prefix == "0X")
    requires |digits| > 0 && AllDigits(digits, 16)
    requires rest == [] || !IsRadixDigit(rest[0], 16)
    ensures ParseInt(ws + prefix + digits + rest) == Some(Value(digits, 16))
  {
    var u := prefix + digits + rest;
    assert ParseUnsigned(u) == Some(Value(digits, 16)) by {
      ParseUnsignedHex(prefix, digits, rest);
    }
    assert !IsStrWhiteSpaceChar(u[0]) && u[0] != '+' && u[0] != '-' by {
      assert u[0] == prefix[0] == '0';
    }
    Strings.Regroup(ws, prefix, digits, rest);
    ParseIntSigned(ws, "", u);
  }
}
