/**
  JavaScript numbers as the line codec uses them: integer positions that are
  printed by `Array.prototype.join` and read back by `parseInt`, which yields
  `NaN` instead of failing.
 */
module Numbers {

  /** A JavaScript number restricted to the integers, plus `NaN`. */
  datatype Number = NaN | Finite(value: int)

  predicate IsDecimalDigit(c: char)
  {
    '0' <= c <= '9'
  }

  /** The value of a digit in radix 36 notation; 36 for a character that is no digit. */
  function DigitValue(c: char): (d: nat)
    ensures d <= 36
    ensures IsDecimalDigit(c) <==> d < 10
  {
    if '0' <= c <= '9' then c as nat - '0' as nat
    else if 'a' <= c <= 'z' then c as nat - 'a' as nat + 10
    else if 'A' <= c <= 'Z' then c as nat - 'A' as nat + 10
    else 36
  }

  predicate IsRadixDigit(c: char, radix: nat)
  {
    DigitValue(c) < radix
  }

  function DigitChar(d: nat): (c: char)
    requires d < 10
    ensures IsDecimalDigit(c) && DigitValue(c) == d
  {
    ('0' as nat + d) as char
  }

  /** The decimal notation of a non-negative integer, without leading zeros. */
  function NatString(n: nat): (s: string)
    ensures |s| >= 1
    ensures forall k :: 0 <= k < |s| ==> IsDecimalDigit(s[k])
    ensures s[0] == '0' ==> n == 0 && |s| == 1
  {
    if n < 10 then [DigitChar(n)] else NatString(n / 10) + [DigitChar(n % 10)]
  }

  /** The decimal notation of an integer, with a leading `-` when it is negative. */
  function IntString(i: int): string
  {
    if i < 0 then "-" + NatString(-i) else NatString(i)
  }

  /** What `join` and string concatenation print for a number. */
  function NumberText(x: Number): string
  {
    match x
    case NaN => "NaN"
    case Finite(i) => IntString(i)
  }

  /** The value of a run of digits in the given radix, most significant first. */
  function DigitsValue(ds: string, radix: nat): nat
  {
    if |ds| == 0 then 0
    else DigitsValue(ds[..|ds| - 1], radix) * radix + DigitValue(ds[|ds| - 1])
  }

  /** The length of the longest prefix of `s` made of digits of the radix. */
  function DigitRun(s: string, radix: nat): (n: nat)
    ensures n <= |s|
  {
    if |s| == 0 || !IsRadixDigit(s[0], radix) then 0 else 1 + DigitRun(s[1..], radix)
  }

  /**
    The characters `parseInt` skips before the number: WhiteSpace (tab, vertical tab,
    form feed, the zero-width no-break space and the space separators of Unicode) and
    LineTerminator (line feed, carriage return, line and paragraph separators).
   */
  predicate IsJsWhiteSpace(c: char)
  {
    c == '\t' || c == '\n' || c == '\U{000B}' || c == '\U{000C}' || c == '\r' || c == ' '
    || c == '\U{00A0}' || c == '\U{1680}' || ('\U{2000}' <= c <= '\U{200A}')
    || c == '\U{2028}' || c == '\U{2029}' || c == '\U{202F}' || c == '\U{205F}'
    || c == '\U{3000}' || c == '\U{FEFF}'
  }

  function TrimStart(s: string): (t: string)
    ensures |t| <= |s| && t == s[|s| - |t|..]
    ensures |t| > 0 ==> !IsJsWhiteSpace(t[0])
  {
    if |s| > 0 && IsJsWhiteSpace(s[0]) then TrimStart(s[1..]) else s
  }

  /**
    `parseInt(s)` with no radix: leading white space is skipped, one sign is read,
    and the digits after it are read by `ParseUnsigned`. It never throws.
   */
  function ParseInt(s: string): Number
  {
    var t := TrimStart(s);
    if |t| > 0 && t[0] == '-' then Negate(ParseUnsigned(t[1..]))
    else if |t| > 0 && t[0] == '+' then ParseUnsigned(t[1..])
    else ParseUnsigned(t)
  }

  function Negate(x: Number): Number
  {
    match x
    case NaN => NaN
    case Finite(i) => Finite(-i)
  }

  /**
    The unsigned part of `parseInt`: a `0x`/`0X` prefix selects radix 16, and the
    longest run of digits that follows gives the value; without a digit it is `NaN`.
   */
  function ParseUnsigned(u: string): Number
  {
    var hex := |u| >= 2 && u[0] == '0' && (u[1] == 'x' || u[1] == 'X');
    var radix := if hex then 16 else 10;
    var body := if hex then u[2..] else u;
    var n := DigitRun(body, radix);
    if n == 0 then NaN else Finite(DigitsValue(body[..n], radix))
  }

  lemma {:induction false} NatStringValue(n: nat)
    ensures DigitsValue(NatString(n), 10) == n
  {
    var s := NatString(n);
    if n >= 10 {
      NatStringValue(n / 10);
      assert s[..|s| - 1] == NatString(n / 10);
    }
  }

  /** A run of digits followed by a non-digit is read up to its end. */
  lemma {:induction false} DigitRunPrefix(a: string, b: string, radix: nat)
    requires forall k :: 0 <= k < |a| ==> IsRadixDigit(a[k], radix)
    requires |b| == 0 || !IsRadixDigit(b[0], radix)
    ensures DigitRun(a + b, radix) == |a|
  {
    if |a| > 0 {
      assert (a + b)[1..] == a[1..] + b;
      DigitRunPrefix(a[1..], b, radix);
    }
  }

  /** `parseInt` reads a decimal numeral without leading zeros as its value. */
  lemma ParseUnsignedDecimal(digits: string)
    requires |digits| >= 1 && forall k :: 0 <= k < |digits| ==> IsDecimalDigit(digits[k])
    requires digits[0] == '0' ==> |digits| == 1
    ensures ParseUnsigned(digits) == Finite(DigitsValue(digits, 10))
  {
    DigitRunPrefix(digits, [], 10);
    assert digits + [] == digits;
    assert digits[..|digits|] == digits;
  }

  lemma TrimStartNoSpace(s: string)
    requires |s| > 0 && (IsDecimalDigit(s[0]) || s[0] == '-' || s[0] == 'N')
    ensures TrimStart(s) == s
  {
  }

  lemma ParseIntNaN()
    ensures ParseInt("NaN") == NaN
  {
    TrimStartNoSpace("NaN");
    assert DigitRun("NaN", 10) == 0;
  }

  lemma ParseIntString(i: int)
    ensures ParseInt(IntString(i)) == Finite(i)
  {
    if i < 0 {
      var m: nat := -i;
      var digits := NatString(m);
      NatStringValue(m);
      ParseUnsignedDecimal(digits);
      assert ParseUnsigned(digits) == Finite(m);
      SignedText(digits);
      ParseIntNegative("-" + digits, digits);
      assert IntString(i) == "-" + digits;
    } else {
      var digits := NatString(i);
      NatStringValue(i);
      ParseUnsignedDecimal(digits);
      ParseIntUnsigned(digits);
    }
  }

  lemma SignedText(digits: string)
    ensures ("-" + digits)[0] == '-' && ("-" + digits)[1..] == digits
  {
  }

  lemma ParseIntNegative(s: string, u: string)
    requires |s| > 0 && s[0] == '-' && s[1..] == u
    ensures ParseInt(s) == Negate(ParseUnsigned(u))
  {
    TrimStartNoSpace(s);
  }

  lemma ParseIntUnsigned(digits: string)
    requires |digits| > 0 && IsDecimalDigit(digits[0])
    ensures ParseInt(digits) == ParseUnsigned(digits)
  {
    TrimStartNoSpace(digits);
  }

  /** `parseInt` reads back every number the codec prints. */
  lemma NumberTextRoundTrip(x: Number)
    ensures ParseInt(NumberText(x)) == x
  {
    if x.NaN? {
      ParseIntNaN();
    } else {
      ParseIntString(x.value);
    }
  }
}
