/** JavaScript primitive values as they reach the client stores from the wire,
    and the built-in conversions the stores apply to them: truthiness,
    `String(v)` and `parseInt(s, 10)`.

    Numbers are modelled as unbounded integers: none of the stores does
    arithmetic, and the wire only carries identifiers and counts. */
module JsValue {
  import opened Optional

  /** A primitive value. `===` on primitives is equality of this datatype. */
  datatype Scalar = Undefined | Null | Bool(b: bool) | Num(n: int) | Str(s: string)

  /** JavaScript truthiness: `undefined`, `null`, `false`, `0` and `""` are falsy. */
  predicate Truthy(v: Scalar) {
    match v
    case Undefined => false
    case Null => false
    case Bool(b) => b
    case Num(n) => n != 0
    case Str(s) => s != ""
  }

  predicate IsDigit(c: char) {
    '0' <= c <= '9'
  }

  predicate AllDigits(s: string) {
    forall i :: 0 <= i < |s| ==> IsDigit(s[i])
  }

  function DigitChar(d: nat): (c: char)
    requires d < 10
    ensures IsDigit(c) && c as int - '0' as int == d
  {
    ('0' as int + d) as char
  }

  function DigitValue(c: char): (d: nat)
    requires IsDigit(c)
    ensures d < 10 && DigitChar(d) == c
  {
    c as int - '0' as int
  }

  /** The decimal digits of `n`, most significant first, without leading zeros. */
  function NatDigits(n: nat): (r: string)
    ensures |r| > 0 && AllDigits(r)
    ensures r[0] == '0' ==> n == 0
    decreases n
  {
    if n < 10 then [DigitChar(n)] else NatDigits(n / 10) + [DigitChar(n % 10)]
  }

  /** The number a string of decimal digits denotes. */
  function DigitsValue(s: string): nat
    requires AllDigits(s)
  {
    if |s| == 0 then 0 else DigitsValue(s[..|s| - 1]) * 10 + DigitValue(s[|s| - 1])
  }

  /** `String(n)` for an integer `n`. */
  function Decimal(n: int): (r: string)
    ensures |r| > 0 && (IsDigit(r[0]) || r[0] == '-')
  {
    if n < 0 then "-" + NatDigits(-n) else NatDigits(n)
  }

  /** `String(v)`, which is also the property key a value stands for when it
      indexes an object (`obj[v]`). */
  function ToString(v: Scalar): string {
    match v
    case Undefined => "undefined"
    case Null => "null"
    case Bool(b) => if b then "true" else "false"
    case Num(n) => Decimal(n)
    case Str(s) => s
  }

  /** The characters `parseInt` skips before the number: ECMAScript's
      WhiteSpace and LineTerminator code points. */
  predicate IsJsWhitespace(c: char) {
    c == '\t' || c == '\n' || c == '\U{B}' || c == '\U{C}' || c == '\r' || c == ' '
    || c == '\U{A0}' || c == '\U{1680}' || ('\U{2000}' <= c <= '\U{200A}')
    || c == '\U{2028}' || c == '\U{2029}' || c == '\U{202F}' || c == '\U{205F}'
    || c == '\U{3000}' || c == '\U{FEFF}'
  }

  /** `s` without its leading white space. */
  function TrimStart(s: string): (r: string)
    ensures |r| <= |s| && r == s[|s| - |r|..]
    ensures forall i :: 0 <= i < |s| - |r| ==> IsJsWhitespace(s[i])
    ensures |r| > 0 ==> !IsJsWhitespace(r[0])
  {
    if |s| > 0 && IsJsWhitespace(s[0]) then TrimStart(s[1..]) else s
  }

  /** The longest prefix of `s` made of decimal digits. */
  function DigitPrefix(s: string): (r: string)
    ensures |r| <= |s| && r == s[..|r|] && AllDigits(r)
    ensures |r| < |s| ==> !IsDigit(s[|r|])
  {
    if |s| > 0 && IsDigit(s[0]) then [s[0]] + DigitPrefix(s[1..]) else []
  }

  /** `parseInt(s, 10)`: `None` stands for `NaN`. Leading white space and one
      sign are accepted, then the longest run of digits is read and anything
      after it ignored. */
  function ParseInt(s: string): Option<int> {
    ParseSigned(TrimStart(s))
  }

  /** The part of `parseInt` after the white space: an optional sign, then
      digits. */
  function ParseSigned(t: string): Option<int> {
    var digits := DigitPrefix(Unsigned(t));
    if digits == [] then None
    else
      var magnitude: int := DigitsValue(digits);
      if |t| > 0 && t[0] == '-' then Some(-magnitude) else Some(magnitude)
  }

  /** `t` without a leading `+` or `-`. */
  function Unsigned(t: string): string {
    if |t| > 0 && (t[0] == '-' || t[0] == '+') then t[1..] else t
  }

  lemma {:induction false} DigitsValueOfNatDigits(n: nat)
    ensures DigitsValue(NatDigits(n)) == n
    decreases n
  {
    if n >= 10 {
      var front := NatDigits(n / 10);
      var s := front + [DigitChar(n % 10)];
      assert s[..|s| - 1] == front;
      DigitsValueOfNatDigits(n / 10);
    }
  }

  lemma {:induction false} DigitPrefixOfDigits(a: string, tail: string)
    requires AllDigits(a)
    requires tail == [] || !IsDigit(tail[0])
    ensures DigitPrefix(a + tail) == a
  {
    if |a| > 0 {
      assert (a + tail)[1..] == a[1..] + tail;
      DigitPrefixOfDigits(a[1..], tail);
    } else {
      assert a + tail == tail;
    }
  }

  lemma SignOrDigitIsNotWhitespace(c: char)
    requires IsDigit(c) || c == '-'
    ensures !IsJsWhitespace(c)
  {
  }

  /** A string that starts with digits parses to their value. */
  lemma ParseIntOfDigitRun(s: string, digits: string)
    requires |s| > 0 && IsDigit(s[0]) && DigitPrefix(s) == digits
    ensures ParseInt(s) == Some(DigitsValue(digits))
  {
    SignOrDigitIsNotWhitespace(s[0]);
  }

  /** A minus sign followed by digits parses to their value, negated. */
  lemma ParseIntOfNegativeRun(s: string, digits: string, n: int)
    requires |s| > 0 && s[0] == '-' && DigitPrefix(s[1..]) == digits && digits != []
    requires DigitsValue(digits) == -n
    ensures ParseInt(s) == Some(n)
  {
    SignOrDigitIsNotWhitespace(s[0]);
  }

  /** A plus sign followed by digits parses to their value. */
  lemma ParseIntOfPositiveRun(s: string, digits: string)
    requires |s| > 0 && s[0] == '+' && DigitPrefix(s[1..]) == digits && digits != []
    ensures ParseInt(s) == Some(DigitsValue(digits))
  {
    assert !IsJsWhitespace(s[0]);
  }

  /** Leading white space does not change what `parseInt` reads. */
  lemma ParseIntSkipsWhitespace(s: string)
    requires |s| > 0 && IsJsWhitespace(s[0])
    ensures ParseInt(s) == ParseInt(s[1..])
  {
  }

  /** Text that starts with anything but white space, a sign or a digit is
      `NaN`. */
  lemma ParseIntOfNonNumeric(s: string)
    requires |s| > 0 && !IsJsWhitespace(s[0]) && !IsDigit(s[0]) && s[0] != '-' && s[0] != '+'
    ensures ParseInt(s).None?
  {
  }

  /** A sign with no digit behind it is `NaN` too. */
  lemma ParseIntOfBareSign(s: string)
    requires |s| > 0 && (s[0] == '-' || s[0] == '+')
    requires |s| == 1 || !IsDigit(s[1])
    ensures ParseInt(s).None?
  {
  }

  /** `parseInt` reads back what `String` writes for an integer, and stops at
      the first character that is not a digit. */
  lemma ParseIntReadsDecimal(n: int, tail: string)
    requires tail == [] || !IsDigit(tail[0])
    ensures ParseInt(Decimal(n) + tail) == Some(n)
  {
    if n < 0 {
      ParseIntReadsNegative(n, tail);
    } else {
      ParseIntReadsNatural(n, tail);
    }
  }

  /** The non-negative half of `ParseIntReadsDecimal`. */
  lemma ParseIntReadsNatural(n: nat, tail: string)
    requires tail == [] || !IsDigit(tail[0])
    ensures ParseInt(Decimal(n) + tail) == Some(n)
  {
    var digits := NatDigits(n);
    DigitPrefixOfDigits(digits, tail);
    DigitsValueOfNatDigits(n);
    ParseIntOfDigitRun(digits + tail, digits);
  }

  /** The negative half: the minus sign `String` writes is the one
      `parseInt` accepts. */
  lemma ParseIntReadsNegative(n: int, tail: string)
    requires n < 0
    requires tail == [] || !IsDigit(tail[0])
    ensures ParseInt(Decimal(n) + tail) == Some(n)
  {
    var digits := NatDigits(-n);
    DecimalSign(n, tail);
    DigitPrefixOfDigits(digits, tail);
    DigitsValueOfNatDigits(-n);
    ParseIntOfNegativeRun(Decimal(n) + tail, digits, n);
  }

  /** Behind the minus sign of a negative number come its digits. */
  lemma DecimalSign(n: int, tail: string)
    requires n < 0
    ensures (Decimal(n) + tail)[0] == '-'
    ensures (Decimal(n) + tail)[1..] == NatDigits(-n) + tail
  {
    assert Decimal(n) + tail == ['-'] + (NatDigits(-n) + tail);
  }

  /** The round trip the search store relies on for its integer keys. */
  lemma ParseIntOfDecimal(n: int)
    ensures ParseInt(Decimal(n)) == Some(n)
  {
    ParseIntReadsDecimal(n, []);
    assert Decimal(n) + [] == Decimal(n);
  }
}
