/** The two number conversions hidden in the router's clamp: the string to
    number coercion done by `queryLimit > limit` (ECMAScript StringToNumber,
    section 7.1.4.1.1 of ECMA-262) and `String(limit)` done by
    `search.set('limit', limit)`. Numbers are exact reals here; see README
    for what that leaves out. */
module JsNumber {
  import opened Common
  import opened JsString

  /** An ECMAScript Number value, seen as an extended real. */
  datatype Number = NaN | PosInfinity | NegInfinity | Finite(value: real)

  /** `Number.MAX_SAFE_INTEGER`: every natural number up to it is a Number
      whose `String()` is its plain decimal numeral. */
  const MaxSafeInteger: nat := 0x1F_FFFF_FFFF_FFFF

  type SafeNat = n: nat | n <= MaxSafeInteger

  /** The value of a hexadecimal digit of either case, -1 for any other
      character. */
  function DigitValue(c: char): (r: int)
    ensures -1 <= r < 16
    ensures 0 <= r < 10 <==> '0' <= c <= '9'
  {
    if '0' <= c <= '9' then c as int - '0' as int
    else if 'a' <= c <= 'f' then c as int - 'a' as int + 10
    else if 'A' <= c <= 'F' then c as int - 'A' as int + 10
    else -1
  }

  predicate AllDigits(s: string, radix: nat)
  {
    forall i :: 0 <= i < |s| ==> 0 <= DigitValue(s[i]) < radix
  }

  /** The value of a numeral written in base `radix`, most significant digit
      first. */
  function RadixValue(s: string, radix: nat): nat
    requires AllDigits(s, radix)
  {
    if s == [] then 0
    else RadixValue(s[..|s| - 1], radix) * radix + DigitValue(s[|s| - 1])
  }

  function Pow10(k: nat): (r: nat)
    ensures r >= 1
  {
    if k == 0 then 1 else 10 * Pow10(k - 1)
  }

  /** `10^k` for an exponent of either sign. */
  function Scale(k: int): (r: real)
    ensures r > 0.0
  {
    if k >= 0 then Pow10(k) as real else 1.0 / Pow10(-k) as real
  }

  /** Index of the first character of `s` found in `cs`, or `|s|`. */
  function IndexOfAny(s: string, cs: set<char>): (i: nat)
    ensures i <= |s|
    ensures i < |s| ==> s[i] in cs
    ensures forall j :: 0 <= j < i ==> s[j] !in cs
  {
    if s == [] || s[0] in cs then 0 else 1 + IndexOfAny(s[1..], cs)
  }

  /** `StringToNumber`: surrounding white space is ignored, the empty
      numeral is 0, anything outside the StringNumericLiteral grammar is
      NaN. */
  function ToNumber(s: string): Number
  {
    var t := Trim(s);
    if t == "" then Finite(0.0) else NumericLiteral(t)
  }

  /** StrNumericLiteral: a binary, octal or hexadecimal integer (no sign
      allowed) or a signed decimal literal. */
  function NumericLiteral(t: string): Number
  {
    if |t| >= 2 && t[0] == '0' && t[1] in {'x', 'X'} then NonDecimal(t[2..], 16)
    else if |t| >= 2 && t[0] == '0' && t[1] in {'o', 'O'} then NonDecimal(t[2..], 8)
    else if |t| >= 2 && t[0] == '0' && t[1] in {'b', 'B'} then NonDecimal(t[2..], 2)
    else if t != [] && t[0] == '+' then UnsignedDecimal(t[1..])
    else if t != [] && t[0] == '-' then Negate(UnsignedDecimal(t[1..]))
    else UnsignedDecimal(t)
  }

  function NonDecimal(digits: string, radix: nat): Number
  {
    if digits != [] && AllDigits(digits, radix) then Finite(RadixValue(digits, radix) as real) else NaN
  }

  function Negate(x: Number): Number
  {
    match x
    case NaN => NaN
    case PosInfinity => NegInfinity
    case NegInfinity => PosInfinity
    case Finite(v) => Finite(-v)
  }

  /** StrUnsignedDecimalLiteral: `Infinity`, or a mantissa with an optional
      exponent part. */
  function UnsignedDecimal(u: string): Number
  {
    if u == "Infinity" then PosInfinity
    else
      var e := IndexOfAny(u, {'e', 'E'});
      if e == |u| then
        match Mantissa(u)
        case Some(m) => Finite(m)
        case None => NaN
      else ScaledMantissa(u[..e], u[e + 1..])
  }

  /** A mantissa followed by `e` and a SignedInteger: the mantissa times
      ten to that power. */
  function ScaledMantissa(mantissa: string, exponent: string): Number
  {
    match (Mantissa(mantissa), Exponent(exponent))
    case (Some(m), Some(x)) => Finite(m * Scale(x))
    case _ => NaN
  }

  /** DecimalDigits, optionally with a `.` and more DecimalDigits, at least
      one digit in all. */
  function Mantissa(m: string): Option<real>
  {
    var d := IndexOfAny(m, {'.'});
    var whole := m[..d];
    var fraction := if d < |m| then m[d + 1..] else "";
    if AllDigits(whole, 10) && AllDigits(fraction, 10) && |whole| + |fraction| >= 1 then
      Some(RadixValue(whole, 10) as real + FractionValue(fraction))
    else None
  }

  /** The value of the digits after the decimal point. */
  function FractionValue(f: string): (r: real)
    requires AllDigits(f, 10)
    ensures f == [] ==> r == 0.0
  {
    RadixValue(f, 10) as real / Pow10(|f|) as real
  }

  /** SignedInteger after the `e`. */
  function Exponent(x: string): Option<int>
  {
    var sign := if x != [] && x[0] == '-' then -1 else 1;
    var digits := if x != [] && x[0] in {'+', '-'} then x[1..] else x;
    if digits != [] && AllDigits(digits, 10) then Some(sign * RadixValue(digits, 10)) else None
  }

  /** The relational comparison `x > limit` of a Number with an integer:
      false whenever `x` is NaN. */
  predicate GreaterThan(x: Number, limit: nat)
  {
    match x
    case NaN => false
    case PosInfinity => true
    case NegInfinity => false
    case Finite(v) => v > limit as real
  }

  function DigitChar(d: nat): (c: char)
    requires d < 10
    ensures DigitValue(c) == d
  {
    ['0', '1', '2', '3', '4', '5', '6', '7', '8', '9'][d]
  }

  /** `String(n)` for a safe integer: its decimal numeral without leading
      zeros. */
  function NatToString(n: nat): (s: string)
    ensures |s| >= 1 && AllDigits(s, 10)
    ensures s[0] == '0' ==> n == 0 && s == "0"
  {
    if n < 10 then [DigitChar(n)] else NatToString(n / 10) + [DigitChar(n % 10)]
  }

  /** The numeral `String(n)` has the value `n`. */
  lemma {:induction false} NatToStringValue(n: nat)
    ensures RadixValue(NatToString(n), 10) == n
  {
    var s := NatToString(n);
    if n >= 10 {
      NatToStringValue(n / 10);
      assert s[..|s| - 1] == NatToString(n / 10);
    } else {
      assert s[..0] == [];
    }
  }

  /** A numeral of decimal digits without leading zeros is `String()` of its
      value: `String` and the numeral's value are inverse to each other. */
  lemma {:induction false} NatToStringOfValue(s: string)
    requires |s| >= 1 && AllDigits(s, 10)
    requires s[0] == '0' ==> s == "0"
    ensures NatToString(RadixValue(s, 10)) == s
  {
    var init := s[..|s| - 1];
    var d := DigitValue(s[|s| - 1]);
    if |s| == 1 {
      assert init == [];
      assert RadixValue(s, 10) == d;
      assert s == [DigitChar(d)];
    } else {
      assert init[0] == s[0];
      var m := RadixValue(init, 10);
      LeadingDigitPositive(init);
      NatToStringOfValue(init);
      var n := m * 10 + d;
      assert RadixValue(s, 10) == n;
      assert n / 10 == m && n % 10 == d;
      assert NatToString(n) == NatToString(m) + [DigitChar(d)];
      assert s == init + [s[|s| - 1]];
    }
  }

  /** A numeral that does not start with `0` has a positive value. */
  lemma {:induction false} LeadingDigitPositive(s: string)
    requires |s| >= 1 && AllDigits(s, 10) && s[0] != '0'
    ensures RadixValue(s, 10) >= 1
  {
    if |s| > 1 {
      var init := s[..|s| - 1];
      assert init[0] == s[0];
      LeadingDigitPositive(init);
    } else {
      assert s[..0] == [];
    }
  }

  /** A string of decimal digits contains no letter and no `.`. */
  lemma {:induction false} DigitsOnly(s: string, cs: set<char>)
    requires AllDigits(s, 10)
    requires forall c :: c in cs ==> !('0' <= c <= '9')
    ensures IndexOfAny(s, cs) == |s|
  {
    if s != [] {
      assert 0 <= DigitValue(s[0]) < 10;
      assert s[0] !in cs;
      assert AllDigits(s[1..], 10);
      DigitsOnly(s[1..], cs);
    }
  }

  /** A string of decimal digits is its own mantissa. */
  lemma MantissaOfDigits(s: string)
    requires |s| >= 1 && AllDigits(s, 10)
    ensures Mantissa(s) == Some(RadixValue(s, 10) as real)
  {
    DigitsOnly(s, {'.'});
    var d := IndexOfAny(s, {'.'});
    assert s[..d] == s;
    var whole := s[..d];
    assert Mantissa(s) == Some(RadixValue(whole, 10) as real + FractionValue(""));
  }

  /** A string of decimal digits is read as an unsigned decimal literal
      without exponent. */
  lemma UnsignedDecimalOfDigits(s: string)
    requires |s| >= 1 && AllDigits(s, 10)
    ensures UnsignedDecimal(s) == Finite(RadixValue(s, 10) as real)
  {
    assert s != "Infinity" by {
      assert '0' <= s[0] <= '9';
    }
    DigitsOnly(s, {'e', 'E'});
    MantissaOfDigits(s);
  }

  /** `String(n)` read back by `StringToNumber` is `n`: the clamped value
      compares as its own numeric value. */
  lemma ToNumberOfNatToString(n: nat)
    ensures ToNumber(NatToString(n)) == Finite(n as real)
  {
    DigitsToNumber(NatToString(n));
    NatToStringValue(n);
  }

  /** A numeral of decimal digits, leading zeros allowed, coerces to its
      value. */
  lemma DigitsToNumber(s: string)
    requires |s| >= 1 && AllDigits(s, 10)
    ensures ToNumber(s) == Finite(RadixValue(s, 10) as real)
  {
    assert '0' <= s[0] <= '9' && '0' <= s[|s| - 1] <= '9';
    assert |s| >= 2 ==> '0' <= s[1] <= '9';
    DigitsTrimmed(s);
    DecimalLiteral(s);
    UnsignedDecimalOfDigits(s);
  }

  lemma DigitsTrimmed(s: string)
    requires |s| >= 1 && '0' <= s[0] <= '9' && '0' <= s[|s| - 1] <= '9'
    ensures ToNumber(s) == NumericLiteral(s)
  {
    TrimOfTrimmed(s);
  }

  /** A literal that starts with two decimal digits, or is one, has no
      radix prefix and no sign. */
  lemma DecimalLiteral(t: string)
    requires |t| >= 1 && '0' <= t[0] <= '9'
    requires |t| >= 2 ==> '0' <= t[1] <= '9'
    ensures NumericLiteral(t) == UnsignedDecimal(t)
  {
    assert t[0] != '+' && t[0] != '-';
    assert |t| >= 2 ==> t[1] !in {'x', 'X', 'o', 'O', 'b', 'B'};
  }
}
