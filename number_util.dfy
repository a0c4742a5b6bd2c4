/** The integer part of NumberUtil: null defaults, sums with Java's fixed-width
    wrap-around or exact arithmetic, the `-?\d+` test and parsing with a
    fallback value. A Java `null` is `None`. */
module NumberUtil {
  import opened Results
  import opened JavaLang

  // ---------------------------------------------------------------- defaults

  /** `defaultNumber(number, defNumber)`: the number itself unless it is null. */
  function DefaultNumber<T>(number: Option<T>, defNumber: Option<T>): (r: Option<T>)
    ensures number.Some? ==> r == number
    ensures number.None? ==> r == defNumber
  {
    if number.Some? then number else defNumber
  }

  /** `defaultNumber(Byte)`: null becomes zero. */
  function DefaultByte(number: Option<int8>): (r: int8)
    ensures number.Some? ==> r == number.value
    ensures number.None? ==> r == 0
  {
    DefaultNumber(number, Some(0)).value
  }

  /** `defaultNumber(Short)`: null becomes zero. */
  function DefaultShort(number: Option<int16>): (r: int16)
    ensures number.Some? ==> r == number.value
    ensures number.None? ==> r == 0
  {
    DefaultNumber(number, Some(0)).value
  }

  /** `defaultNumber(Integer)`: null becomes zero. */
  function DefaultInteger(number: Option<int32>): (r: int32)
    ensures number.Some? ==> r == number.value
    ensures number.None? ==> r == 0
  {
    DefaultNumber(number, Some(0)).value
  }

  /** `defaultNumber(Long)`: null becomes zero. */
  function DefaultLong(number: Option<int64>): (r: int64)
    ensures number.Some? ==> r == number.value
    ensures number.None? ==> r == 0
  {
    DefaultNumber(number, Some(0)).value
  }

  /** `defaultNumber(BigInteger)`: null becomes zero. */
  function DefaultBigInteger(number: Option<int>): (r: int)
    ensures number.Some? ==> r == number.value
    ensures number.None? ==> r == 0
  {
    DefaultNumber(number, Some(0)).value
  }

  // ---------------------------------------------------------------- sums

  /** The exact sum of a sequence of integers. */
  function Sum(s: seq<int>): int
  {
    if s == [] then 0 else Sum(s[..|s| - 1]) + s[|s| - 1]
  }

  /** `sum(int[])`: the sum in Java `int` arithmetic; a null array sums to 0. */
  method SumInts(numbers: array?<int32>) returns (rst: int32)
    ensures numbers == null ==> rst == 0
    ensures numbers != null ==> rst == Wrap32(Sum(numbers[..]))
    ensures numbers != null ==> (rst - Sum(numbers[..])) % INT_MODULUS == 0
    ensures numbers != null && InInt32(Sum(numbers[..])) ==> rst == Sum(numbers[..])
  {
    rst := 0;
    if numbers != null {
      for i := 0 to numbers.Length
        invariant rst == Wrap32(Sum(numbers[..i]))
      {
        assert numbers[..i + 1][..i] == numbers[..i];
        Wrap32AddLeft(Sum(numbers[..i]), numbers[i]);
        rst := Wrap32(rst + numbers[i]);
      }
      assert numbers[..numbers.Length] == numbers[..];
    }
  }

  /** `sum(long[])`: the sum in Java `long` arithmetic; a null array sums to 0. */
  method SumLongs(numbers: array?<int64>) returns (rst: int64)
    ensures numbers == null ==> rst == 0
    ensures numbers != null ==> rst == Wrap64(Sum(numbers[..]))
    ensures numbers != null ==> (rst - Sum(numbers[..])) % LONG_MODULUS == 0
    ensures numbers != null && InInt64(Sum(numbers[..])) ==> rst == Sum(numbers[..])
  {
    rst := 0;
    if numbers != null {
      for i := 0 to numbers.Length
        invariant rst == Wrap64(Sum(numbers[..i]))
      {
        assert numbers[..i + 1][..i] == numbers[..i];
        Wrap64AddLeft(Sum(numbers[..i]), numbers[i]);
        rst := Wrap64(rst + numbers[i]);
      }
      assert numbers[..numbers.Length] == numbers[..];
    }
  }

  lemma SumAppend(s: seq<int>, x: int)
    ensures Sum(s + [x]) == Sum(s) + x
  {
    assert (s + [x])[..|s|] == s;
  }

  /** The non-null elements of a sequence, in order. */
  function NonNulls(s: seq<Option<int>>): (r: seq<int>)
    ensures forall x :: x in r <==> Some(x) in s
  {
    if s == [] then []
    else
      var last := s[|s| - 1];
      assert forall o :: o in s <==> o in s[..|s| - 1] || o == last;
      NonNulls(s[..|s| - 1]) + (if last.Some? then [last.value] else [])
  }

  lemma {:induction false} NonNullsOfPresent(s: seq<Option<int>>)
    requires forall i :: 0 <= i < |s| ==> s[i].Some?
    ensures |NonNulls(s)| == |s|
    ensures forall i :: 0 <= i < |s| ==> NonNulls(s)[i] == s[i].value
  {
    if s != [] {
      NonNullsOfPresent(s[..|s| - 1]);
    }
  }

  /** `sum(Number...)` and `sum(Collection)` over integer numbers: the exact sum
      of the non-null elements; a null array or collection sums to 0. */
  method SumNumbers(numbers: Option<seq<Option<int>>>) returns (rst: int)
    ensures numbers.None? ==> rst == 0
    ensures numbers.Some? ==> rst == Sum(NonNulls(numbers.value))
    ensures numbers.Some? && (forall i :: 0 <= i < |numbers.value| ==> numbers.value[i].None?) ==> rst == 0
  {
    rst := 0;
    if numbers.Some? {
      var xs := numbers.value;
      for i := 0 to |xs|
        invariant rst == Sum(NonNulls(xs[..i]))
        invariant (forall j :: 0 <= j < i ==> xs[j].None?) ==> rst == 0
      {
        assert xs[..i + 1][..i] == xs[..i];
        var num := xs[i];
        assert NonNulls(xs[..i + 1]) == NonNulls(xs[..i]) + (if num.Some? then [num.value] else []);
        if num.Some? {
          SumAppend(NonNulls(xs[..i]), num.value);
          rst := rst + num.value;
        } else {
          assert NonNulls(xs[..i + 1]) == NonNulls(xs[..i]);
        }
      }
      assert xs[..|xs|] == xs;
    }
  }

  /** With no null element, `sum(Number...)` is the plain exact sum. */
  lemma SumWithoutNulls(s: seq<Option<int>>, values: seq<int>)
    requires |values| == |s|
    requires forall i :: 0 <= i < |s| ==> s[i] == Some(values[i])
    ensures Sum(NonNulls(s)) == Sum(values)
  {
    NonNullsOfPresent(s);
    assert NonNulls(s) == values;
  }

  // ---------------------------------------------------------------- isDigits

  predicate NonEmptyDigits(s: string) { |s| > 0 && AllAsciiDigits(s) }

  /** `isDigits`: a non-null string whole-matching `-?\d+`. */
  predicate IsDigits(number: Option<string>): (b: bool)
    ensures b ==> number.Some? && |number.value| > 0 && IsAsciiDigit(number.value[|number.value| - 1])
    ensures b ==> SignedDecimal(number.value).Some?
  {
    && number.Some?
    && var s := number.value;
       if |s| > 0 && s[0] == '-' then NonEmptyDigits(s[1..]) else NonEmptyDigits(s)
  }

  /** `isDigits` holds exactly for a digit string, optionally preceded by `-`. */
  lemma IsDigitsShape(s: string)
    ensures IsDigits(Some(s)) <==> exists ds :: NonEmptyDigits(ds) && (s == ds || s == "-" + ds)
  {
    if IsDigits(Some(s)) {
      if |s| > 0 && s[0] == '-' {
        assert s == "-" + s[1..];
      }
    }
    if exists ds :: NonEmptyDigits(ds) && (s == ds || s == "-" + ds) {
      var ds :| NonEmptyDigits(ds) && (s == ds || s == "-" + ds);
      if s == "-" + ds {
        assert s[1..] == ds;
      } else {
        assert s[0] != '-';
      }
    }
  }

  // ---------------------------------------------------------------- parsing

  /** The value of a string of decimal digits, most significant first. */
  function DecimalValue(ds: string): nat
    requires AllAsciiDigits(ds)
  {
    if ds == [] then 0 else DecimalValue(ds[..|ds| - 1]) * 10 + DigitValue(ds[|ds| - 1])
  }

  /** The integer Java's `parseInt`/`parseLong` read from `s` before the range
      check: an optional `+` or `-` and at least one ASCII digit; None when `s`
      has any other shape. */
  function SignedDecimal(s: string): Option<int>
  {
    if |s| > 0 && (s[0] == '-' || s[0] == '+') then
      if NonEmptyDigits(s[1..]) then
        Some(if s[0] == '-' then 0 - DecimalValue(s[1..]) else DecimalValue(s[1..]))
      else None
    else if NonEmptyDigits(s) then Some(DecimalValue(s))
    else None
  }

  /** `parseInteger(number, defNum)`: the value of `number` as a Java `int`,
      or `defNum` when `number` is null, malformed or out of range. */
  function ParseInteger(number: Option<string>, defNum: Option<int32>): (r: Option<int32>)
    ensures number.None? ==> r == defNum
    ensures r != defNum ==> number.Some? && r.Some? && SignedDecimal(number.value) == Some(r.value as int)
    ensures number.Some? && SignedDecimal(number.value).None? ==> r == defNum
    ensures number.Some? && SignedDecimal(number.value).Some? ==>
              r == if InInt32(SignedDecimal(number.value).value) then Some(SignedDecimal(number.value).value as int32) else defNum
  {
    if number.None? then defNum
    else match SignedDecimal(number.value)
      case Some(v) => if InInt32(v) then Some(v as int32) else defNum
      case None => defNum
  }

  /** `parseLong(number, defNum)`: the same with the Java `long` range. */
  function ParseLong(number: Option<string>, defNum: Option<int64>): (r: Option<int64>)
    ensures number.None? ==> r == defNum
    ensures r != defNum ==> number.Some? && r.Some? && SignedDecimal(number.value) == Some(r.value as int)
    ensures number.Some? && SignedDecimal(number.value).None? ==> r == defNum
    ensures number.Some? && SignedDecimal(number.value).Some? ==>
              r == if InInt64(SignedDecimal(number.value).value) then Some(SignedDecimal(number.value).value as int64) else defNum
  {
    if number.None? then defNum
    else match SignedDecimal(number.value)
      case Some(v) => if InInt64(v) then Some(v as int64) else defNum
      case None => defNum
  }

  /** The decimal digits of a natural number without leading zeros, as
      `Integer.toString`/`Long.toString` print it. */
  function NatDigits(n: nat): (ds: string)
    ensures NonEmptyDigits(ds)
  {
    if n < 10 then [DigitChar(n)] else NatDigits(n / 10) + [DigitChar(n % 10)]
  }

  /** The text `Integer.toString`/`Long.toString` give for `v`. */
  function DecimalString(v: int): string
  {
    if v < 0 then "-" + NatDigits(-v) else NatDigits(v)
  }

  lemma {:induction false} NatDigitsValue(n: nat)
    ensures DecimalValue(NatDigits(n)) == n
  {
    if n >= 10 {
      NatDigitsValue(n / 10);
      var ds := NatDigits(n);
      assert ds[..|ds| - 1] == NatDigits(n / 10);
    }
  }

  lemma SignedDecimalOfDecimalString(v: int)
    ensures SignedDecimal(DecimalString(v)) == Some(v)
  {
    var s := DecimalString(v);
    if v < 0 {
      NatDigitsValue(-v);
      assert s[1..] == NatDigits(-v);
    } else {
      NatDigitsValue(v);
      assert IsAsciiDigit(s[0]);
    }
  }

  /** Round trip: every Java `int` printed in decimal parses back to itself,
      whatever the default. */
  lemma ParseIntegerRoundTrip(v: int32, defNum: Option<int32>)
    ensures ParseInteger(Some(DecimalString(v)), defNum) == Some(v)
  {
    SignedDecimalOfDecimalString(v);
  }

  /** Round trip for Java `long`. */
  lemma ParseLongRoundTrip(v: int64, defNum: Option<int64>)
    ensures ParseLong(Some(DecimalString(v)), defNum) == Some(v)
  {
    SignedDecimalOfDecimalString(v);
  }

  /** A decimal integer outside the Java `int` range ("2147483648") gives the
      default, as the overflow `Integer.valueOf` throws is caught. */
  lemma ParseIntegerOverflow(v: int, defNum: Option<int32>)
    requires !InInt32(v)
    ensures ParseInteger(Some(DecimalString(v)), defNum) == defNum
  {
    SignedDecimalOfDecimalString(v);
  }

  /** The same for the Java `long` range. */
  lemma ParseLongOverflow(v: int, defNum: Option<int64>)
    requires !InInt64(v)
    ensures ParseLong(Some(DecimalString(v)), defNum) == defNum
  {
    SignedDecimalOfDecimalString(v);
  }

  /** A string passing `isDigits` always has a decimal value, so `parseInteger`
      falls back to the default on it only when that value is out of range. */
  lemma DigitsParse(s: string, defNum: Option<int32>)
    requires IsDigits(Some(s))
    ensures SignedDecimal(s).Some?
    ensures ParseInteger(Some(s), defNum) == defNum <==>
              !InInt32(SignedDecimal(s).value) || defNum == Some(SignedDecimal(s).value as int32)
  {
  }

  /** Text that is not in canonical form still parses: a leading `+` and
      leading zeros are accepted. */
  lemma NonCanonicalParses()
    ensures ParseLong(Some("+5"), None) == Some(5)
    ensures ParseLong(Some("007"), None) == Some(7)
    ensures ParseInteger(Some("-007"), Some(1)) == Some(-7)
  {
    assert "+5"[1..] == "5" && "5"[..0] == "";
    assert "-007"[1..] == "007";
    assert "007"[..2] == "00" && "00"[..1] == "0" && "0"[..0] == "";
    assert DecimalValue("007") == 7;
  }

  /** Text with no digits at all ("", "-", "+", "abc") always yields the default. */
  lemma NoDigitsGivesDefault(s: string, defNum: Option<int32>, defLong: Option<int64>)
    requires forall i :: 0 <= i < |s| ==> !IsAsciiDigit(s[i])
    ensures ParseInteger(Some(s), defNum) == defNum
    ensures ParseLong(Some(s), defLong) == defLong
  {
    if |s| > 0 {
      assert !IsAsciiDigit(s[0]);
      if |s| > 1 {
        assert !IsAsciiDigit(s[1..][0]);
      }
    }
  }
}
