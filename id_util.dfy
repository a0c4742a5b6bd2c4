/** Resident identity numbers (GB 11643-1999): the check character of an
    18-character number, validation, and the upgrade of a 15-digit number to
    18 characters. The check character is computed by ISO 7064:1983 MOD 11-2. */
module IdUtil {
  import opened Results
  import opened JavaLang

  /** Per-position weights of the first 17 digits. */
  const WEIGHTS: seq<nat> := [7, 9, 10, 5, 8, 4, 2, 1, 6, 3, 7, 9, 10, 5, 8, 4, 2]

  /** Check character indexed by the weighted sum modulo 11. */
  const CHECK_VALUES: seq<char> := ['1', '0', 'X', '9', '8', '7', '6', '5', '4', '3', '2']

  /** The only exception the operations raise: `IllegalArgumentException`. */
  datatype IdError = IllegalArgument

  /** Whole-string match of the pattern `\d{17}`. */
  predicate IsId17(s: string) { |s| == 17 && AllAsciiDigits(s) }

  /** Whole-string match of the pattern `\d{15}`. */
  predicate IsId15(s: string) { |s| == 15 && AllAsciiDigits(s) }

  /** Whole-string match of the pattern `\d{17}[0-9xX*]`. */
  predicate MatchesId18Pattern(s: string)
  {
    |s| == 18 && AllAsciiDigits(s[..17]) && (IsAsciiDigit(s[17]) || s[17] == 'x' || s[17] == 'X' || s[17] == '*')
  }

  /** The sum over the first `n` positions of weight times digit. */
  function WeightedSum(s: string, n: nat): (sum: int)
    requires n <= 17 && n <= |s|
    requires forall i :: 0 <= i < n ==> IsAsciiDigit(s[i])
    ensures 0 <= sum <= 90 * n
  {
    if n == 0 then 0 else WeightedSum(s, n - 1) + WEIGHTS[n - 1] * DigitValue(s[n - 1])
  }

  /** The check character of the 17-digit body `id17`. */
  function CheckValue(id17: string): char
    requires IsId17(id17)
  {
    CHECK_VALUES[WeightedSum(id17, 17) % 11]
  }

  /** `calcCheckValue`: rejects anything but exactly 17 ASCII digits, otherwise
      returns the one-character check value of the weighted digit sum. */
  method CalcCheckValue(id17: Option<string>) returns (r: Result<string, IdError>)
    ensures id17.None? || !IsId17(id17.value) ==> r == Err(IllegalArgument)
    ensures id17.Some? && IsId17(id17.value) ==> r == Ok([CheckValue(id17.value)])
  {
    if id17.None? || !IsId17(id17.value) {
      return Err(IllegalArgument);
    }
    var s := id17.value;
    var sum: int32 := 0;
    for i := 0 to 17
      invariant sum == WeightedSum(s, i)
    {
      sum := sum + WEIGHTS[i] * DigitValue(s[i]);
    }
    r := Ok([CHECK_VALUES[sum % 11]]);
  }

  /** The 17-digit body of the upgraded number: region code, the century "19",
      then the remaining nine digits. */
  function Id15Body(id15: string): (body: string)
    requires IsId15(id15)
    ensures IsId17(body)
  {
    id15[..6] + "19" + id15[6..]
  }

  /** The 18-character number a 15-digit number is upgraded to. */
  function Id15To18(id15: string): string
    requires IsId15(id15)
  {
    Id15Body(id15) + [CheckValue(Id15Body(id15))]
  }

  /** Java's `String.equalsIgnoreCase` on ASCII: equal length and, position by
      position, equal up to upper case. */
  function AsciiUpper(c: char): char
  {
    if 'a' <= c <= 'z' then (c as int - 32) as char else c
  }

  predicate EqualsIgnoreCase(a: string, b: string)
  {
    |a| == |b| && forall i :: 0 <= i < |a| ==> AsciiUpper(a[i]) == AsciiUpper(b[i])
  }

  /** Java's `String.replace(char, char)`. */
  function Replace(s: string, from: char, to: char): (r: string)
    ensures |r| == |s|
    ensures forall i :: 0 <= i < |s| ==> r[i] == if s[i] == from then to else s[i]
  {
    if s == [] then [] else [if s[0] == from then to else s[0]] + Replace(s[1..], from, to)
  }

  /** `isValidIdCardNo`: an 18-character number whose check character agrees
      (ignoring case, `*` read as `X`), or any 15-digit number. */
  predicate IsValidIdCardNo(id: Option<string>): (valid: bool)
    ensures valid ==> id.Some? && (IsId15(id.value) || |id.value| == 18)
    ensures id.Some? && IsId15(id.value) ==> valid
  {
    if id.None? then false
    else
      var s := id.value;
      if MatchesId18Pattern(s) then
        EqualsIgnoreCase([CheckValue(s[..17])], Replace(s[17..18], '*', 'X'))
      else IsId15(s)
  }

  /** `convertId15To18`: rejects anything but exactly 15 ASCII digits, otherwise
      inserts "19" after the region code and appends the check value. */
  method ConvertId15To18(id15: Option<string>) returns (r: Result<string, IdError>)
    ensures r.Err? <==> id15.None? || !IsId15(id15.value)
    ensures r.Err? ==> r.error == IllegalArgument
    ensures r.Ok? ==> r.value == Id15To18(id15.value) && |r.value| == 18
    ensures r.Ok? ==> IsValidIdCardNo(Some(r.value))
  {
    if id15.None? || !IsId15(id15.value) {
      return Err(IllegalArgument);
    }
    var s := id15.value;
    var id18 := s[..6];
    id18 := id18 + "19";
    id18 := id18 + s[6..15];
    assert s[6..15] == s[6..];
    var cv := CalcCheckValue(Some(id18));
    assert cv.Ok?;
    id18 := id18 + cv.value;
    ConvertedIsValid(s);
    r := Ok(id18);
  }

  // ---------------------------------------------------------------- properties

  /** The character a valid number carries in its last position, in upper case
      with `*` read as `X`. */
  function NormalizedCheck(c: char): char
  {
    if c == '*' then 'X' else AsciiUpper(c)
  }

  /** Validation, in one statement: a 15-digit number, or an 18-character
      pattern match whose normalised last character is the check value. */
  lemma ValidIdCardNo(s: string)
    ensures IsValidIdCardNo(Some(s)) <==>
              IsId15(s) || (MatchesId18Pattern(s) && NormalizedCheck(s[17]) == CheckValue(s[..17]))
  {
    if MatchesId18Pattern(s) {
      var cv := CheckValue(s[..17]);
      assert cv in CHECK_VALUES;
      assert Replace(s[17..18], '*', 'X')[0] == (if s[17] == '*' then 'X' else s[17]);
    }
  }

  /** Null is never a valid number. */
  lemma NullIsInvalid()
    ensures !IsValidIdCardNo(None)
  {
  }

  /** Round trip: every upgraded 15-digit number is a valid 18-character number. */
  lemma ConvertedIsValid(id15: string)
    requires IsId15(id15)
    ensures |Id15To18(id15)| == 18
    ensures IsValidIdCardNo(Some(Id15To18(id15)))
  {
    var id18 := Id15To18(id15);
    var body := Id15Body(id15);
    assert id18[..17] == body;
    assert CheckValue(body) in CHECK_VALUES;
    ValidIdCardNo(id18);
  }

  function Pow2(n: nat): nat
  {
    if n == 0 then 1 else 2 * Pow2(n - 1)
  }

  /** The table weights are those of ISO 7064 MOD 11-2: 2^(17-i) modulo 11. */
  lemma WeightsArePowersOfTwo()
    ensures forall i :: 0 <= i < 17 ==> WEIGHTS[i] == Pow2(17 - i) % 11
  {
    assert Pow2(17) == 131072 && Pow2(16) == 65536 && Pow2(15) == 32768;
    assert Pow2(14) == 16384 && Pow2(13) == 8192 && Pow2(12) == 4096;
    assert Pow2(11) == 2048 && Pow2(10) == 1024 && Pow2(9) == 512;
    assert Pow2(8) == 256 && Pow2(7) == 128 && Pow2(6) == 64;
    assert Pow2(5) == 32 && Pow2(4) == 16 && Pow2(3) == 8 && Pow2(2) == 4 && Pow2(1) == 2;
  }

  /** The value of a check character; `X` stands for ten. */
  predicate IsCheckChar(c: char) { IsAsciiDigit(c) || c == 'X' }

  function CheckCharValue(c: char): nat
    requires IsCheckChar(c)
  {
    if c == 'X' then 10 else DigitValue(c)
  }

  /** The check value is the ISO 7064 MOD 11-2 check character: adding its value
      (weight 1) to the weighted sum of the body gives 1 modulo 11, and it is the
      only character that does. */
  lemma CheckValueIsMod11_2(id17: string, c: char)
    requires IsId17(id17) && IsCheckChar(c)
    ensures IsCheckChar(CheckValue(id17))
    ensures CheckValue(id17) == c <==> (WeightedSum(id17, 17) + CheckCharValue(c)) % 11 == 1
  {
    var m := WeightedSum(id17, 17) % 11;
    assert (WeightedSum(id17, 17) + CheckCharValue(c)) % 11 == (m + CheckCharValue(c)) % 11;
  }

  /** An 18-character pattern match is valid exactly when its whole weighted
      sum, counting the normalised last character with weight 1, is 1 modulo 11. */
  lemma Valid18IsMod11_2(s: string)
    requires MatchesId18Pattern(s)
    ensures IsCheckChar(NormalizedCheck(s[17]))
    ensures IsValidIdCardNo(Some(s)) <==>
              (WeightedSum(s[..17], 17) + CheckCharValue(NormalizedCheck(s[17]))) % 11 == 1
  {
    ValidIdCardNo(s);
    CheckValueIsMod11_2(s[..17], NormalizedCheck(s[17]));
  }
}
