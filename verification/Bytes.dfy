/** Raw bytes, the CRLF terminator and decimal numbers as they appear on the wire. */
module Bytes {
  type byte = x: int | 0 <= x < 256
  type bytes = seq<byte>

  datatype Option<+T> = None | Some(value: T)

  const CR: byte := 13
  const LF: byte := 10
  const MINUS: byte := 45
  const COLON: byte := 58
  const CRLF: bytes := [CR, LF]

  const I64_MAX: int := 0x7FFF_FFFF_FFFF_FFFF
  const I64_MIN: int := -0x8000_0000_0000_0000
  const U32_MAX: int := 0xFFFF_FFFF

  // ----- locating the line terminator -----

  predicate CrlfAt(s: bytes, i: int) {
    0 <= i && i + 1 < |s| && s[i] == CR && s[i + 1] == LF
  }

  /** Position of the first CRLF at or after `from`. */
  function FindCrlfFrom(s: bytes, from: nat): (r: Option<nat>)
    ensures r.Some? ==> from <= r.value && CrlfAt(s, r.value) && forall i :: from <= i < r.value ==> !CrlfAt(s, i)
    ensures r.None? ==> forall i :: from <= i ==> !CrlfAt(s, i)
    decreases |s| - from
  {
    if |s| <= from then None
    else if CrlfAt(s, from) then Some(from)
    else FindCrlfFrom(s, from + 1)
  }

  function FindCrlf(s: bytes): (r: Option<nat>)
    ensures r.Some? ==> CrlfAt(s, r.value) && forall i :: 0 <= i < r.value ==> !CrlfAt(s, i)
    ensures r.None? ==> forall i :: 0 <= i ==> !CrlfAt(s, i)
  {
    FindCrlfFrom(s, 0)
  }

  /** The first CRLF is decided by the bytes up to and including it. */
  lemma FindCrlfLocal(s: bytes, t: bytes)
    requires FindCrlf(s).Some?
    requires FindCrlf(s).value + 2 <= |t|
    requires t[..FindCrlf(s).value + 2] == s[..FindCrlf(s).value + 2]
    ensures FindCrlf(t) == FindCrlf(s)
  {
    var p := FindCrlf(s).value;
    forall i | 0 <= i <= p
      ensures CrlfAt(t, i) == CrlfAt(s, i)
    {
      assert t[i] == t[..p + 2][i] && s[i] == s[..p + 2][i];
      assert t[i + 1] == t[..p + 2][i + 1] && s[i + 1] == s[..p + 2][i + 1];
    }
  }

  /** Text without a CRLF inside, terminated by CRLF, is found to end exactly there, whatever follows. */
  lemma FindCrlfOfLine(line: bytes, rest: bytes)
    requires LineText(line)
    ensures FindCrlf(line + CRLF + rest) == Some(|line|)
  {
    var s := line + CRLF + rest;
    assert CrlfAt(s, |line|);
    forall i | 0 <= i < |line|
      ensures !CrlfAt(s, i)
    {
      if i + 1 < |line| {
        assert s[i] == line[i] && s[i + 1] == line[i + 1];
        assert !CrlfAt(line, i);
      } else {
        assert s[i + 1] == CR;
      }
    }
  }

  /** Text that can be the payload of a CRLF-terminated line. */
  predicate LineText(line: bytes) {
    forall i :: 0 <= i < |line| ==> !CrlfAt(line, i)
  }

  // ----- decimal numbers -----

  predicate IsDigit(b: byte) {
    48 <= b <= 57
  }

  predicate AllDigits(s: bytes) {
    forall i :: 0 <= i < |s| ==> IsDigit(s[i])
  }

  function DigitsValue(s: bytes): nat
    requires AllDigits(s)
  {
    if s == [] then 0 else DigitsValue(s[..|s| - 1]) * 10 + (s[|s| - 1] - 48)
  }

  /** `std::from_chars` into a 64-bit signed integer, required to consume the whole text. */
  function ParseI64(s: bytes): (r: Option<int>)
    ensures r.Some? ==> I64_MIN <= r.value <= I64_MAX
  {
    if s == [] then None
    else if s[0] == MINUS then
      if |s| == 1 || !AllDigits(s[1..]) || 0 - DigitsValue(s[1..]) < I64_MIN then None
      else Some(0 - DigitsValue(s[1..]))
    else if !AllDigits(s) || DigitsValue(s) > I64_MAX then None
    else Some(DigitsValue(s))
  }

  // What a decimal text stands for, digit by digit from the left.

  function PowerOfTen(n: nat): nat {
    if n == 0 then 1 else 10 * PowerOfTen(n - 1)
  }

  function DigitSum(s: bytes): nat
    requires AllDigits(s)
  {
    if s == [] then 0 else (s[0] - 48) * PowerOfTen(|s| - 1) + DigitSum(s[1..])
  }

  /** `s` is a decimal spelling of `v`: digits, at least one, after a minus sign or nothing. */
  predicate Denotes(s: bytes, v: int) {
    (s != [] && AllDigits(s) && v == DigitSum(s)) ||
    (|s| > 1 && s[0] as char == '-' && AllDigits(s[1..]) && v == 0 - DigitSum(s[1..]))
  }

  lemma {:induction false} DigitSumSnoc(s: bytes, b: byte)
    requires AllDigits(s) && IsDigit(b)
    ensures DigitSum(s + [b]) == DigitSum(s) * 10 + (b - 48)
    decreases |s|
  {
    if s == [] {
      assert (s + [b])[1..] == [];
    } else {
      assert (s + [b])[1..] == s[1..] + [b];
      DigitSumSnoc(s[1..], b);
      assert (s[0] - 48) * PowerOfTen(|s|) == (s[0] - 48) * PowerOfTen(|s| - 1) * 10;
    }
  }

  lemma {:induction false} DigitSumIsValue(s: bytes)
    requires AllDigits(s)
    ensures DigitSum(s) == DigitsValue(s)
    decreases |s|
  {
    if s != [] {
      var n := |s| - 1;
      DigitSumIsValue(s[..n]);
      DigitSumSnoc(s[..n], s[n]);
      assert s[..n] + [s[n]] == s;
    }
  }

  /** The integer parser takes exactly the decimal spellings of 64-bit integers. */
  lemma ParsesIffDenotes(s: bytes, v: int)
    ensures ParseI64(s) == Some(v) <==> Denotes(s, v) && -0x8000_0000_0000_0000 <= v <= 0x7FFF_FFFF_FFFF_FFFF
  {
    if s != [] && s[0] == MINUS {
      if |s| > 1 && AllDigits(s[1..]) {
        DigitSumIsValue(s[1..]);
      }
      assert !IsDigit(s[0]);
    } else if s != [] && AllDigits(s) {
      DigitSumIsValue(s);
    }
    hide DigitSum, DigitsValue;
  }

  /** `std::to_chars` of an unsigned number. */
  function ToDecimal(n: nat): (s: bytes)
    ensures |s| > 0 && AllDigits(s)
  {
    if n < 10 then [48 + n] else ToDecimal(n / 10) + [48 + n % 10]
  }

  lemma {:induction false} DigitsRoundTrip(n: nat)
    ensures DigitsValue(ToDecimal(n)) == n
  {
    var s := ToDecimal(n);
    if n < 10 {
      assert s[..|s| - 1] == [];
    } else {
      DigitsRoundTrip(n / 10);
      assert s[..|s| - 1] == ToDecimal(n / 10);
    }
  }

  /** Printing a length and parsing it back gives the length. */
  lemma DecimalRoundTrip(n: nat)
    requires n <= I64_MAX
    ensures ParseI64(ToDecimal(n)) == Some(n)
    ensures LineText(ToDecimal(n))
  {
    DigitsRoundTrip(n);
    var s := ToDecimal(n);
    assert IsDigit(s[0]);
  }

  // ----- stock facts about sequences of bytes -----

  function Concat(chunks: seq<bytes>): bytes {
    if chunks == [] then [] else chunks[0] + Concat(chunks[1..])
  }
}
