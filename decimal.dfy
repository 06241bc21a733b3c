/**
 * Base-10 integer text as the Go service reads and writes it:
 * `strconv.ParseInt(s, 10, bitSize)` when converting the upstream access
 * records, and `fmt.Sprintf("%d", n)` for the location attribute of a
 * published notification.
 */
module Decimal {
  import opened Common

  predicate IsDigit(c: char) { '0' <= c <= '9' }

  function DigitValue(c: char): (d: nat)
    requires IsDigit(c)
    ensures d < 10
  {
    c as int - '0' as int
  }

  function DigitChar(d: nat): (c: char)
    requires d < 10
    ensures IsDigit(c) && DigitValue(c) == d
  {
    ('0' as int + d) as char
  }

  /** `fmt.Sprintf("%d", n)` for a non-negative value: no sign, no leading zeros. */
  function FormatNat(n: nat): (s: string)
    ensures |s| > 0 && forall i :: 0 <= i < |s| ==> IsDigit(s[i])
    decreases n
  {
    if n < 10 then [DigitChar(n)] else FormatNat(n / 10) + [DigitChar(n % 10)]
  }

  /** `fmt.Sprintf("%d", n)`. */
  function FormatInt(n: int): (s: string)
    ensures |s| > 0
    ensures n < 0 <==> s[0] == '-'
  {
    if n < 0 then "-" + FormatNat(-n) else FormatNat(n)
  }

  /** The two ways `strconv.ParseInt` rejects its input. */
  datatype NumErrorKind = InvalidSyntax | OutOfRange

  /** `strconv.NumError`: the function, the offending text and the kind. */
  datatype NumError = NumError(func: string, num: string, kind: NumErrorKind)

  /**
   * `NumError.Error()`. Go quotes `num` with `strconv.Quote`, which also
   * escapes non-printable characters; here it is only enclosed in quotes.
   */
  function NumErrorText(e: NumError): string
  {
    "strconv." + e.func + ": parsing \"" + e.num + "\": "
      + (if e.kind == InvalidSyntax then "invalid syntax" else "value out of range")
  }

  /**
   * The digit loop of `strconv.ParseUint` in base 10: left to right, a
   * non-digit is a syntax error, and the first digit that takes the value
   * past `maxVal` is a range error (even if a non-digit follows it).
   */
  function ScanDigits(s: string, acc: nat, maxVal: nat): (r: Result<nat, NumErrorKind>)
    decreases |s|
  {
    if |s| == 0 then Ok(acc)
    else if !IsDigit(s[0]) then Err(InvalidSyntax)
    else if acc * 10 + DigitValue(s[0]) > maxVal then Err(OutOfRange)
    else ScanDigits(s[1..], acc * 10 + DigitValue(s[0]), maxVal)
  }

  function Pow2(n: nat): (p: int)
    ensures p >= 1
  {
    if n == 0 then 1 else 2 * Pow2(n - 1)
  }

  /** `strconv.ParseUint(s, 10, bitSize)`. */
  function ParseUint(s: string, bitSize: nat): Result<nat, NumErrorKind>
    requires 0 < bitSize <= 64
  {
    if |s| == 0 then Err(InvalidSyntax) else ScanDigits(s, 0, Pow2(bitSize) - 1)
  }

  /**
   * `strconv.ParseInt(s, 10, bitSize)`: an optional `+` or `-`, then at least
   * one digit, and a value inside the signed `bitSize`-bit range.
   */
  function ParseInt(s: string, bitSize: nat): (r: Result<int, NumError>)
    requires 0 < bitSize <= 64
    ensures r.Ok? ==> -Pow2(bitSize - 1) <= r.value < Pow2(bitSize - 1)
    ensures r.Err? ==> r.error.func == "ParseInt" && r.error.num == s
  {
    if |s| == 0 then Err(NumError("ParseInt", s, InvalidSyntax))
    else
      var neg := s[0] == '-';
      var digits := if s[0] == '+' || s[0] == '-' then s[1..] else s;
      var cutoff := Pow2(bitSize - 1);
      match ParseUint(digits, bitSize)
      case Err(InvalidSyntax) => Err(NumError("ParseInt", s, InvalidSyntax))
      case Err(OutOfRange) => Err(NumError("ParseInt", s, OutOfRange))
      case Ok(un) =>
        if !neg && un >= cutoff then Err(NumError("ParseInt", s, OutOfRange))
        else if neg && un > cutoff then Err(NumError("ParseInt", s, OutOfRange))
        else Ok(if neg then 0 - un else un)
  }

  /** Scanning one more character continues from the value scanned so far. */
  lemma {:induction false} ScanSnoc(s: string, c: char, acc: nat, maxVal: nat)
    ensures ScanDigits(s + [c], acc, maxVal) ==
      match ScanDigits(s, acc, maxVal)
      case Err(k) => Err(k)
      case Ok(v) =>
        if !IsDigit(c) then Err(InvalidSyntax)
        else if v * 10 + DigitValue(c) > maxVal then Err(OutOfRange)
        else Ok(v * 10 + DigitValue(c))
    decreases |s|
  {
    if |s| == 0 {
      assert (s + [c])[1..] == [];
    } else {
      assert (s + [c])[0] == s[0];
      assert (s + [c])[1..] == s[1..] + [c];
      if IsDigit(s[0]) && acc * 10 + DigitValue(s[0]) <= maxVal {
        ScanSnoc(s[1..], c, acc * 10 + DigitValue(s[0]), maxVal);
      }
    }
  }

  lemma {:induction false} ScanFormatNat(n: nat, maxVal: nat)
    requires n <= maxVal
    ensures ScanDigits(FormatNat(n), 0, maxVal) == Ok(n)
    decreases n
  {
    if n >= 10 {
      ScanFormatNat(n / 10, maxVal);
      ScanSnoc(FormatNat(n / 10), DigitChar(n % 10), 0, maxVal);
    }
  }

  lemma Pow2Step(n: nat)
    requires n > 0
    ensures Pow2(n) == 2 * Pow2(n - 1)
  {
  }

  /** Reading back what `%d` printed gives the same value, for every value the width holds. */
  lemma FormatThenParse(n: int, bitSize: nat)
    requires 0 < bitSize <= 64
    requires -Pow2(bitSize - 1) <= n < Pow2(bitSize - 1)
    ensures ParseInt(FormatInt(n), bitSize) == Ok(n)
  {
    Pow2Step(bitSize);
    var s := FormatInt(n);
    if n < 0 {
      assert s[1..] == FormatNat(-n);
      ScanFormatNat(-n, Pow2(bitSize) - 1);
    } else {
      var f := FormatNat(n);
      assert s == f;
      assert f[0] != '+' && f[0] != '-' by { assert IsDigit(f[0]); }
      ScanFormatNat(n, Pow2(bitSize) - 1);
    }
  }

  /** The source's two widths: external ids (32 bits) and location codes (8 bits). */
  lemma ParseWidths(s: string)
    ensures ParseInt(s, 32).Ok? ==> -0x8000_0000 <= ParseInt(s, 32).value < 0x8000_0000
    ensures ParseInt(s, 8).Ok? ==> -0x80 <= ParseInt(s, 8).value < 0x80
  {
    Pow2Bounds();
  }

  /** The range bounds of bit sizes 8 and 32. */
  lemma Pow2Bounds()
    ensures Pow2(7) == 0x80 && Pow2(31) == 0x8000_0000
  {
    assert Pow2(7) == 0x80;
    assert Pow2(15) == 0x8000;
    assert Pow2(23) == 0x80_0000;
    assert Pow2(31) == 0x8000_0000;
  }
}
