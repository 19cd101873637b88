// Memory limits as Incus writes and reads them.
module ByteSizes {
  import opened Text

  // Inexact covers numerals with a fraction and products beyond 2^53, where the
  // floating-point computation of the program is not exact.
  datatype ByteSize = Bytes(n: nat) | Malformed | Inexact

  const EXACT_LIMIT: int := 0x20_0000_0000_0000

  predicate IsNumeric(c: char) { IsDigit(c) || c == '.' }

  // The length of the leading numeral.
  function PrefixLength(s: string): (n: nat)
    ensures n <= |s|
  {
    if s != [] && IsNumeric(s[0]) then 1 + PrefixLength(s[1..]) else 0
  }

  lemma {:induction false} PrefixLengthAt(s: string, n: nat)
    requires n <= |s| && (forall i :: 0 <= i < n ==> IsNumeric(s[i])) && (n == |s| || !IsNumeric(s[n]))
    ensures PrefixLength(s) == n
  {
    if n > 0 {
      PrefixLengthAt(s[1..], n - 1);
    }
  }

  function Multiplier(unit: string): Option<nat> {
    if unit == "B" || unit == "" then Some(1)
    else if unit == "KB" then Some(1000)
    else if unit == "K" || unit == "KIB" then Some(1024)
    else if unit == "MB" then Some(1_000_000)
    else if unit == "M" || unit == "MIB" then Some(1_048_576)
    else if unit == "GB" then Some(1_000_000_000)
    else if unit == "G" || unit == "GIB" then Some(1_073_741_824)
    else if unit == "TB" then Some(1_000_000_000_000)
    else if unit == "T" || unit == "TIB" then Some(1_099_511_627_776)
    else None
  }

  function Dots(s: string): nat { if s == "" then 0 else (if s[0] == '.' then 1 else 0) + Dots(s[1..]) }

  // A run of digits and dots is a number when it has a digit and at most one dot.
  predicate IsDecimal(numeral: string) { Dots(numeral) <= 1 && Dots(numeral) < |numeral| }

  lemma {:induction false} DigitsHaveNoDots(s: string)
    requires AllDigits(s)
    ensures Dots(s) == 0
  {
    if s != "" {
      DigitsHaveNoDots(s[1..]);
    }
  }

  function Scaled(numeral: string, unit: string): ByteSize {
    if numeral == "" || !IsDecimal(numeral) then Malformed
    else if Multiplier(unit).None? then Malformed
    else if !AllDigits(numeral) then Inexact
    else if DigitsValue(numeral) * Multiplier(unit).value > EXACT_LIMIT then Inexact
    else Bytes(DigitsValue(numeral) * Multiplier(unit).value)
  }

  function ParseByteSize(val: string): ByteSize {
    var trimmed := TrimSpace(val);
    if trimmed == "" then Bytes(0)
    else if Atoi(trimmed).Some? then
      if Atoi(trimmed).value < 0 then Malformed else Bytes(Atoi(trimmed).value)
    else
      var upper := ToUpper(trimmed);
      var n := PrefixLength(upper);
      Scaled(upper[..n], TrimSpace(upper[n..]))
  }

  // The scanning procedure.
  method ParseIncusByteSize(val: string) returns (size: ByteSize)
    ensures size == ParseByteSize(val)
  {
    var trimmed := TrimSpace(val);
    if trimmed == "" {
      return Bytes(0);
    }
    var whole := Atoi(trimmed);
    if whole.Some? {
      return if whole.value < 0 then Malformed else Bytes(whole.value);
    }
    var upper := ToUpper(trimmed);
    var idx := 0;
    while idx < |upper| && IsNumeric(upper[idx])
      invariant 0 <= idx <= |upper|
      invariant forall i :: 0 <= i < idx ==> IsNumeric(upper[i])
    {
      idx := idx + 1;
    }
    PrefixLengthAt(upper, idx);
    return Scaled(upper[..idx], TrimSpace(upper[idx..]));
  }

  // The limit string written for a memory size.
  function LimitString(megabytes: nat): string { Decimal(megabytes) + "MB" }

  // The units of sizes, in bytes.
  const UNITS: map<string, nat> :=
    map["B" := 1, "KB" := 1000, "MB" := 1000 * 1000, "GB" := 1000 * 1000 * 1000, "TB" := 1000 * 1000 * 1000 * 1000,
        "K" := 1024, "M" := 1024 * 1024, "G" := 1024 * 1024 * 1024, "T" := 1024 * 1024 * 1024 * 1024,
        "KIB" := 1024, "MIB" := 1024 * 1024, "GIB" := 1024 * 1024 * 1024, "TIB" := 1024 * 1024 * 1024 * 1024]

  // Every size that is printed with a unit reads back as so many of it, as long as
  // the product is exact.
  lemma SizesReadBack(n: nat, unit: string)
    requires unit in UNITS
    ensures ParseByteSize(Decimal(n) + unit) == if n * UNITS[unit] <= EXACT_LIMIT then Bytes(n * UNITS[unit]) else Inexact
  {
    UnitIs(unit);
    UnitSplitsOff(n, unit);
    DecimalValue(n);
    DigitsHaveNoDots(Decimal(n));
  }

  lemma UnitIs(unit: string)
    requires unit in UNITS
    ensures Multiplier(unit) == Some(UNITS[unit])
    ensures unit != "" && forall i :: 0 <= i < |unit| ==> 'A' <= unit[i] <= 'Z'
  {
  }

  // The scan stops where the unit begins.
  lemma UnitSplitsOff(n: nat, unit: string)
    requires unit != "" && forall i :: 0 <= i < |unit| ==> 'A' <= unit[i] <= 'Z'
    ensures ParseByteSize(Decimal(n) + unit) == Scaled(Decimal(n), unit)
  {
    var s := Decimal(n) + unit;
    PrintedSize(Decimal(n), unit);
    PrefixLengthAt(s, |Decimal(n)|);
    assert s[..|Decimal(n)|] == Decimal(n) && s[|Decimal(n)|..] == unit;
    TrimSpaceKeeps(unit);
  }

  // What is printed is no plain number, has no outer blanks and no lower-case letters.
  lemma PrintedSize(digits: string, unit: string)
    requires digits != "" && AllDigits(digits)
    requires unit != "" && forall i :: 0 <= i < |unit| ==> 'A' <= unit[i] <= 'Z'
    ensures TrimSpace(digits + unit) == ToUpper(digits + unit) == digits + unit
    ensures Atoi(digits + unit).None?
  {
    var s := digits + unit;
    TrimSpaceKeeps(s);
    assert s[0] == digits[0];
    assert s[|s| - 1] == unit[|unit| - 1] && !IsDigit(s[|s| - 1]);
    assert ToUpper(s) == s;
  }

  // Reading a written limit back yields decimal megabytes.
  lemma LimitReadsBack(n: nat)
    requires n * 1_000_000 <= EXACT_LIMIT
    ensures ParseByteSize(LimitString(n)) == Bytes(n * 1_000_000)
  {
    UnitSplitsOff(n, "MB");
    DecimalValue(n);
    DigitsHaveNoDots(Decimal(n));
  }

  // In binary megabytes the read-back value is strictly below what was asked
  // for, and it is zero exactly for one megabyte.
  lemma LimitShrinks(n: nat)
    requires n >= 1
    ensures n * 1_000_000 / 1_048_576 < n
    ensures n * 1_000_000 / 1_048_576 == 0 <==> n == 1
  {
  }
}
