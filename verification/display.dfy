/** The texts a compiled file shows in the list: the compressed size of its
    result, the difference to the size baseline and the time since the last
    compilation. */
module Display {
  import opened Wrappers
  import opened Text
  import TimeExtensions

  /** 10 to the power d, for the decimals the size text uses. */
  function Pow10(d: nat): (p: nat)
    requires d <= 2
    ensures p == 1 || p == 10 || p == 100
  {
    if d == 0 then 1 else if d == 1 then 10 else 100
  }

  /** a / b rounded to the nearest whole number, halves away from zero. */
  function RoundHalfUp(a: nat, b: nat): nat
    requires b > 0
  {
    (2 * a + b) / (2 * b)
  }

  /** The rounded quotient is within half a unit of the exact one. */
  lemma RoundHalfUpAccuracy(a: nat, b: nat)
    requires b > 0
    ensures 2 * (RoundHalfUp(a, b) * b - a) <= b
    ensures 2 * (a - RoundHalfUp(a, b) * b) < b
  {
    var n := RoundHalfUp(a, b);
    assert 2 * a + b == n * (2 * b) + (2 * a + b) % (2 * b);
  }

  /** The d digits of m, with leading zeros. */
  function FractionDigits(m: nat, d: nat): (r: string)
    ensures |r| == d && forall i :: 0 <= i < d ==> IsDigit(r[i])
  {
    DigitRoundTrip(m % 10);
    if d == 0 then [] else FractionDigits(m / 10, d - 1) + [DigitChar(m % 10)]
  }

  /** The format "0", "0.0" or "0.00" of n / 10^decimals in the invariant
      culture. */
  function FixedPoint(n: nat, decimals: nat): string
    requires decimals <= 2
  {
    if decimals == 0 then NatToString(n)
    else
      var p := Pow10(decimals);
      var q: nat := n / p;
      var m: nat := n % p;
      NatToString(q) + "." + FractionDigits(m, decimals)
  }

  lemma {:induction false} FractionDigitsValue(q: string, m: nat, d: nat)
    requires forall i :: 0 <= i < |q| ==> IsDigit(q[i])
    requires d <= 2 && m < Pow10(d)
    ensures AllDigits(q + FractionDigits(m, d))
    ensures DecimalValue(q + FractionDigits(m, d)) == DecimalValue(q) * Pow10(d) + m
  {
    if d == 0 {
      assert q + FractionDigits(m, d) == q;
    } else {
      FractionDigitsValue(q, m / 10, d - 1);
      var s := q + FractionDigits(m, d);
      DigitRoundTrip(m % 10);
      assert s[..|s| - 1] == q + FractionDigits(m / 10, d - 1);
      assert DecimalValue(s) == (DecimalValue(q) * Pow10(d - 1) + m / 10) * 10 + m % 10;
    }
  }

  /** Reading the digits of a fixed-point text without its decimal point
      gives back the scaled number. */
  lemma FixedPointValue(n: nat, decimals: nat)
    requires 0 < decimals <= 2
    ensures var t := FixedPoint(n, decimals);
      |t| > decimals && t[|t| - decimals - 1] == '.' &&
      AllDigits(t[..|t| - decimals - 1] + t[|t| - decimals..]) &&
      DecimalValue(t[..|t| - decimals - 1] + t[|t| - decimals..]) == n
  {
    var p := Pow10(decimals);
    var q := NatToString(n / p);
    var f := FractionDigits(n % p, decimals);
    var t := FixedPoint(n, decimals);
    assert t == q + "." + f;
    assert |t| == |q| + 1 + decimals;
    assert t[..|t| - decimals - 1] == q;
    assert t[|t| - decimals..] == f;
    FractionDigitsValue(q, n % p, decimals);
    NatToStringRoundTrip(n / p);
    assert DecimalValue(q + f) == n / p * p + n % p;
  }

  /** How a size of at least 1 KiB is shown: the divisor, the number of
      decimals and the unit. */
  datatype Scale = Scale(divisor: nat, decimals: nat, unit: string)

  /** The size thresholds: below 10, 100 and 1024 units two, one and no
      decimals, first in KiB, then in MiB. */
  function ScaleOf(size: int): (sc: Scale)
    requires size >= 1024
    ensures sc.divisor >= 1024 && sc.decimals <= 2
  {
    if size < 1024 * 10 then Scale(1024, 2, "KiB")
    else if size < 1024 * 100 then Scale(1024, 1, "KiB")
    else if size < 1024 * 1024 then Scale(1024, 0, "KiB")
    else if size < 1024 * 1024 * 10 then Scale(1024 * 1024, 2, "MiB")
    else if size < 1024 * 1024 * 100 then Scale(1024 * 1024, 1, "MiB")
    else Scale(1024 * 1024, 0, "MiB")
  }

  /** The number shown for a scaled size, in units of the last decimal. */
  function ScaledNumber(size: int): nat
    requires size >= 1024
  {
    var sc := ScaleOf(size);
    RoundHalfUp(size * Pow10(sc.decimals), sc.divisor)
  }

  /** CompressedResultSizeStr: empty for an unknown size (-1), whole bytes
      with group separators below 1 KiB or when sizes are shown in bytes,
      otherwise KiB or MiB. */
  function CompressedResultSizeStr(size: int, fileSizesInBytes: bool): string
  {
    if size < 0 then ""
    else if size < 1024 || fileSizesInBytes then GroupThousands(size) + " B"
    else FixedPoint(ScaledNumber(size), ScaleOf(size).decimals) + " " + ScaleOf(size).unit
  }

  /** The size text is empty exactly when the size is unknown. */
  lemma SizeStrEmptyIffUnknown(size: int, inBytes: bool)
    ensures CompressedResultSizeStr(size, inBytes) == "" <==> size < 0
  {
  }

  /** A size shown in bytes reads back as the size. */
  lemma SizeStrBytesRoundTrip(size: int, inBytes: bool)
    requires 0 <= size && (size < 1024 || inBytes)
    ensures var t := CompressedResultSizeStr(size, inBytes);
      EndsWith(t, " B") &&
      AllDigits(StripCommas(t[..|t| - 2])) &&
      DecimalValue(StripCommas(t[..|t| - 2])) == size
  {
    var t := CompressedResultSizeStr(size, inBytes);
    assert t[..|t| - 2] == GroupThousands(size);
    GroupThousandsRoundTrip(size);
  }

  /** A scaled size is the exact quotient rounded to the shown decimals:
      off by at most half a unit of the last decimal. */
  lemma ScaledAccuracy(size: int)
    requires size >= 1024
    ensures var sc := ScaleOf(size);
      2 * (ScaledNumber(size) * sc.divisor - size * Pow10(sc.decimals)) <= sc.divisor &&
      2 * (size * Pow10(sc.decimals) - ScaledNumber(size) * sc.divisor) < sc.divisor
  {
    var sc := ScaleOf(size);
    RoundHalfUpAccuracy(size * Pow10(sc.decimals), sc.divisor);
  }

  /** A scaled size always shows at least three significant digits, and
      below 1024 MiB at most four (up to "1024 KiB" after rounding). */
  lemma ScaledSignificantDigits(size: int)
    requires size >= 1024
    ensures 100 <= ScaledNumber(size)
    ensures size < 1024 * 1024 * 1024 ==> ScaledNumber(size) <= 1024
  {
    var sc := ScaleOf(size);
    var a := size * Pow10(sc.decimals);
    RoundHalfUpAccuracy(a, sc.divisor);
    assert a >= 100 * sc.divisor;
    if size < 1024 * 1024 * 1024 {
      assert a < 1024 * sc.divisor;
    }
  }

  /** The text of a scaled size: the rounded number with its decimal point
      and the unit. */
  lemma SizeStrScaled(size: int, inBytes: bool)
    requires size >= 1024 && !inBytes
    ensures var sc := ScaleOf(size);
      CompressedResultSizeStr(size, inBytes) == FixedPoint(ScaledNumber(size), sc.decimals) + " " + sc.unit &&
      (sc.decimals == 0 ==> DecimalValue(FixedPoint(ScaledNumber(size), 0)) == ScaledNumber(size))
  {
    NatToStringRoundTrip(ScaledNumber(size));
  }

  /** The minus sign U+2212 and the plus-minus sign U+00B1 of the diff text. */
  const Minus: char := '\U{2212}'
  const PlusMinus: char := '\U{B1}'

  /** CompressedResultSizeDiffStr: the difference to the baseline with its
      sign and group separators, empty without a baseline. */
  function CompressedResultSizeDiffStr(size: int, baseline: int): string
  {
    if baseline < 0 then ""
    else
      var diff := size - baseline;
      if diff < 0 then [Minus] + GroupThousands(-diff)
      else if diff > 0 then "+" + GroupThousands(diff)
      else [PlusMinus] + "0"
  }

  /** Reads a diff text back: a sign and a grouped number. */
  function ReadDiff(t: string): Option<int>
  {
    if t == [] || !AllDigits(StripCommas(t[1..])) then None
    else
      var magnitude: int := DecimalValue(StripCommas(t[1..]));
      if t[0] == Minus then Some(-magnitude)
      else if t[0] == '+' || t[0] == PlusMinus then Some(magnitude)
      else None
  }

  lemma ReadDiffOf(c: char, n: nat)
    ensures ReadDiff([c] + GroupThousands(n)) ==
      if c == Minus then Some(-(n as int)) else if c == '+' || c == PlusMinus then Some(n as int) else None
  {
    var t := [c] + GroupThousands(n);
    assert t[1..] == GroupThousands(n);
    GroupThousandsRoundTrip(n);
  }

  /** With a baseline the diff text reads back as the difference, whatever
      its sign; without one it is empty. */
  lemma DiffStrRoundTrip(size: int, baseline: int)
    ensures baseline < 0 <==> CompressedResultSizeDiffStr(size, baseline) == ""
    ensures baseline >= 0 ==> ReadDiff(CompressedResultSizeDiffStr(size, baseline)) == Some(size - baseline)
  {
    if baseline >= 0 {
      var diff := size - baseline;
      var t := CompressedResultSizeDiffStr(size, baseline);
      if diff < 0 {
        assert t == [Minus] + GroupThousands(-diff);
        ReadDiffOf(Minus, -diff);
      } else if diff > 0 {
        assert t == ['+'] + GroupThousands(diff);
        ReadDiffOf('+', diff);
      } else {
        assert GroupThousands(0) == "0";
        assert t == [PlusMinus] + GroupThousands(0);
        ReadDiffOf(PlusMinus, 0);
      }
    }
  }

  /** The sign of the diff text is the sign of the difference. */
  lemma DiffStrSign(size: int, baseline: int)
    requires baseline >= 0
    ensures var t := CompressedResultSizeDiffStr(size, baseline);
      t != [] &&
      (t[0] == Minus <==> size < baseline) &&
      (t[0] == '+' <==> size > baseline) &&
      (t == [PlusMinus, '0'] <==> size == baseline)
  {
  }

  /** LastCompileTimeStr: empty when the file was never compiled, otherwise
      the verbose time since the compilation (which is negative when the
      clock went back) and " ago". */
  function LastCompileTimeStr(lastCompileTime: nat, now: nat): string
  {
    if lastCompileTime == 0 then ""
    else TimeExtensions.ToVerbose(now - lastCompileTime) + " ago"
  }

  /** The time text is empty exactly when there was no compilation, and a
      compilation less than a minute ago is shown in seconds. */
  lemma LastCompileTimeStrMeaning(lastCompileTime: nat, now: nat)
    ensures LastCompileTimeStr(lastCompileTime, now) == "" <==> lastCompileTime == 0
    ensures lastCompileTime != 0 ==> EndsWith(LastCompileTimeStr(lastCompileTime, now), " ago")
    ensures lastCompileTime != 0 && now - lastCompileTime < 60 * 10000000 ==>
      var secs := TimeExtensions.TotalSecondsTruncated(now - lastCompileTime);
      LastCompileTimeStr(lastCompileTime, now) == IntToString(secs) + " sec ago"
  {
    if lastCompileTime != 0 {
      var secs := TimeExtensions.TotalSecondsTruncated(now - lastCompileTime);
      var t := LastCompileTimeStr(lastCompileTime, now);
      assert t == TimeExtensions.ToVerbose(now - lastCompileTime) + " ago";
      assert t[|t| - 4..] == " ago";
      if now - lastCompileTime < 60 * 10000000 {
        TimeExtensions.UnderAMinute(secs);
      }
    }
  }
}
