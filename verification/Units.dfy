/**
  Micro-USDC amounts through a double and through a decimal string. A double is known here only
  by the relative error of round-to-nearest: section 4.3.1 of IEEE 754-2019.
 */
module Units {

  const UNITS: nat := 1_000_000

  /** 2^53, the reciprocal of the unit roundoff. */
  const PRECISION: real := 9007199254740992.0

  /** `y` may be the double nearest to `x`. */
  predicate Rounds(x: real, y: real)
    requires x >= 0.0
  {
    x - x / PRECISION <= y <= x + x / PRECISION
  }

  /** Math.round: ties go up. */
  function Round(x: real): int { (x + 0.5).Floor }

  /** `toUnits`: `product` is the double that `usdc * 1e6` gives. */
  function ToUnits(product: real): int { Round(product) }

  lemma Scale(x: real, y: real)
    requires x >= 0.0 && Rounds(x, y)
    ensures y >= 0.0
    ensures 1_000_000.0 * x - 1_000_000.0 * x / PRECISION <= 1_000_000.0 * y <= 1_000_000.0 * x + 1_000_000.0 * x / PRECISION
  {
    assert x / PRECISION <= x;
  }

  /** Two roundings of an exact `k` stay within half a unit of it, for every `k` below 2^51. */
  lemma TwoRoundings(k: real, y: real, z: real)
    requires 0.0 <= k <= 2251799813685247.0
    requires k - k / PRECISION <= y <= k + k / PRECISION && y >= 0.0 && Rounds(y, z)
    ensures k - 0.5 < z < k + 0.5
  {
    var e := k / PRECISION;
    assert 0.0 <= e <= 0.25;
    var f := y / PRECISION;
    assert f <= (k + e) / PRECISION;
    assert (k + e) / PRECISION == e + e / PRECISION;
    assert e <= 2251799813685247.0 / PRECISION;
    assert e / PRECISION <= 0.25 / PRECISION;
  }

  /**
    Storing k / 10^6 as a double, multiplying by 10^6 in double arithmetic and rounding gives back
    `k`, for every amount of fewer than 2^51 micro-units; prices go only to 10^10.
   */
  lemma StoredUnitsExact(k: nat, stored: real, product: real)
    requires k < 2251799813685248
    requires Rounds(k as real / 1_000_000.0, stored) && stored >= 0.0 && Rounds(stored * 1_000_000.0, product)
    ensures ToUnits(product) == k
  {
    var x := k as real / 1_000_000.0;
    Scale(x, stored);
    assert 1_000_000.0 * x == k as real;
    TwoRoundings(k as real, stored * 1_000_000.0, product);
  }

  // ----- formatUsdc -----

  predicate IsDigit(c: char) { '0' <= c <= '9' }

  function DigitOf(d: nat): char
    requires d < 10
  {
    "0123456789"[d]
  }

  function ValueOf(c: char): nat
    requires IsDigit(c)
  {
    c as int - '0' as int
  }

  /** BigInt's toString. */
  function Decimal(n: nat): string
  {
    if n < 10 then [DigitOf(n)] else Decimal(n / 10) + [DigitOf(n % 10)]
  }

  function Zeros(n: nat): string { seq(n, _ => '0') }

  /** padStart(6, '0') */
  function PadStart(s: string): string { if |s| >= 6 then s else Zeros(6 - |s|) + s }

  function FormatUsdc(units: nat): string { Decimal(units / UNITS) + "." + PadStart(Decimal(units % UNITS)) }

  predicate Digits(s: string) { forall i :: 0 <= i < |s| ==> IsDigit(s[i]) }

  /** The number a string of digits reads as. */
  function Read(s: string): nat
    requires Digits(s)
  {
    if s == "" then 0 else 10 * Read(s[..|s| - 1]) + ValueOf(s[|s| - 1])
  }

  /** `s` reads as `units` micro-USDC: digits, one point, six digits. */
  ghost predicate ReadsAs(s: string, units: nat)
  {
    exists whole, fraction :: s == whole + "." + fraction && whole != "" && |fraction| == 6 &&
      Digits(whole) && Digits(fraction) && units == Read(whole) * UNITS + Read(fraction)
  }

  lemma DigitValue(d: nat)
    requires d < 10
    ensures IsDigit(DigitOf(d)) && ValueOf(DigitOf(d)) == d
  {
  }

  lemma {:induction false} DecimalReads(n: nat)
    ensures Digits(Decimal(n)) && Read(Decimal(n)) == n && Decimal(n) != ""
  {
    DigitValue(n % 10);
    if n < 10 {
      assert [DigitOf(n)][..0] == "";
    } else {
      DecimalReads(n / 10);
      var s := Decimal(n / 10);
      assert (s + [DigitOf(n % 10)])[..|s|] == s;
    }
  }

  lemma {:induction false} DecimalShort(n: nat, width: nat, bound: nat)
    requires width > 0 && bound == Power(width) && n < bound
    ensures |Decimal(n)| <= width
    decreases width
  {
    if n >= 10 {
      DecimalShort(n / 10, width - 1, Power(width - 1));
    }
  }

  function Power(n: nat): nat { if n == 0 then 1 else 10 * Power(n - 1) }

  lemma {:induction false} ZerosRead(n: nat, s: string)
    requires Digits(s)
    ensures Digits(Zeros(n) + s) && Read(Zeros(n) + s) == Read(s)
    decreases |s|, n
  {
    var all := Zeros(n) + s;
    if s != "" {
      assert all[..|all| - 1] == Zeros(n) + s[..|s| - 1];
      ZerosRead(n, s[..|s| - 1]);
    } else if n > 0 {
      assert all[..n - 1] == Zeros(n - 1) + s;
      ZerosRead(n - 1, s);
    }
  }

  /** Reading a formatted amount gives the amount back. */
  lemma FormatReads(units: nat)
    ensures ReadsAs(FormatUsdc(units), units)
  {
    var whole, rest := Decimal(units / UNITS), Decimal(units % UNITS);
    DecimalReads(units / UNITS);
    DecimalReads(units % UNITS);
    PowerSix();
    DecimalShort(units % UNITS, 6, Power(6));
    hide Decimal, Power;
    ZerosRead(6 - |rest|, rest);
    hide Zeros, Read;
    assert FormatUsdc(units) == whole + "." + PadStart(rest);
  }

  lemma PowerSix()
    ensures Power(6) == UNITS
  {
    assert Power(3) == 1000 && Power(4) == 10 * Power(3) && Power(5) == 10 * Power(4);
  }

  /** And a string reads as at most one amount, so two amounts never print alike. */
  lemma ReadsOnce(s: string, a: nat, b: nat)
    requires ReadsAs(s, a) && ReadsAs(s, b)
    ensures a == b
  {
    var w, f :| s == w + "." + f && w != "" && |f| == 6 && Digits(w) && Digits(f) && a == Read(w) * UNITS + Read(f);
    var v, g :| s == v + "." + g && v != "" && |g| == 6 && Digits(v) && Digits(g) && b == Read(v) * UNITS + Read(g);
    assert |w| == |s| - 7 == |v|;
    assert w == s[..|s| - 7] == v && f == s[|s| - 6..] == g;
  }
}
