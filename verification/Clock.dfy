/** The core clock computed from the clock registers: SystemCoreClockUpdate, with its binary32
    arithmetic, its truncation and its prescaler table. */
module Clock {
  import opened Binary32

  const HSI_VALUE: nat := 64000000
  const CSI_VALUE: nat := 4000000
  const HSE_VALUE: nat := 25000000

  const AHB_PRESC_TABLE: seq<nat> := [0, 0, 0, 0, 0, 0, 0, 0, 1, 2, 3, 4, 6, 7, 8, 9]

  /** The register fields the computation reads. `sws`, `hsidiv`, `source` and `p` are raw fields: `p`
      is one less than the divider it stands for. */
  datatype Fields = Fields(
    sws: nat, hsidiv: nat, source: nat, m: nat, n: nat, fracEnabled: bool, fraction: nat, p: nat, hpre: nat)
  {
    /** The widths of the fields. */
    predicate Valid() {
      hsidiv < 4 && source < 4 && m < 64 && n < 512 && fraction < 8192 && p < 128 && hpre < 16
    }

    /** A PLL that is fed has a divider. */
    predicate Divided() {
      source != 0 ==> m > 0
    }

    /** The frequency that feeds the PLL. */
    function Source(): nat {
      match source
      case 1 => Shift(HSI_VALUE, hsidiv)
      case 2 => CSI_VALUE
      case 3 => HSE_VALUE
      case _ => 0
    }

    function Fraction(): nat {
      if fracEnabled then fraction else 0
    }

    /** The multiplier, in units of 1/8192. */
    function Multiplier(): nat {
      8192 * (n + 1) + Fraction()
    }

    function Divider(): nat {
      p + 1
    }
  }

  /** x >> k */
  function Shift(x: nat, k: nat): nat {
    if k == 0 then x else Shift(x / 2, k - 1)
  }

  function Pow2(k: nat): (r: nat)
    ensures r > 0
  {
    if k == 0 then 1 else 2 * Pow2(k - 1)
  }

  // ---------------------------------------------------------------- binary32 operations

  function FromInt(n: nat): (r: real)
    ensures r >= 0.0
  {
    Round(n as real)
  }

  function FloatAdd(a: real, b: real): (r: real)
    requires a >= 0.0 && b >= 0.0
    ensures r >= 0.0
  {
    Round(a + b)
  }

  function FloatMul(a: real, b: real): (r: real)
    requires a >= 0.0 && b >= 0.0
    ensures r >= 0.0
  {
    Round(a * b)
  }

  function FloatDiv(a: real, b: real): (r: real)
    requires a >= 0.0 && b > 0.0
    ensures r >= 0.0
  {
    Round(a / b)
  }

  // ---------------------------------------------------------------- what is exact

  lemma SmallIsExact(n: nat)
    requires n < 16777216
    ensures FromInt(n) == n as real
  {
    SmallIntegers(n);
    RoundIsExact(n as real);
  }

  lemma Over16(y: real)
    requires y >= 0.0
    ensures Representable(y / 16.0) == Representable(y)
  {
    hide Representable;
    Halves(y);
    Halves(y / 2.0);
    Halves(y / 4.0);
    Halves(y / 8.0);
  }

  lemma Over8192(y: real)
    requires y >= 0.0
    ensures Representable(y / 8192.0) == Representable(y)
  {
    hide Representable;
    Over16(y);
    Over16(y / 16.0);
    Over16(y / 256.0);
    Halves(y / 4096.0);
  }

  /** Multiples of 1/8192 below 2048 are binary32 values. */
  lemma FixedPointIsExact(n: nat)
    requires n < 16777216
    ensures Round(n as real / 8192.0) == n as real / 8192.0
  {
    SmallIntegers(n);
    Over8192(n as real);
    RoundIsExact(n as real / 8192.0);
  }

  /** The multiplier as the program computes it. */
  function FloatMultiplier(f: Fields): (r: real)
    requires f.Valid()
    ensures r >= 0.0
  {
    SmallIsExact(8192);
    FloatAdd(FloatAdd(FromInt(f.n), FloatDiv(FromInt(f.Fraction()), FromInt(0x2000))), FromInt(1))
  }

  /** None of the operations that build the multiplier rounds. */
  lemma MultiplierIsExact(f: Fields)
    requires f.Valid()
    ensures FloatMultiplier(f) == f.Multiplier() as real / 8192.0
  {
    hide Round;
    SmallIsExact(f.n);
    SmallIsExact(f.Fraction());
    SmallIsExact(0x2000);
    SmallIsExact(1);
    FixedPointIsExact(f.Fraction());
    FixedPointIsExact(8192 * f.n + f.Fraction());
    FixedPointIsExact(f.Multiplier());
  }

  lemma SourceValues(f: Fields)
    requires f.Valid()
    ensures f.Source() in {64000000, 32000000, 16000000, 8000000, 4000000, 25000000, 0}
  {
    if f.hsidiv == 3 {
      assert Shift(HSI_VALUE, 3) == Shift(32000000, 2);
    }
  }

  /** Nor does the conversion of the source frequency. */
  lemma SourceIsExact(f: Fields)
    requires f.Valid()
    ensures FromInt(f.Source()) == f.Source() as real
  {
    SourceValues(f);
    hide Round, Representable;
    Halves(64000000.0);
    Halves(32000000.0);
    Halves(25000000.0);
    SmallIntegers(16000000);
    SmallIntegers(12500000);
    SmallIntegers(8000000);
    SmallIntegers(4000000);
    SmallIntegers(0);
    RoundIsExact(f.Source() as real);
  }

  // ---------------------------------------------------------------- the PLL path

  /** The frequency of the PLL's oscillator, as the program computes it. */
  function Vco(f: Fields): (v: real)
    requires f.Valid() && f.Divided()
    ensures v >= 0.0
  {
    if f.source == 0 then 0.0
    else
      SmallIsExact(f.m);
      FloatMul(FloatDiv(FromInt(f.Source()), FromInt(f.m)), FloatMultiplier(f))
  }

  /** The PLL's output before it is truncated. */
  function PllOutput(f: Fields): (r: real)
    requires f.Valid() && f.Divided()
    ensures r >= 0.0
  {
    SmallIsExact(f.Divider());
    FloatDiv(Vco(f), FromInt(f.Divider()))
  }

  /** Three operations round: the division by the first divider, the multiplication, and the division
      by the second. */
  lemma ThreeRoundings(f: Fields)
    requires f.Valid() && f.source != 0 && f.m > 0
    ensures Vco(f) == FloatMul(FloatDiv(f.Source() as real, f.m as real), f.Multiplier() as real / 8192.0)
    ensures PllOutput(f) == FloatDiv(Vco(f), f.Divider() as real)
  {
    SmallIsExact(f.m);
    SmallIsExact(f.Divider());
    SourceIsExact(f);
    MultiplierIsExact(f);
    hide FloatMul, FloatDiv, FloatMultiplier, FromInt;
  }

  // ---------------------------------------------------------------- the rounding error

  /** `y` differs from `x` by at most 2^-24 of it. */
  predicate Near(x: real, y: real) {
    Abs(y - x) * HIGH <= x
  }

  /** Exact multiplication and division. */
  function Times(a: real, b: real): (r: real)
    ensures a >= 0.0 && b >= 0.0 ==> r >= 0.0
  {
    a * b
  }

  function Over(a: real, b: real): (r: real)
    requires b != 0.0
    ensures a >= 0.0 && b > 0.0 ==> r >= 0.0
  {
    a / b
  }

  lemma MulIsNear(a: real, b: real)
    requires a >= 0.0 && b >= 0.0
    ensures Near(Times(a, b), FloatMul(a, b))
  {
    RelativeBound(a * b);
  }

  lemma DivIsNear(a: real, b: real)
    requires a >= 0.0 && b > 0.0
    ensures Near(Over(a, b), FloatDiv(a, b))
  {
    RelativeBound(a / b);
  }

  lemma NearTimes(x: real, y: real, c: real)
    requires Near(x, y) && c >= 0.0
    ensures Near(Times(x, c), Times(y, c))
  {
    Stretch(x, y, c);
    var xc, yc := x * c, y * c;
    assert Times(x, c) == xc && Times(y, c) == yc;
  }

  lemma Stretch(x: real, y: real, c: real)
    requires Near(x, y) && c >= 0.0
    ensures Near(x * c, y * c)
  {
    assert Abs(y - x) * HIGH * c <= x * c;
    assert Abs(y * c - x * c) == Abs(y - x) * c by {
      assert y * c - x * c == (y - x) * c;
    }
  }

  lemma OverIsTimes(x: real, c: real)
    requires c != 0.0
    ensures Over(x, c) == Times(x, 1.0 / c)
  {
  }

  lemma NearOver(x: real, y: real, c: real)
    requires Near(x, y) && c > 0.0
    ensures Near(Over(x, c), Over(y, c))
  {
    NearTimes(x, y, 1.0 / c);
    OverIsTimes(x, c);
    OverIsTimes(y, c);
    hide Over, Times;
  }

  /** Three roundings are off by less than four times what one may be. */
  lemma ThreeNear(e: real, s: real, z: real, r: real)
    requires e >= 0.0 && Near(e, s) && Near(s, z) && Near(z, r)
    ensures Abs(r - e) * HIGH <= 4.0 * e
  {
  }

  lemma ThreeOperationsAreNear(s: real, m: real, x: real, p: real)
    requires s >= 0.0 && m > 0.0 && x >= 0.0 && p > 0.0
    ensures Abs(FloatDiv(FloatMul(FloatDiv(s, m), x), p) - Over(Times(Over(s, m), x), p)) * HIGH
         <= 4.0 * Over(Times(Over(s, m), x), p)
  {
    hide *;
    var a, q := Over(s, m), FloatDiv(s, m);
    var v := FloatMul(q, x);
    DivIsNear(s, m);
    NearTimes(a, q, x);
    NearOver(Times(a, x), Times(q, x), p);
    MulIsNear(q, x);
    NearOver(Times(q, x), v, p);
    DivIsNear(v, p);
    ThreeNear(Over(Times(a, x), p), Over(Times(q, x), p), Over(v, p), FloatDiv(v, p));
  }

  /** The frequency the fields ask for: source / m * multiplier / p. */
  function Exact(f: Fields): (e: real)
    requires f.m > 0
    ensures e >= 0.0
  {
    Over(Times(Over(f.Source() as real, f.m as real), f.Multiplier() as real / 8192.0), f.Divider() as real)
  }

  /** The output differs from the exact frequency by at most 4 * 2^-24 of it. */
  lemma OutputIsNear(f: Fields)
    requires f.Valid() && f.source != 0 && f.m > 0
    ensures Abs(PllOutput(f) - Exact(f)) * HIGH <= 4.0 * Exact(f)
  {
    hide Round, FloatMul, FloatDiv, Over, Times, PllOutput, Vco, Fields.Source, Fields.Multiplier;
    ThreeRoundings(f);
    ThreeOperationsAreNear(f.Source() as real, f.m as real, f.Multiplier() as real / 8192.0, f.Divider() as real);
  }

  lemma ExactMeans(f: Fields)
    requires f.m > 0
    ensures Exact(f) == (f.Source() * f.Multiplier()) as real / (8192 * f.m * f.Divider()) as real
  {
    var s, m, x, p := f.Source() as real, f.m as real, f.Multiplier() as real, f.Divider() as real;
    Fraction(s, m, x, p);
  }

  lemma Fraction(s: real, m: real, x: real, p: real)
    requires m > 0.0 && p > 0.0
    ensures Over(Times(Over(s, m), x / 8192.0), p) == s * x / (8192.0 * m * p)
  {
    var a, b := s / m, x / 8192.0;
    var e := a * b / p;
    assert a * m == s && b * 8192.0 == x && e * p == a * b;
    Regroup(a, m, b, 8192.0);
    assert e * (8192.0 * m * p) == s * x by {
      assert e * (8192.0 * m * p) == e * p * (8192.0 * m);
      assert a * b * (8192.0 * m) == a * b * (m * 8192.0);
    }
    assert 8192.0 * m * p != 0.0;
  }

  lemma Regroup(a: real, m: real, b: real, n: real)
    ensures a * b * (m * n) == (a * m) * (b * n)
  {
  }

  // ---------------------------------------------------------------- truncation and the prescaler

  lemma {:induction false} ShiftIsDivision(x: nat, k: nat)
    ensures Shift(x, k) == x / Pow2(k)
    decreases k
  {
    if k > 0 {
      ShiftIsDivision(x / 2, k - 1);
      DivideTwice(x, 2, Pow2(k - 1));
    }
  }

  lemma AtLeast(n: int, d: int)
    requires n >= 1 && d > 0
    ensures d * n >= d
  {
  }

  lemma UniqueQuotient(d: int, q: int, r: int, q': int, r': int)
    requires d > 0 && 0 <= r < d && 0 <= r' < d && d * q + r == d * q' + r'
    ensures q == q'
  {
    assert d * (q - q') == d * q - d * q';
    assert d * (q' - q) == d * q' - d * q;
    if q > q' {
      AtLeast(q - q', d);
    } else if q < q' {
      AtLeast(q' - q, d);
    }
  }

  lemma DivisionIsUnique(x: int, d: int, q: int, r: int)
    requires d > 0 && 0 <= r < d && x == d * q + r
    ensures x / d == q
  {
    UniqueQuotient(d, q, r, x / d, x % d);
  }

  lemma Nested(b: int, c: int, s: int, t: int, r: int)
    requires 0 <= r < b && 0 <= t < c
    ensures b * (c * s + t) + r == (b * c) * s + (b * t + r)
    ensures 0 <= b * t + r < b * c
  {
    assert b * t <= b * (c - 1);
  }

  lemma DivideTwice(x: nat, b: nat, c: nat)
    requires b > 0 && c > 0
    ensures b * c > 0 && x / b / c == x / (b * c)
  {
    var q, r := x / b, x % b;
    var s, t := q / c, q % c;
    Nested(b, c, s, t, r);
    assert x == b * q + r && q == c * s + t;
    DivisionIsUnique(x, b * c, s, b * t + r);
  }

  /** Truncating first and shifting then is one truncation of the shifted value. */
  lemma {:induction false} ShiftIsFloor(r: real, k: nat)
    requires r >= 0.0
    ensures Shift(r.Floor, k) == (r / Pow2(k) as real).Floor
    decreases k
  {
    if k > 0 {
      assert r.Floor / 2 == (r / 2.0).Floor;
      ShiftIsFloor(r / 2.0, k - 1);
      HalfOver(r, Pow2(k - 1) as real);
    }
  }

  lemma HalfOver(r: real, d: real)
    requires d > 0.0
    ensures r / 2.0 / d == r / (2.0 * d)
  {
  }

  lemma NotNegative(a: real, b: real)
    requires a >= 0.0 && b >= 0.0
    ensures a * b >= 0.0
  {
  }

  lemma Positive(a: real, b: real)
    requires a > 0.0 && b > 0.0
    ensures a * b > 0.0
  {
  }

  lemma Room(d: real, c: real)
    requires d < 1.0 && c > 0.0
    ensures d * c < c
  {
    Positive(1.0 - d, c);
    assert (1.0 - d) * c == c - d * c;
  }

  lemma Bounds(e: real, n: real, c: real, ec: real, nc: real)
    requires n <= e < n + 1.0 && c > 0.0 && ec == e * c && nc == n * c
    ensures nc <= ec < nc + c
  {
    var d := e - n;
    var dc := d * c;
    assert dc == ec - nc;
    NotNegative(d, c);
    Room(d, c);
    assert 0.0 <= dc < c;
  }

  lemma CastProduct(n: int, b: int)
    ensures (n * b) as real == n as real * b as real
  {
  }

  lemma FloorIsDivision(a: nat, b: nat)
    requires b > 0
    ensures (a as real / b as real).Floor == a / b
  {
    var e := a as real / b as real;
    var n := e.Floor;
    CastProduct(n, b);
    Bounds(e, n as real, b as real, a as real, (n * b) as real);
    DivisionIsUnique(a, b, n, a - b * n);
  }

  /** With exact arithmetic, truncating and then shifting yields the integer quotient. */
  lemma ExactPath(f: Fields, k: nat)
    requires f.m > 0
    ensures 8192 * f.m * f.Divider() * Pow2(k) > 0
    ensures Shift(Exact(f).Floor, k) == f.Source() * f.Multiplier() / (8192 * f.m * f.Divider() * Pow2(k))
  {
    var a, b := f.Source() * f.Multiplier(), 8192 * f.m * f.Divider();
    assert b > 0;
    ExactMeans(f);
    FloorIsDivision(a, b);
    ShiftIsDivision(a / b, k);
    DivideTwice(a, b, Pow2(k));
  }

  // ---------------------------------------------------------------- the clock

  /** The system clock before the prescaler. */
  function Sysclk(f: Fields): nat
    requires f.Valid() && (f.sws == 0x18 ==> f.Divided())
  {
    match f.sws
    case 0x00 => Shift(HSI_VALUE, f.hsidiv)
    case 0x08 => CSI_VALUE
    case 0x10 => HSE_VALUE
    case 0x18 => PllOutput(f).Floor
    case _ => HSI_VALUE
  }

  function Prescaler(f: Fields): nat
    requires f.Valid()
  {
    AHB_PRESC_TABLE[f.hpre]
  }

  /** The frequency the fields ask for, after the prescaler. */
  function ExactHclk(f: Fields): (e: real)
    requires f.Valid() && f.m > 0
    ensures e >= 0.0
  {
    Over(Exact(f), Pow2(Prescaler(f)) as real)
  }

  lemma ErrorAfterShift(r: real, e: real, k: nat, c: real)
    requires r >= 0.0 && e >= 0.0 && Abs(r - e) * HIGH <= 4.0 * e && c == Pow2(k) as real
    ensures c > 0.0 && Abs(Shift(r.Floor, k) as real - Over(e, c)) < 1.0 + 4.0 * Over(e, c) / HIGH
  {
    assert c > 0.0;
    OverSpread(r, e, c);
    ShiftIsFloor(r, k);
    assert Over(r, c) == r / c;
    hide Shift, Pow2, Over;
    FloorIsNear(Over(r, c), Over(e, c));
  }

  lemma FloorIsNear(t: real, u: real)
    requires Abs(t - u) * HIGH <= 4.0 * u
    ensures Abs(t.Floor as real - u) < 1.0 + 4.0 * u / HIGH
  {
  }

  lemma OverSpread(r: real, e: real, c: real)
    requires c > 0.0 && Abs(r - e) * HIGH <= 4.0 * e
    ensures Abs(Over(r, c) - Over(e, c)) * HIGH <= 4.0 * Over(e, c)
  {
    var t, u := r / c, e / c;
    assert t * c == r && u * c == e;
    Spread(t, u, c, r, e);
    hide Abs;
  }

  lemma Spread(t: real, u: real, c: real, r: real, e: real)
    requires c > 0.0 && t * c == r && u * c == e && Abs(r - e) * HIGH <= 4.0 * e
    ensures Abs(t - u) * HIGH <= 4.0 * u
  {
    var d := 4.0 * u - Abs(t - u) * HIGH;
    assert (t - u) * c == r - e;
    assert Abs(t - u) * c == Abs(r - e);
    assert d * c == 4.0 * (u * c) - Abs(t - u) * c * HIGH;
    if d < 0.0 {
      Positive(-d, c);
    }
  }

  /** The rounding error of the whole computation: the clock differs from the exact frequency, which is
      source * (8192 * (n + 1) + fraction) / (8192 * m * p * 2^k), by less than one hertz and four times
      2^-24 of it. */
  lemma ClockError(f: Fields)
    requires f.Valid() && f.sws == 0x18 && f.source != 0 && f.m > 0
    ensures Abs(Sysclk(f) as real - Exact(f)) < 1.0 + 4.0 * Exact(f) / HIGH
    ensures Abs(Shift(Sysclk(f), Prescaler(f)) as real - ExactHclk(f)) < 1.0 + 4.0 * ExactHclk(f) / HIGH
  {
    OutputIsNear(f);
    var k := Prescaler(f);
    hide PllOutput, Exact, Prescaler;
    ErrorAfterShift(PllOutput(f), Exact(f), k, Pow2(k) as real);
  }

  // ---------------------------------------------------------------- the same in raw fields

  /** `hz` is the frequency that the source field selects, and `frac` the fraction that counts. */
  predicate RawSource(f: Fields, hz: nat, frac: nat) {
    && (f.source == 1 ==> hz == InternalHz(f.hsidiv))
    && (f.source == 2 ==> hz == 4000000)
    && (f.source == 3 ==> hz == 25000000)
    && frac == (if f.fracEnabled then f.fraction else 0)
  }

  /** The internal oscillator behind its divider. */
  function InternalHz(hsidiv: nat): nat {
    if hsidiv == 0 then 64000000 else if hsidiv == 1 then 32000000 else if hsidiv == 2 then 16000000 else 8000000
  }

  /** What the clock is divided by last: the prescaler field does not know 32. */
  function HpreDivider(hpre: nat): (d: nat)
    ensures d > 0
  {
    if hpre < 8 then 1
    else if hpre == 8 then 2
    else if hpre == 9 then 4
    else if hpre == 10 then 8
    else if hpre == 11 then 16
    else if hpre == 12 then 64
    else if hpre == 13 then 128
    else if hpre == 14 then 256
    else 512
  }

  lemma InternalMeans(k: nat)
    requires k < 4
    ensures Shift(64000000, k) == InternalHz(k)
  {
    if k == 3 {
      assert Shift(64000000, 3) == Shift(32000000, 2);
    }
  }

  lemma SmallPowers()
    ensures Pow2(0) == 1 && Pow2(1) == 2 && Pow2(2) == 4 && Pow2(3) == 8 && Pow2(4) == 16
    ensures Pow2(6) == 64 && Pow2(7) == 128 && Pow2(8) == 256 && Pow2(9) == 512
  {
    assert Pow2(3) == 8;
    assert Pow2(5) == 32;
    assert Pow2(7) == 128;
  }

  lemma PrescalerMeans(f: Fields)
    requires f.Valid()
    ensures Pow2(Prescaler(f)) == HpreDivider(f.hpre)
  {
    SmallPowers();
    hide Pow2;
  }

  lemma FieldMeanings(f: Fields, hz: nat, frac: nat)
    requires f.Valid() && f.source != 0 && RawSource(f, hz, frac)
    ensures f.Source() == hz && f.Fraction() == frac && f.Multiplier() == 8192 * (f.n + 1) + frac && f.Divider() == f.p + 1
  {
    if f.source == 1 {
      InternalMeans(f.hsidiv);
    }
  }

  /** The exact frequency is hz * (8192 * (n + 1) + frac) / (8192 * m * (p + 1)). */
  lemma ExactInFields(f: Fields, hz: nat, frac: nat)
    requires f.Valid() && f.source != 0 && f.m > 0 && RawSource(f, hz, frac)
    ensures Exact(f) == (hz * (8192 * (f.n + 1) + frac)) as real / (8192 * f.m * (f.p + 1)) as real
  {
    FieldMeanings(f, hz, frac);
    ExactMeans(f);
  }

  /** The rounding error in raw fields: the clock is less than one hertz and four times 2^-24 off the frequency
      that source, dividers, multiplier, fraction and prescaler ask for. */
  lemma ClockErrorInFields(f: Fields, hz: nat, frac: nat, asked: real)
    requires f.Valid() && f.sws == 0x18 && f.source != 0 && f.m > 0 && RawSource(f, hz, frac)
    requires asked == (hz * (8192 * (f.n + 1) + frac)) as real / (8192 * f.m * (f.p + 1)) as real
    ensures Abs(Sysclk(f) as real - asked) < 1.0 + 4.0 * asked / HIGH
    ensures var c := asked / HpreDivider(f.hpre) as real;
            Abs(Shift(Sysclk(f), Prescaler(f)) as real - c) < 1.0 + 4.0 * c / HIGH
  {
    ExactInFields(f, hz, frac);
    PrescalerMeans(f);
    ClockError(f);
    hide Sysclk, Shift, Prescaler, Exact, HpreDivider, Pow2, InternalHz;
    assert ExactHclk(f) == asked / HpreDivider(f.hpre) as real;
  }

  /** The other clocks: the internal oscillator behind its divider, the low-power and the external one, the
      internal one at full speed for a selection that does not exist, and none from a PLL without a source; each
      divided by the prescaler. */
  lemma OtherClocks(f: Fields)
    requires f.Valid() && (f.sws == 0x18 ==> f.source == 0)
    ensures Shift(Sysclk(f), Prescaler(f)) ==
      (if f.sws == 0x00 then InternalHz(f.hsidiv)
       else if f.sws == 0x08 then 4000000
       else if f.sws == 0x10 then 25000000
       else if f.sws == 0x18 then 0
       else 64000000) / HpreDivider(f.hpre)
  {
    InternalMeans(f.hsidiv);
    PrescalerMeans(f);
    ShiftIsDivision(Sysclk(f), Prescaler(f));
    if f.sws == 0x18 {
      NoSourceNoClock(f);
    }
    hide Prescaler, HpreDivider, Pow2, PllOutput;
  }

  lemma NoSourceNoClock(f: Fields)
    requires f.Valid() && f.source == 0
    ensures PllOutput(f) == 0.0
  {
    SmallIsExact(f.Divider());
    SmallIsExact(0);
    assert 0.0 / f.Divider() as real == 0.0;
  }

  /** A frequency a little below 2^32 Hz is sure to fit 32 bits. */
  lemma OutputFits(f: Fields)
    requires f.Valid() && f.source != 0 && f.m > 0 && Exact(f) <= 4294966000.0
    ensures PllOutput(f) < 4294967296.0
  {
    OutputIsNear(f);
    hide PllOutput, Exact;
  }

  /** The system's clock variable, as the rest of the program sees it. */
  class System {
    var systemCoreClock: nat

    constructor ()
      ensures systemCoreClock == HSI_VALUE
    {
      systemCoreClock := 64000000;
    }

    /** SystemCoreClockUpdate. The conversion of the PLL's output to 32 bits is defined only if it fits. */
    method SystemCoreClockUpdate(f: Fields)
      requires f.Valid() && (f.sws == 0x18 ==> f.Divided() && PllOutput(f) < 4294967296.0)
      modifies this
      ensures systemCoreClock == Shift(Sysclk(f), Prescaler(f)) < 4294967296
    {
      match f.sws {
        case 0x00 =>
          systemCoreClock := Shift(HSI_VALUE, f.hsidiv);
        case 0x08 =>
          systemCoreClock := CSI_VALUE;
        case 0x10 =>
          systemCoreClock := HSE_VALUE;
        case 0x18 =>
          var fracn1 := FromInt((if f.fracEnabled then 1 else 0) * f.fraction);
          var pllvco: real;
          SmallIsExact(f.m);
          SmallIsExact(8192);
          match f.source {
            case 1 =>
              var hsivalue := Shift(HSI_VALUE, f.hsidiv);
              pllvco := FloatMul(FloatDiv(FromInt(hsivalue), FromInt(f.m)),
                                 FloatAdd(FloatAdd(FromInt(f.n), FloatDiv(fracn1, FromInt(0x2000))), FromInt(1)));
            case 2 =>
              pllvco := FloatMul(FloatDiv(FromInt(CSI_VALUE), FromInt(f.m)),
                                 FloatAdd(FloatAdd(FromInt(f.n), FloatDiv(fracn1, FromInt(0x2000))), FromInt(1)));
            case 3 =>
              pllvco := FloatMul(FloatDiv(FromInt(HSE_VALUE), FromInt(f.m)),
                                 FloatAdd(FloatAdd(FromInt(f.n), FloatDiv(fracn1, FromInt(0x2000))), FromInt(1)));
            case _ =>
              pllvco := FromInt(0);
          }
          var pllp := f.p + 1;
          SmallIsExact(pllp);
          systemCoreClock := FloatDiv(pllvco, FromInt(pllp)).Floor;
        case _ =>
          systemCoreClock := HSI_VALUE;
      }
      var tmp := AHB_PRESC_TABLE[f.hpre];
      ShiftShrinks(systemCoreClock, tmp);
      systemCoreClock := Shift(systemCoreClock, tmp);
    }
  }

  lemma {:induction false} ShiftShrinks(x: nat, k: nat)
    ensures Shift(x, k) <= x
    decreases k
  {
    if k > 0 {
      ShiftShrinks(x / 2, k - 1);
    }
  }

  // ---------------------------------------------------------------- when the clock is exact

  /** What the fields' frequency is a fraction of, with the prescaler 2^k. */
  function Denominator(f: Fields, k: nat): (d: nat)
    requires f.m > 0
    ensures d > 0
  {
    DivideTwice(0, 8192 * f.m * f.Divider(), Pow2(k));
    8192 * f.m * f.Divider() * Pow2(k)
  }

  /** The clock is the exact integer quotient, before and after the prescaler. */
  predicate ClockIsQuotient(f: Fields)
    requires f.Valid() && f.m > 0
  {
    && Sysclk(f) == f.Source() * f.Multiplier() / Denominator(f, 0)
    && Shift(Sysclk(f), Prescaler(f)) == f.Source() * f.Multiplier() / Denominator(f, Prescaler(f))
  }

  /** The integer quotient in raw fields. */
  lemma QuotientInFields(f: Fields, hz: nat, frac: nat)
    requires f.Valid() && f.m > 0 && f.source != 0 && RawSource(f, hz, frac) && ClockIsQuotient(f)
    ensures 8192 * f.m * (f.p + 1) * HpreDivider(f.hpre) > 0
    ensures Shift(Sysclk(f), Prescaler(f)) == hz * (8192 * (f.n + 1) + frac) / (8192 * f.m * (f.p + 1) * HpreDivider(f.hpre))
  {
    FieldMeanings(f, hz, frac);
    PrescalerMeans(f);
    assert Denominator(f, Prescaler(f)) > 0;
    hide Sysclk, Shift, Prescaler, HpreDivider, Pow2, InternalHz, Fields.Source, Fields.Multiplier, Fields.Fraction;
  }

  /** The exact results of the first two operations that may round. */
  function Quotient(f: Fields): (q: real)
    requires f.m > 0
    ensures q >= 0.0
  {
    Over(f.Source() as real, f.m as real)
  }

  function Product(f: Fields): (p: real)
    requires f.m > 0
    ensures p >= 0.0
  {
    Times(Quotient(f), f.Multiplier() as real / 8192.0)
  }

  /** If none of the three results needs more than 24 bits, nothing is rounded: the clock is the integer
      quotient, before and after the prescaler. */
  lemma ExactIfRepresentable(f: Fields)
    requires f.Valid() && f.sws == 0x18 && f.source != 0 && f.m > 0
    requires Representable(Quotient(f)) && Representable(Product(f)) && Representable(Exact(f))
    ensures PllOutput(f) == Exact(f)
    ensures ClockIsQuotient(f)
  {
    ExactOutput(f);
    ExactPath(f, 0);
    ExactPath(f, Prescaler(f));
    hide PllOutput, Exact, Prescaler, Fields.Source, Fields.Multiplier, Pow2, Representable;
    assert Shift(Sysclk(f), 0) == Sysclk(f);
  }

  lemma DivIsExact(a: real, b: real)
    requires a >= 0.0 && b > 0.0 && Representable(Over(a, b))
    ensures FloatDiv(a, b) == Over(a, b)
  {
    RoundIsExact(a / b);
  }

  lemma MulIsExact(a: real, b: real)
    requires a >= 0.0 && b >= 0.0 && Representable(Times(a, b))
    ensures FloatMul(a, b) == Times(a, b)
  {
    RoundIsExact(a * b);
  }

  lemma ExactOutput(f: Fields)
    requires f.Valid() && f.source != 0 && f.m > 0
    requires Representable(Quotient(f)) && Representable(Product(f)) && Representable(Exact(f))
    ensures PllOutput(f) == Exact(f)
  {
    ThreeRoundings(f);
    var s, m, x, p := f.Source() as real, f.m as real, f.Multiplier() as real / 8192.0, f.Divider() as real;
    assert s >= 0.0 && m > 0.0 && x >= 0.0 && p > 0.0;
    hide Representable, FloatDiv, FloatMul, Over, Times, PllOutput, Vco, Fields.Source, Fields.Multiplier;
    DivIsExact(s, m);
    MulIsExact(Quotient(f), x);
    DivIsExact(Product(f), p);
  }

  /** Dividing by a power of two, and multiplying by one, changes the exponent only. */
  lemma {:induction false} OverPower(x: real, k: nat)
    requires x >= 0.0
    ensures Over(x, Pow2(k) as real) >= 0.0 && Representable(Over(x, Pow2(k) as real)) == Representable(x)
    decreases k
  {
    hide Representable, Over;
    if k == 0 {
      OverOneIs(x);
    } else {
      OverTwice(x, Pow2(k - 1) as real);
      Halves(x);
      OverPower(x / 2.0, k - 1);
    }
  }

  lemma OverTwice(x: real, d: real)
    requires d > 0.0
    ensures Over(x, 2.0 * d) == Over(x / 2.0, d)
  {
    HalfOver(x, d);
  }

  lemma {:induction false} TimesPower(x: real, k: nat)
    requires x >= 0.0
    ensures Times(x, Pow2(k) as real) >= 0.0 && Representable(Times(x, Pow2(k) as real)) == Representable(x)
    decreases k
  {
    hide Representable, Times;
    if k == 0 {
      TimesOne(x);
    } else {
      TimesTwice(x, Pow2(k - 1) as real);
      Scales(x);
      TimesPower(2.0 * x, k - 1);
    }
  }

  lemma OverOneIs(x: real)
    ensures Over(x, 1.0) == x
  {
  }

  lemma TimesOne(x: real)
    ensures Times(x, 1.0) == x
  {
  }

  lemma TimesTwice(x: real, d: real)
    ensures Times(x, 2.0 * d) == Times(2.0 * x, d)
  {
    assert x * (2.0 * d) == 2.0 * x * d;
  }

  lemma CancelFactor(a: real, b: real, c: real)
    requires c != 0.0 && a * c == b * c
    ensures a == b
  {
  }

  /** c * e / i times r * t / 8192 is c * r * e * t / i / 8192. */
  lemma ProductRegroups(c: real, e: real, i: real, r: real, t: real, x: real)
    requires i > 0.0 && x * 8192.0 == r * t
    ensures Times(Over(Times(c, e), i), x) == Over(Over(Times(Times(Times(c, r), e), t), i), 8192.0)
  {
    var q := c * e / i;
    var w := c * r * e * t;
    var z := w / i;
    assert q * i == c * e && z * i == w;
    Reorder(c, r, e, t);
    Shuffle(q, x, i);
    CancelFactor(q * x * 8192.0, z, i);
    assert Over(Over(w, i), 8192.0) == z / 8192.0;
    assert Times(Over(Times(c, e), i), x) == q * x;
    assert Times(Times(Times(c, r), e), t) == w;
  }

  lemma Reorder(c: real, r: real, e: real, t: real)
    ensures c * r * e * t == (c * e) * (r * t)
  {
  }

  lemma Shuffle(q: real, x: real, i: real)
    ensures q * x * 8192.0 * i == (q * i) * (x * 8192.0)
  {
  }

  lemma CastTimes(a: nat, b: nat)
    ensures (a * b) as real == Times(a as real, b as real)
  {
    CastProduct(a, b);
  }

  /** Where source / m is c * 2^e / 2^i and the multiplier is r * 2^t, quotient and product are an integer
      times and over powers of two. */
  lemma DyadicFields(s: nat, m: nat, x: nat, c: nat, e: nat, i: nat, r: nat, t: nat)
    requires m > 0 && i > 0 && s * i == c * e * m && x == r * t
    ensures var quotient := Over(Times(c as real, e as real), i as real);
            && Over(s as real, m as real) == quotient
            && Times(quotient, x as real / 8192.0)
               == Over(Over(Times(Times((c * r) as real, e as real), t as real), i as real), 8192.0)
  {
    SameQuotient(s, m, c * e, i);
    CastTimes(c, e);
    CastTimes(c, r);
    CastProduct(r, t);
    hide Over, Times;
    ProductRegroups(c as real, e as real, i as real, r as real, t as real, x as real / 8192.0);
  }

  lemma SameQuotient(a: nat, b: nat, c: nat, d: nat)
    requires b > 0 && d > 0 && a * d == c * b
    ensures Over(a as real, b as real) == Over(c as real, d as real)
  {
    CastProduct(a, d);
    CastProduct(c, b);
    var x, y := a as real / b as real, c as real / d as real;
    assert x * b as real == a as real && y * d as real == c as real;
    var bd := b as real * d as real;
    assert x * bd == x * b as real * d as real;
    assert y * bd == y * d as real * b as real;
    CancelFactor(x, y, bd);
  }

  /** The clock is the exact integer quotient if source / m is c * 2^e / 2^i, the multiplier is r * 2^t, the
      last divider is a power of two, and c * r has at most 24 bits. */
  lemma DyadicClockIsExact(f: Fields, c: nat, e: nat, i: nat, r: nat, t: nat, j: nat)
    requires f.Valid() && f.sws == 0x18 && f.source != 0 && f.m > 0
    requires f.Source() * Pow2(i) == c * Pow2(e) * f.m && f.Multiplier() == r * Pow2(t) && f.Divider() == Pow2(j)
    requires c < 16777216 && c * r < 16777216
    ensures ClockIsQuotient(f)
  {
    DyadicResults(f, c, e, i, r, t, j);
    hide *;
    ExactIfRepresentable(f);
  }

  lemma DyadicResults(f: Fields, c: nat, e: nat, i: nat, r: nat, t: nat, j: nat)
    requires f.m > 0
    requires f.Source() * Pow2(i) == c * Pow2(e) * f.m && f.Multiplier() == r * Pow2(t) && f.Divider() == Pow2(j)
    requires c < 16777216 && c * r < 16777216
    ensures Representable(Quotient(f)) && Representable(Product(f)) && Representable(Exact(f))
  {
    hide Representable, Over, Times, Pow2, Exact, Fields.Source, Fields.Multiplier, Fields.Divider;
    DyadicFields(f.Source(), f.m, f.Multiplier(), c, Pow2(e), Pow2(i), r, Pow2(t));
    DyadicQuotient(c, e, i);
    DyadicProduct(Both(c, r), e, t, i, j);
    ExactForm(f, Pow2(j));
  }

  function Both(c: nat, r: nat): nat {
    c * r
  }

  lemma ExactForm(f: Fields, p: nat)
    requires f.m > 0 && f.Divider() == p
    ensures Exact(f) == Over(Product(f), p as real)
  {
    hide Over, Times;
  }

  lemma DyadicQuotient(c: nat, e: nat, i: nat)
    requires c < 16777216
    ensures Representable(Over(Times(c as real, Pow2(e) as real), Pow2(i) as real))
  {
    SmallIntegers(c);
    hide Representable, Over, Times;
    TimesPower(c as real, e);
    OverPower(Times(c as real, Pow2(e) as real), i);
  }

  lemma DyadicProduct(n: nat, e: nat, t: nat, i: nat, j: nat)
    requires n < 16777216
    ensures var product := Over(Over(Times(Times(n as real, Pow2(e) as real), Pow2(t) as real), Pow2(i) as real), 8192.0);
            product >= 0.0 && Representable(product) && Representable(Over(product, Pow2(j) as real))
  {
    SmallIntegers(n);
    hide Representable, Over, Times;
    TimesPower(n as real, e);
    var y := Times(n as real, Pow2(e) as real);
    TimesPower(y, t);
    var z := Times(y, Pow2(t) as real);
    OverPower(z, i);
    OverOf8192(Over(z, Pow2(i) as real));
    OverPower(Over(Over(z, Pow2(i) as real), 8192.0), j);
  }

  /** The odd part of the source frequency: 64 MHz and 4 MHz are 5^6 times a power of two, and 25 MHz is 5^8
      times one. */
  function OddPart(f: Fields): nat {
    if f.source == 3 then 390625 else 15625
  }

  lemma SourceParts(f: Fields) returns (e: nat)
    requires f.Valid() && f.source != 0
    ensures f.Source() == OddPart(f) * Pow2(e)
  {
    assert Pow2(6) == 64;
    assert Pow2(8) == 256;
    assert Pow2(9) == 512;
    assert Pow2(10) == 1024;
    assert Pow2(11) == 2048;
    assert Pow2(12) == 4096;
    if f.source == 1 {
      SourceShifts(f);
    }
    e := if f.source == 1 then 12 - f.hsidiv else if f.source == 2 then 8 else 6;
  }

  lemma SourceShifts(f: Fields)
    requires f.Valid() && f.source == 1
    ensures f.Source() == if f.hsidiv == 0 then 64000000 else if f.hsidiv == 1 then 32000000
                          else if f.hsidiv == 2 then 16000000 else 8000000
  {
    if f.hsidiv == 3 {
      assert Shift(HSI_VALUE, 3) == Shift(32000000, 2);
    }
  }

  /** Without a fraction, and with divider m = d * 2^i and last divider 2^j, where d divides the odd part c * d
      of the source frequency, the clock is the exact integer quotient if c * (n + 1) has at most 24 bits. */
  lemma ClockIsExact(f: Fields, c: nat, d: nat, i: nat, j: nat)
    requires f.Valid() && f.sws == 0x18 && f.source != 0 && f.Fraction() == 0
    requires f.m == d * Pow2(i) && f.m > 0 && f.Divider() == Pow2(j)
    requires c * d == OddPart(f) && c * (f.n + 1) < 16777216
    ensures ClockIsQuotient(f)
  {
    var e := SourceParts(f);
    PowerOfThirteen();
    AtMost(c, f.n);
    hide Pow2, Fields.Source, Sysclk, Prescaler, ClockIsQuotient;
    SourceOverM(f.Source(), c, d, Pow2(e), Pow2(i), f.m);
    DyadicClockIsExact(f, c, e, i, f.n + 1, 13, j);
  }

  lemma PowerOfThirteen()
    ensures Pow2(13) == 8192
  {
    assert Pow2(4) == 16;
    assert Pow2(8) == 256;
  }

  lemma AtMost(c: nat, n: nat)
    ensures c <= c * (n + 1)
  {
  }

  lemma SourceOverM(s: nat, c: nat, d: nat, e: nat, i: nat, m: nat)
    requires s == c * d * e && m == d * i
    ensures s * i == c * e * m
  {
    Rearranged(c, d, e, i);
  }

  lemma Rearranged(c: nat, d: nat, e: nat, i: nat)
    ensures c * d * e * i == c * e * (d * i)
  {
  }

  /** From the internal oscillators, with dividers that are powers of two and no fraction, every multiplier
      gives the exact clock. */
  lemma InternalClockIsExact(f: Fields, i: nat, j: nat)
    requires f.Valid() && f.sws == 0x18 && (f.source == 1 || f.source == 2) && f.Fraction() == 0
    requires f.m == Pow2(i) && f.Divider() == Pow2(j)
    ensures ClockIsQuotient(f)
  {
    ClockIsExact(f, 15625, 1, i, j);
  }

  lemma OverOf8192(x: real)
    requires x >= 0.0
    ensures Over(x, 8192.0) >= 0.0 && Representable(Over(x, 8192.0)) == Representable(x)
  {
    Over8192(x);
  }

  lemma RoundHere(x: real)
    requires LOW <= x < HIGH
    ensures Round(x) == RoundEven(x) as real
  {
  }

  lemma SeventhOfHsi(x: real, q: real)
    requires x == 64000000.0 && q == 7.0
    ensures FloatDiv(x, q) == 9142857.0
  {
    RoundHere(x / q);
    assert RoundEven(x / q) == 9142857;
  }

  lemma TimesTen(x: real, c: real)
    requires x == 9142857.0 && c == 10.0
    ensures FloatMul(x, c) == 91428568.0
  {
    var y := x * c / 8.0;
    RoundHere(y);
    assert RoundEven(y) == 11428571;
    hide Round;
    Halves(x * c);
    Halves(x * c / 2.0);
    Halves(x * c / 4.0);
    assert y == x * c / 2.0 / 2.0 / 2.0;
    assert x * c / 4.0 == x * c / 2.0 / 2.0;
    assert x * c / 8.0 == x * c / 4.0 / 2.0;
  }

  lemma OverOne(x: real, c: real)
    requires x == 91428568.0 && c == 1.0
    ensures FloatDiv(x, c) == 91428568.0
  {
    var y := x / 8.0;
    RoundHere(y);
    assert RoundEven(y) == 11428571;
    assert x / c == x;
    Halves(x);
    Halves(x / 2.0);
    Halves(x / 4.0);
  }

  /** The error is real: with the internal oscillator divided by 7 and multiplied by 10, the clock is
      three hertz below the exact quotient. */
  lemma FloatIsInexact(f: Fields)
    requires f.Valid() && f.sws == 0x18 && f.source == 1 && f.hsidiv == 0
    requires f.m == 7 && f.n == 9 && !f.fracEnabled && f.p == 0
    ensures Sysclk(f) == 91428568
    ensures f.Source() * f.Multiplier() / (8192 * f.m * f.Divider()) == 91428571
  {
    ThreeRoundings(f);
    SeventhOfHsi(64000000.0, 7.0);
    TimesTen(9142857.0, 10.0);
    OverOne(91428568.0, 1.0);
    hide FloatMul, FloatDiv, Vco;
    assert f.Source() == 64000000 && f.Multiplier() as real / 8192.0 == 10.0;
  }
}
