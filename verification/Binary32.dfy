/** Rounding to binary32 as in section 4.3.1 of IEEE 754-2008: to the nearest value with a 24-bit
    significand, and to the one with an even significand when two are equally near. The exponent is
    not bounded. */
module Binary32 {
  const LOW := 8388608.0   // 2^23
  const HIGH := 16777216.0 // 2^24

  function Abs(x: real): real {
    if x < 0.0 then -x else x
  }

  /** The nearest integer, and the even one of two. */
  function RoundEven(x: real): (n: int)
    ensures Abs(n as real - x) <= 0.5
    ensures Abs(n as real - x) == 0.5 ==> n % 2 == 0
  {
    var f := x.Floor;
    var rest := x - f as real;
    if rest < 0.5 || (rest == 0.5 && f % 2 == 0) then f else f + 1
  }

  /** How far `x` is above and below the range in which binary32 values are the integers. */
  function Above(x: real): nat
    requires x >= 0.0
  {
    if x >= HIGH then x.Floor else 0
  }

  function Below(x: real): nat
    requires x >= 0.0
  {
    if 0.0 < x < LOW then (LOW / x).Floor else 0
  }

  lemma Halve(x: real)
    requires x >= HIGH
    ensures Above(x / 2.0) < Above(x)
  {
  }

  lemma Double(x: real)
    requires 0.0 < x < LOW
    ensures Above(2.0 * x) == 0 && Below(2.0 * x) < Below(x)
  {
    var y := LOW / x;
    assert y > 1.0;
    assert LOW / (2.0 * x) == y / 2.0;
  }

  /** Round to binary32. */
  function Round(x: real): (y: real)
    requires x >= 0.0
    ensures y >= 0.0
    decreases Above(x), Below(x)
  {
    if x >= HIGH then Halve(x); 2.0 * Round(x / 2.0)
    else if 0.0 < x < LOW then Double(x); Round(2.0 * x) / 2.0
    else RoundEven(x) as real
  }

  /** A binary32 value: scaled by a power of two to lie between 2^23 and 2^24 it is an integer. */
  predicate Representable(x: real)
    requires x >= 0.0
    decreases Above(x), Below(x)
  {
    if x >= HIGH then Halve(x); Representable(x / 2.0)
    else if 0.0 < x < LOW then Double(x); Representable(2.0 * x)
    else x == x.Floor as real
  }

  /** The significand of a binary32 value is even. */
  predicate Even(x: real)
    requires x >= 0.0
    decreases Above(x), Below(x)
  {
    if x >= HIGH then Halve(x); Even(x / 2.0)
    else if 0.0 < x < LOW then Double(x); Even(2.0 * x)
    else x.Floor % 2 == 0
  }

  /** Scaling by two changes none of this. */
  lemma Scales(x: real)
    requires x >= 0.0
    ensures Round(2.0 * x) == 2.0 * Round(x)
    ensures Representable(2.0 * x) == Representable(x)
    ensures Even(2.0 * x) == Even(x)
  {
    if x >= LOW {
      assert 2.0 * x / 2.0 == x;
    }
  }

  lemma Halves(x: real)
    requires x >= 0.0
    ensures Round(x) == 2.0 * Round(x / 2.0)
    ensures Representable(x) == Representable(x / 2.0)
    ensures Even(x) == Even(x / 2.0)
  {
    hide Round, Representable, Even;
    Scales(x / 2.0);
    assert 2.0 * (x / 2.0) == x;
  }

  /** Rounding in the range where it is rounding to an integer. */
  lemma RoundInRange(x: real)
    requires LOW <= x < HIGH
    ensures LOW <= Round(x) <= HIGH && Abs(Round(x) - x) <= 0.5 && Round(x) == Round(x).Floor as real
    ensures Representable(Round(x))
    ensures Abs(Round(x) - x) == 0.5 ==> Even(Round(x))
  {
    assert Round(x) == RoundEven(x) as real;
    hide Round, Representable, Even;
    AtHigh();
    if RoundEven(x) < 16777216 {
      BelowHigh(RoundEven(x));
    }
  }

  lemma BelowHigh(n: int)
    requires 8388608 <= n < 16777216
    ensures Representable(n as real) && (n % 2 == 0 ==> Even(n as real))
  {
  }

  lemma AtHigh()
    ensures Representable(HIGH) && Even(HIGH)
  {
    BelowHigh(8388608);
    Halves(HIGH);
  }

  /** Rounding yields a binary32 value. */
  lemma {:induction false} RoundIsRepresentable(x: real)
    requires x >= 0.0
    ensures Representable(Round(x))
    decreases Above(x), Below(x)
  {
    if x >= HIGH {
      Halve(x);
      Halves(x);
      hide Round, Representable, Even;
      RoundIsRepresentable(x / 2.0);
      Scales(Round(x / 2.0));
    } else if 0.0 < x < LOW {
      Double(x);
      Scales(x);
      hide Round, Representable, Even;
      RoundIsRepresentable(2.0 * x);
      Scales(Round(x));
    } else if x >= LOW {
      RoundInRange(x);
    }
  }

  /** A binary32 value that is not between LOW and HIGH, or is an integer. */
  lemma RepresentableInRange(y: real)
    requires y >= 0.0 && Representable(y)
    ensures LOW <= y < HIGH ==> y == y.Floor as real
  {
  }

  lemma NearestInRange(x: real, y: real)
    requires LOW <= x < HIGH && y >= 0.0 && Representable(y)
    ensures Abs(Round(x) - x) <= Abs(y - x)
    ensures Abs(Round(x) - x) == Abs(y - x) && y != Round(x) ==> Even(Round(x))
  {
    RoundInRange(x);
    RepresentableInRange(y);
    hide Round, Representable, Even;
    var r, n := Round(x).Floor, y.Floor;
    if LOW <= y < HIGH {
      NearestInteger(x, r, n);
    } else if y >= HIGH {
      NearestInteger(x, r, 16777216);
    } else {
      NearestInteger(x, r, 8388608);
    }
  }

  lemma NearestInteger(x: real, r: int, n: int)
    requires Abs(r as real - x) <= 0.5
    ensures Abs(r as real - x) <= Abs(n as real - x)
    ensures n != r && Abs(r as real - x) == Abs(n as real - x) ==> Abs(r as real - x) == 0.5
  {
  }

  /** `y` is not nearer to `x` than what `x` rounds to, and if it is as near, the latter is even. */
  predicate NotNearer(x: real, y: real)
    requires x >= 0.0 && y >= 0.0
  {
    && Abs(Round(x) - x) <= Abs(y - x)
    && (Abs(Round(x) - x) == Abs(y - x) && y != Round(x) ==> Even(Round(x)))
  }

  lemma NotNearerScales(x: real, y: real)
    requires x >= 0.0 && y >= 0.0
    ensures NotNearer(2.0 * x, 2.0 * y) == NotNearer(x, y)
  {
    hide Round, Even;
    Scales(x);
    Scales(Round(x));
  }

  /** No binary32 value is nearer, and of two that are equally near, the even one is taken. */
  lemma {:induction false} RoundIsNearest(x: real, y: real)
    requires x >= 0.0 && y >= 0.0 && Representable(y)
    ensures Abs(Round(x) - x) <= Abs(y - x)
    ensures Abs(Round(x) - x) == Abs(y - x) && y != Round(x) ==> Even(Round(x))
    decreases Above(x), Below(x)
  {
    if x >= HIGH {
      Halve(x);
      hide Round, Representable, Even;
      Halves(y);
      RoundIsNearest(x / 2.0, y / 2.0);
      NotNearerScales(x / 2.0, y / 2.0);
      assert 2.0 * (x / 2.0) == x && 2.0 * (y / 2.0) == y;
    } else if 0.0 < x < LOW {
      Double(x);
      hide Round, Representable, Even;
      Scales(y);
      RoundIsNearest(2.0 * x, 2.0 * y);
      NotNearerScales(x, y);
    } else if x >= LOW {
      hide Round, Representable, Even;
      NearestInRange(x, y);
    }
  }

  /** A binary32 value rounds to itself. */
  lemma RoundIsExact(x: real)
    requires x >= 0.0 && Representable(x)
    ensures Round(x) == x
  {
    RoundIsNearest(x, x);
  }

  /** Rounding changes a value by at most 2^-24 of it. */
  lemma {:induction false} RelativeBound(x: real)
    requires x >= 0.0
    ensures Abs(Round(x) - x) * HIGH <= x
    decreases Above(x), Below(x)
  {
    if x >= HIGH {
      Halve(x);
      RelativeBound(x / 2.0);
    } else if 0.0 < x < LOW {
      Double(x);
      RelativeBound(2.0 * x);
    }
  }

  /** Integers of up to 24 bits are binary32 values. */
  lemma {:induction false} SmallIntegers(n: nat)
    requires n < 16777216
    ensures Representable(n as real)
    decreases 16777216 - n
  {
    if 0 < n < 8388608 {
      Double(n as real);
      SmallIntegers(2 * n);
    }
  }

  /** y * 2^e */
  function Scaled(y: real, e: int): real
    decreases if e < 0 then -e else e
  {
    if e > 0 then Scaled(2.0 * y, e - 1) else if e < 0 then Scaled(y / 2.0, e + 1) else y
  }

  lemma {:induction false} ScaledTwice(y: real, e: int)
    ensures Scaled(2.0 * y, e) == 2.0 * Scaled(y, e) == Scaled(y, e + 1)
    decreases if e < 0 then -e else e
  {
    if e > 0 {
      ScaledTwice(2.0 * y, e - 1);
    } else if e < 0 {
      ScaledTwice(y / 2.0, e + 1);
      assert 2.0 * (y / 2.0) == 2.0 * y / 2.0 == y;
    }
  }

  lemma {:induction false} ScaledKeeps(y: real, e: int)
    requires y >= 0.0
    ensures Scaled(y, e) >= 0.0 && Representable(Scaled(y, e)) == Representable(y)
    decreases if e < 0 then -e else e
  {
    hide Representable;
    if e > 0 {
      Scales(y);
      ScaledKeeps(2.0 * y, e - 1);
    } else if e < 0 {
      Halves(y);
      ScaledKeeps(y / 2.0, e + 1);
    }
  }

  lemma {:induction false} Significand(x: real) returns (n: nat, e: int)
    requires x >= 0.0 && Representable(x)
    ensures n < 16777216 && x == Scaled(n as real, e)
    decreases Above(x), Below(x)
  {
    if x >= HIGH {
      Halve(x);
      n, e := Significand(x / 2.0);
      ScaledTwice(n as real, e);
      e := e + 1;
    } else if 0.0 < x < LOW {
      Double(x);
      n, e := Significand(2.0 * x);
      e := e - 1;
      ScaledTwice(n as real, e);
    } else {
      n, e := x.Floor, 0;
    }
  }

  predicate HasSignificand(x: real, n: nat, e: int) {
    n < 16777216 && x == Scaled(n as real, e)
  }

  /** The binary32 values are the numbers n * 2^e whose significand n has at most 24 bits. */
  lemma RepresentableMeans(x: real)
    requires x >= 0.0
    ensures Representable(x) <==> exists n: nat, e :: HasSignificand(x, n, e)
  {
    if Representable(x) {
      var n, e := Significand(x);
      assert HasSignificand(x, n, e);
    }
    forall n: nat, e | HasSignificand(x, n, e) ensures Representable(x) {
      SmallIntegers(n);
      ScaledKeeps(n as real, e);
    }
  }
}
