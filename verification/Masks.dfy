/** Bit masks as the C code uses them, on natural numbers: the value of a bit, the
    population count, the count of trailing zeros, and the clearing of one bit. */
module Masks {

  /** Bit `i` of `mask`, that is `(mask >> i) & 1`. */
  predicate Bit(mask: nat, i: nat) {
    if i == 0 then mask % 2 == 1 else Bit(mask / 2, i - 1)
  }

  /** `__builtin_popcount`. */
  function PopCount(mask: nat): (n: nat)
    ensures n <= mask
  {
    if mask == 0 then 0 else mask % 2 + PopCount(mask / 2)
  }

  /** `__builtin_ctz`, which is undefined on 0. */
  function TrailingZeros(mask: nat): (t: nat)
    requires mask != 0
    ensures Bit(mask, t)
    ensures forall i: nat :: i < t ==> !Bit(mask, i)
  {
    if mask % 2 == 1 then 0 else 1 + TrailingZeros(mask / 2)
  }

  /** `mask & ~(1U << t)`. */
  function ClearBit(mask: nat, t: nat): (r: nat)
    ensures forall i: nat :: Bit(r, i) <==> Bit(mask, i) && i != t
  {
    var r := if t == 0 then mask - mask % 2 else 2 * ClearBit(mask / 2, t - 1) + mask % 2;
    assert forall i: nat :: i != 0 ==> Bit(r, i) == Bit(r / 2, i - 1);
    assert forall i: nat :: i != 0 ==> Bit(mask, i) == Bit(mask / 2, i - 1);
    r
  }

  /** The positions of the set bits of `mask`, offset by `base`, in ascending order. */
  function BitList(mask: nat, base: nat): seq<nat> {
    if mask == 0 then [] else (if mask % 2 == 1 then [base] else []) + BitList(mask / 2, base + 1)
  }

  function Elements(xs: seq<nat>): set<nat> {
    set x | x in xs
  }

  /** The set of positions of the set bits of `mask`. */
  function Bits(mask: nat): set<nat> {
    Elements(BitList(mask, 0))
  }

  lemma {:induction false} NoBitsInZero(i: nat)
    ensures !Bit(0, i)
  {
    if i != 0 {
      NoBitsInZero(i - 1);
    }
  }

  lemma {:induction false} BitListIsSorted(mask: nat, base: nat)
    ensures |BitList(mask, base)| == PopCount(mask)
    ensures forall k :: 0 <= k < |BitList(mask, base)| ==> base <= BitList(mask, base)[k]
    ensures forall j, k :: 0 <= j < k < |BitList(mask, base)| ==> BitList(mask, base)[j] < BitList(mask, base)[k]
  {
    if mask != 0 {
      BitListIsSorted(mask / 2, base + 1);
    }
  }

  lemma {:induction false} BitListMembers(mask: nat, base: nat, i: nat)
    ensures base + i in BitList(mask, base) <==> Bit(mask, i)
  {
    if mask == 0 {
      NoBitsInZero(i);
    } else {
      var first, rest := if mask % 2 == 1 then [base] else [], BitList(mask / 2, base + 1);
      assert BitList(mask, base) == first + rest;
      InEither(base + i, first, rest);
      BitListIsSorted(mask / 2, base + 1);
      hide BitList;
      if i != 0 {
        BitListMembers(mask / 2, base + 1, i - 1);
      }
    }
  }

  lemma InEither(x: nat, xs: seq<nat>, ys: seq<nat>)
    ensures x in xs + ys <==> x in xs || x in ys
  {
  }

  /** A set of distinct sequence elements has as many elements as the sequence. */
  lemma {:induction false} DistinctCardinality(xs: seq<nat>)
    requires forall j, k :: 0 <= j < k < |xs| ==> xs[j] != xs[k]
    ensures |Elements(xs)| == |xs|
  {
    if xs != [] {
      DistinctCardinality(xs[1..]);
      assert Elements(xs) == {xs[0]} + Elements(xs[1..]);
    }
  }

  /** `Bits` is the set reading of the mask, and `__builtin_popcount` is its size. */
  lemma BitsAreTheSetBits(mask: nat)
    ensures forall i: nat :: i in Bits(mask) <==> Bit(mask, i)
    ensures |Bits(mask)| == PopCount(mask)
    ensures mask != 0 ==> Bits(mask) != {}
  {
    forall i: nat ensures i in Bits(mask) <==> Bit(mask, i) {
      BitListMembers(mask, 0, i);
    }
    BitListIsSorted(mask, 0);
    DistinctCardinality(BitList(mask, 0));
    if mask != 0 {
      assert Bit(mask, TrailingZeros(mask));
    }
  }

  /** Clearing the lowest set bit drops the head of the bit list. */
  lemma {:induction false} LowestBitIsHead(mask: nat, base: nat)
    requires mask != 0
    ensures BitList(mask, base) == [base + TrailingZeros(mask)] + BitList(ClearBit(mask, TrailingZeros(mask)), base)
  {
    if mask % 2 == 0 {
      var t := TrailingZeros(mask / 2);
      LowestBitIsHead(mask / 2, base + 1);
      assert ClearBit(mask, t + 1) / 2 == ClearBit(mask / 2, t);
    } else {
      assert ClearBit(mask, 0) / 2 == mask / 2;
    }
  }

  /** A mask is below a power of two exactly when none of its bits is at or above the exponent. */
  lemma {:induction false} BoundedMask(mask: nat, width: nat)
    ensures mask < Power(width) <==> HighestBitBelow(mask, width)
  {
    if mask == 0 {
      forall i: nat ensures !Bit(mask, i) {
        NoBitsInZero(i);
      }
    } else if width == 0 {
      assert Bit(mask, TrailingZeros(mask));
    } else {
      BoundedMask(mask / 2, width - 1);
      if HighestBitBelow(mask, width) {
        forall i: nat | Bit(mask / 2, i) ensures i < width - 1 {
          assert Bit(mask, i + 1);
        }
      }
      if HighestBitBelow(mask / 2, width - 1) {
        forall i: nat | Bit(mask, i) ensures i < width {
          assert i == 0 || Bit(mask / 2, i - 1);
        }
      }
    }
  }

  ghost predicate HighestBitBelow(mask: nat, width: nat) {
    forall i: nat :: Bit(mask, i) ==> i < width
  }

  /** 2 to the power `n`. */
  function Power(n: nat): (p: nat)
    ensures p > 0
  {
    if n == 0 then 1 else 2 * Power(n - 1)
  }
}
