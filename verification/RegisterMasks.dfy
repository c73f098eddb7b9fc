/** What the register access macros compute: some bits of a register cleared, and then some bits set. */
module RegisterMasks {
  function Masked32(v: bv32, clear: bv32, bits: bv32): bv32 {
    (v & !clear) | bits
  }

  function Masked16(v: bv16, clear: bv16, bits: bv16): bv16 {
    (v & !clear) | bits
  }

  /** Masks that do not meet: what one clears or sets the other leaves alone. */
  lemma Apartness32(a: bv32, b: bv32, c: bv32, d: bv32)
    requires (a | b) & (c | d) == 0
    ensures b & c == 0 && d & a == 0
  {
  }

  lemma Apartness16(a: bv16, b: bv16, c: bv16, d: bv16)
    requires (a | b) & (c | d) == 0
    ensures b & c == 0 && d & a == 0
  {
  }

  lemma TwiceBits32(v: bv32, c1: bv32, s1: bv32, c2: bv32, s2: bv32)
    requires s1 & c2 == 0
    ensures Masked32(Masked32(v, c1, s1), c2, s2) == (v & !(c1 | c2)) | (s1 | s2)
  {
  }

  /** Two modifications amount to one, unless the second clears what the first sets. */
  lemma Twice32(v: bv32, c1: bv32, s1: bv32, c2: bv32, s2: bv32)
    requires s1 & c2 == 0
    ensures Masked32(Masked32(v, c1, s1), c2, s2) == Masked32(v, c1 | c2, s1 | s2)
  {
    TwiceBits32(v, c1, s1, c2, s2);
  }

  lemma MasksCommute32(v: bv32, c1: bv32, s1: bv32, c2: bv32, s2: bv32)
    requires s1 & c2 == 0 && s2 & c1 == 0
    ensures Masked32(Masked32(v, c1, s1), c2, s2) == Masked32(Masked32(v, c2, s2), c1, s1)
  {
    hide Masked32;
    Twice32(v, c1, s1, c2, s2);
    Twice32(v, c2, s2, c1, s1);
    assert c1 | c2 == c2 | c1;
    assert s1 | s2 == s2 | s1;
  }

  lemma TwiceBits16(v: bv16, c1: bv16, s1: bv16, c2: bv16, s2: bv16)
    requires s1 & c2 == 0
    ensures Masked16(Masked16(v, c1, s1), c2, s2) == (v & !(c1 | c2)) | (s1 | s2)
  {
  }

  /** Two modifications amount to one, unless the second clears what the first sets. */
  lemma Twice16(v: bv16, c1: bv16, s1: bv16, c2: bv16, s2: bv16)
    requires s1 & c2 == 0
    ensures Masked16(Masked16(v, c1, s1), c2, s2) == Masked16(v, c1 | c2, s1 | s2)
  {
    TwiceBits16(v, c1, s1, c2, s2);
  }

  lemma MasksCommute16(v: bv16, c1: bv16, s1: bv16, c2: bv16, s2: bv16)
    requires s1 & c2 == 0 && s2 & c1 == 0
    ensures Masked16(Masked16(v, c1, s1), c2, s2) == Masked16(Masked16(v, c2, s2), c1, s1)
  {
    hide Masked16;
    Twice16(v, c1, s1, c2, s2);
    Twice16(v, c2, s2, c1, s1);
    assert c1 | c2 == c2 | c1;
    assert s1 | s2 == s2 | s1;
  }

  /** Setting bits, and clearing bits, are modifications. */
  lemma SetIsMasked32(v: bv32, bits: bv32)
    ensures Masked32(v, 0, bits) == v | bits
  {
  }

  lemma ClearIsMasked32(v: bv32, bits: bv32)
    ensures Masked32(v, bits, 0) == v & !bits
  {
  }

  /** Setting bits, and clearing bits, are modifications. */
  lemma SetIsMasked16(v: bv16, bits: bv16)
    ensures Masked16(v, 0, bits) == v | bits
  {
  }

  lemma ClearIsMasked16(v: bv16, bits: bv16)
    ensures Masked16(v, bits, 0) == v & !bits
  {
  }

  lemma ModifyIsMasked32(v: bv32, clear: bv32, bits: bv32)
    ensures Masked32(v, clear, bits) == (v & !clear) | bits
  {
  }

  lemma ModifyIsMasked16(v: bv16, clear: bv16, bits: bv16)
    ensures Masked16(v, clear, bits) == (v & !clear) | bits
  {
  }

  lemma SetBitsAreSet32(v: bv32, clear: bv32, bits: bv32)
    ensures Masked32(v, clear, bits) & bits == bits
  {
  }

  lemma ClearedBitsAreClear32(v: bv32, clear: bv32, bits: bv32)
    ensures Masked32(v, clear, bits) & clear & !bits == 0
  {
  }

  lemma OtherBitsAreKept32(v: bv32, clear: bv32, bits: bv32)
    ensures Masked32(v, clear, bits) & !(clear | bits) == v & !(clear | bits)
  {
  }

  lemma SetBitsAreSet16(v: bv16, clear: bv16, bits: bv16)
    ensures Masked16(v, clear, bits) & bits == bits
  {
  }

  lemma ClearedBitsAreClear16(v: bv16, clear: bv16, bits: bv16)
    ensures Masked16(v, clear, bits) & clear & !bits == 0
  {
  }

  lemma OtherBitsAreKept16(v: bv16, clear: bv16, bits: bv16)
    ensures Masked16(v, clear, bits) & !(clear | bits) == v & !(clear | bits)
  {
  }

  /** What a modification of `v` through two masks is, bit by bit: the bits to set are set, the others to
      clear are clear, and no other bit changes. */
  predicate Modifies32(v: bv32, w: bv32, clear: bv32, bits: bv32) {
    w & bits == bits && w & clear & !bits == 0 && w & !(clear | bits) == v & !(clear | bits)
  }

  lemma OnlyBitsModify32(v: bv32, w: bv32, clear: bv32, bits: bv32)
    requires Modifies32(v, w, clear, bits)
    ensures w == (v & !clear) | bits
  {
  }

  lemma OnlyMaskedModifies32(v: bv32, w: bv32, clear: bv32, bits: bv32)
    requires Modifies32(v, w, clear, bits)
    ensures w == Masked32(v, clear, bits)
  {
    OnlyBitsModify32(v, w, clear, bits);
    hide Modifies32;
  }

  lemma MaskedIsModified32(v: bv32, clear: bv32, bits: bv32)
    ensures Modifies32(v, Masked32(v, clear, bits), clear, bits)
  {
    SetBitsAreSet32(v, clear, bits);
    ClearedBitsAreClear32(v, clear, bits);
    OtherBitsAreKept32(v, clear, bits);
    hide Masked32;
  }

  /** One value is such a modification, and it is the one the macros compute. */
  lemma MaskedModifies32(v: bv32, w: bv32, clear: bv32, bits: bv32)
    ensures Modifies32(v, w, clear, bits) <==> w == Masked32(v, clear, bits)
  {
    hide Masked32, Modifies32;
    MaskedIsModified32(v, clear, bits);
    if Modifies32(v, w, clear, bits) {
      OnlyMaskedModifies32(v, w, clear, bits);
    }
  }

  /** What a modification of `v` through two masks is, bit by bit: the bits to set are set, the others to
      clear are clear, and no other bit changes. */
  predicate Modifies16(v: bv16, w: bv16, clear: bv16, bits: bv16) {
    w & bits == bits && w & clear & !bits == 0 && w & !(clear | bits) == v & !(clear | bits)
  }

  lemma OnlyBitsModify16(v: bv16, w: bv16, clear: bv16, bits: bv16)
    requires Modifies16(v, w, clear, bits)
    ensures w == (v & !clear) | bits
  {
  }

  lemma OnlyMaskedModifies16(v: bv16, w: bv16, clear: bv16, bits: bv16)
    requires Modifies16(v, w, clear, bits)
    ensures w == Masked16(v, clear, bits)
  {
    OnlyBitsModify16(v, w, clear, bits);
    hide Modifies16;
  }

  lemma MaskedIsModified16(v: bv16, clear: bv16, bits: bv16)
    ensures Modifies16(v, Masked16(v, clear, bits), clear, bits)
  {
    SetBitsAreSet16(v, clear, bits);
    ClearedBitsAreClear16(v, clear, bits);
    OtherBitsAreKept16(v, clear, bits);
    hide Masked16;
  }

  /** One value is such a modification, and it is the one the macros compute. */
  lemma MaskedModifies16(v: bv16, w: bv16, clear: bv16, bits: bv16)
    ensures Modifies16(v, w, clear, bits) <==> w == Masked16(v, clear, bits)
  {
    hide Masked16, Modifies16;
    MaskedIsModified16(v, clear, bits);
    if Modifies16(v, w, clear, bits) {
      OnlyMaskedModifies16(v, w, clear, bits);
    }
  }

  lemma MeetsOfBits32(v: bv32, clear: bv32, bits: bv32, m: bv32)
    ensures ((v & !clear) | bits) & m == ((v & m) & !clear) | (bits & m)
  {
  }

  lemma MeetsOf32(v: bv32, clear: bv32, bits: bv32, m: bv32)
    ensures Masked32(v, clear, bits) & m == ((v & m) & !clear) | (bits & m)
  {
    MeetsOfBits32(v, clear, bits, m);
  }

  /** What a modification leaves in the bits of `m` depends on those bits only. */
  lemma SameMeets32(v: bv32, w: bv32, clear: bv32, bits: bv32, m: bv32)
    requires v & m == w & m
    ensures Masked32(v, clear, bits) & m == Masked32(w, clear, bits) & m
  {
    hide Masked32;
    MeetsOf32(v, clear, bits, m);
    MeetsOf32(w, clear, bits, m);
  }

  lemma ApartMeets32(clear: bv32, bits: bv32, mask: bv32, m: bv32)
    requires (clear | bits) & !mask == 0 && mask & m == 0
    ensures clear & m == 0 && bits & m == 0
  {
  }

  lemma KeptMeets32(v: bv32, clear: bv32, bits: bv32, m: bv32)
    requires clear & m == 0 && bits & m == 0
    ensures ((v & !clear) | bits) & m == v & m
  {
  }

  /** A modification within `mask` leaves the bits of `m` alone. */
  lemma OutsideMask32(v: bv32, clear: bv32, bits: bv32, mask: bv32, m: bv32)
    requires (clear | bits) & !mask == 0 && mask & m == 0
    ensures Masked32(v, clear, bits) & m == v & m
  {
    ApartMeets32(clear, bits, mask, m);
    KeptMeets32(v, clear, bits, m);
  }

  lemma MeetsOfBits16(v: bv16, clear: bv16, bits: bv16, m: bv16)
    ensures ((v & !clear) | bits) & m == ((v & m) & !clear) | (bits & m)
  {
  }

  lemma MeetsOf16(v: bv16, clear: bv16, bits: bv16, m: bv16)
    ensures Masked16(v, clear, bits) & m == ((v & m) & !clear) | (bits & m)
  {
    MeetsOfBits16(v, clear, bits, m);
  }

  /** What a modification leaves in the bits of `m` depends on those bits only. */
  lemma SameMeets16(v: bv16, w: bv16, clear: bv16, bits: bv16, m: bv16)
    requires v & m == w & m
    ensures Masked16(v, clear, bits) & m == Masked16(w, clear, bits) & m
  {
    hide Masked16;
    MeetsOf16(v, clear, bits, m);
    MeetsOf16(w, clear, bits, m);
  }

  lemma ApartMeets16(clear: bv16, bits: bv16, mask: bv16, m: bv16)
    requires (clear | bits) & !mask == 0 && mask & m == 0
    ensures clear & m == 0 && bits & m == 0
  {
  }

  lemma KeptMeets16(v: bv16, clear: bv16, bits: bv16, m: bv16)
    requires clear & m == 0 && bits & m == 0
    ensures ((v & !clear) | bits) & m == v & m
  {
  }

  /** A modification within `mask` leaves the bits of `m` alone. */
  lemma OutsideMask16(v: bv16, clear: bv16, bits: bv16, mask: bv16, m: bv16)
    requires (clear | bits) & !mask == 0 && mask & m == 0
    ensures Masked16(v, clear, bits) & m == v & m
  {
    ApartMeets16(clear, bits, mask, m);
    KeptMeets16(v, clear, bits, m);
  }
}
