/** The retry loops of the atomic register macros, and the plain macros, as the program runs them on a
    register that others write to as well. */
module RetryLoops {
  import opened RegisterMasks

  /** What the rest of the machine does to a register during one attempt of a retry loop: the values it
      writes before the attempt's load, the values it writes between the load and the store, and whether
      the store fails for no reason. */
  datatype Turn<W> = Turn(before: seq<W>, between: seq<W>, spurious: bool) {
    /** Nothing stands in the way of the store. */
    predicate Quiet() {
      between == [] && !spurious
    }
  }

  /** The register after some writes by others. */
  function Left<W>(x: W, writes: seq<W>): W {
    if writes == [] then x else writes[|writes| - 1]
  }

  /** The attempt that succeeds: the first one that is left in peace. */
  function Winner<W>(turns: seq<Turn<W>>): (n: nat)
    ensures n <= |turns|
  {
    if turns == [] || turns[0].Quiet() then 0 else 1 + Winner(turns[1..])
  }

  /** The register after everything the others write in some turns. */
  function Passed<W>(x: W, turns: seq<Turn<W>>): W
    decreases |turns|
  {
    if turns == [] then x else Passed(Left(Left(x, turns[0].before), turns[0].between), turns[1..])
  }

  /** What the others write before the winning store is all that they write up to it. */
  function AtStore<W>(x: W, turns: seq<Turn<W>>): W {
    var n := Winner(turns);
    var y := Passed(x, turns[..n]);
    if n < |turns| then Left(y, turns[n].before) else y
  }

  /** The turns that are still to come once the store has succeeded. */
  function Rest<W>(turns: seq<Turn<W>>): seq<Turn<W>> {
    if Winner(turns) < |turns| then turns[Winner(turns) + 1..] else []
  }

  lemma {:induction false} WinnerInRange<W>(turns: seq<Turn<W>>)
    ensures forall i :: 0 <= i < Winner(turns) ==> !turns[i].Quiet()
    ensures Winner(turns) < |turns| ==> turns[Winner(turns)].Quiet()
    decreases |turns|
  {
    if turns != [] && !turns[0].Quiet() {
      WinnerInRange(turns[1..]);
      forall i | 0 <= i < Winner(turns) ensures !turns[i].Quiet() {
        assert i > 0 ==> turns[i] == turns[1..][i - 1];
      }
    }
  }

  /** Everything the others write in some turns, in order. */
  function Writes<W>(turns: seq<Turn<W>>): seq<W>
    decreases |turns|
  {
    if turns == [] then [] else turns[0].before + turns[0].between + Writes(turns[1..])
  }

  lemma LeftInTwo<W>(x: W, p: seq<W>, q: seq<W>)
    ensures Left(Left(x, p), q) == Left(x, p + q)
  {
  }

  lemma {:induction false} PassedIsLast<W>(x: W, turns: seq<Turn<W>>)
    ensures Passed(x, turns) == Left(x, Writes(turns))
    decreases |turns|
  {
    if turns != [] {
      var p, q := turns[0].before, turns[0].between;
      PassedIsLast(Left(Left(x, p), q), turns[1..]);
      LeftInTwo(x, p, q);
      LeftInTwo(x, p + q, Writes(turns[1..]));
    }
  }

  /** The winning attempt loads the last value that anybody wrote before: no write of the others is lost. */
  lemma AtStoreIsLastWrite<W>(x: W, turns: seq<Turn<W>>)
    ensures var n := Winner(turns);
            var writes := Writes(turns[..n]) + if n < |turns| then turns[n].before else [];
            AtStore(x, turns) == if writes == [] then x else writes[|writes| - 1]
  {
    var n := Winner(turns);
    PassedIsLast(x, turns[..n]);
    if n < |turns| {
      LeftInTwo(x, Writes(turns[..n]), turns[n].before);
    }
  }

  /** An attempt that fails leaves the rest of the history to the next one. */
  lemma FailedAttempt<W>(x: W, turns: seq<Turn<W>>)
    requires turns != [] && !turns[0].Quiet()
    ensures AtStore(x, turns) == AtStore(Left(Left(x, turns[0].before), turns[0].between), turns[1..])
    ensures Rest(turns) == Rest(turns[1..])
  {
    WinnerInRange(turns);
    WinnerInRange(turns[1..]);
    var n := Winner(turns);
    assert turns[..n][1..] == turns[1..][..n - 1] && turns[..n][0] == turns[0];
    assert n < |turns| ==> turns[n] == turns[1..][n - 1] && turns[n + 1..] == turns[1..][n..];
  }

  /** A register, this processor's reservation on it, and what the rest of the machine will do to it. */
  class Register<W(==)> {
    var value: W
    var reserved: bool
    var turns: seq<Turn<W>>

    constructor (value: W, turns: seq<Turn<W>>)
      ensures this.value == value && this.turns == turns && !reserved
    {
      this.value, this.turns, reserved := value, turns, false;
    }

    /** LDREX */
    method LoadExclusive() returns (v: W)
      modifies this
      ensures v == value == if turns == [] then old(value) else Left(old(value), turns[0].before)
      ensures reserved && turns == old(turns)
    {
      if turns != [] {
        value := Left(value, turns[0].before);
      }
      reserved := true;
      v := value;
    }

    /** STREX: it returns true when it fails, which it must if anybody wrote since the load. */
    method StoreExclusive(v: W) returns (failed: bool)
      modifies this
      ensures !reserved
      ensures turns == if old(turns) == [] then [] else old(turns)[1..]
      ensures failed <==> !old(reserved) || (old(turns) != [] && !old(turns)[0].Quiet())
      ensures value == if !failed then v else if old(turns) == [] then old(value) else Left(old(value), old(turns)[0].between)
    {
      failed := !reserved;
      if turns != [] {
        if turns[0].between != [] {
          value := Left(value, turns[0].between);
          reserved := false;
        }
        failed := !reserved || turns[0].spurious;
        turns := turns[1..];
      }
      if !failed {
        value := v;
      }
      reserved := false;
    }
  }

  /** A loop that still has to succeed has the same success ahead of it as when it began. */
  ghost predicate Ahead<W>(x: W, turns: seq<Turn<W>>, y: W, later: seq<Turn<W>>) {
    AtStore(x, turns) == AtStore(y, later) && Rest(turns) == Rest(later)
  }

  lemma Attempt<W>(x: W, turns: seq<Turn<W>>)
    ensures turns == [] ==> AtStore(x, turns) == x && Rest(turns) == []
    ensures turns != [] && turns[0].Quiet() ==> AtStore(x, turns) == Left(x, turns[0].before) && Rest(turns) == turns[1..]
    ensures turns != [] && !turns[0].Quiet() ==>
      Ahead(x, turns, Left(Left(x, turns[0].before), turns[0].between), turns[1..])
  {
    WinnerInRange(turns);
    if turns != [] && !turns[0].Quiet() {
      FailedAttempt(x, turns);
    }
  }

  /** ATOMIC_SET_BIT */
  method AtomicSet32(r: Register<bv32>, bits: bv32)
    modifies r
    ensures Modifies32(AtStore(old(r.value), old(r.turns)), r.value, 0, bits) && r.turns == Rest(old(r.turns))
  {
    hide Masked32, Modifies32;
    var failed := true;
    while failed
      invariant failed ==> Ahead(old(r.value), old(r.turns), r.value, r.turns)
      invariant !failed ==> r.value == Masked32(AtStore(old(r.value), old(r.turns)), 0, bits) && r.turns == Rest(old(r.turns))
      decreases |r.turns|, failed
    {
      Attempt(r.value, r.turns);
      var val := r.LoadExclusive();
      SetIsMasked32(val, bits);
      val := val | bits;
      failed := r.StoreExclusive(val);
    }
    MaskedModifies32(AtStore(old(r.value), old(r.turns)), r.value, 0, bits);
  }

  /** ATOMIC_CLEAR_BIT */
  method AtomicClear32(r: Register<bv32>, bits: bv32)
    modifies r
    ensures Modifies32(AtStore(old(r.value), old(r.turns)), r.value, bits, 0) && r.turns == Rest(old(r.turns))
  {
    hide Masked32, Modifies32;
    var failed := true;
    while failed
      invariant failed ==> Ahead(old(r.value), old(r.turns), r.value, r.turns)
      invariant !failed ==> r.value == Masked32(AtStore(old(r.value), old(r.turns)), bits, 0) && r.turns == Rest(old(r.turns))
      decreases |r.turns|, failed
    {
      Attempt(r.value, r.turns);
      var val := r.LoadExclusive();
      ClearIsMasked32(val, bits);
      val := val & !bits;
      failed := r.StoreExclusive(val);
    }
    MaskedModifies32(AtStore(old(r.value), old(r.turns)), r.value, bits, 0);
  }

  /** ATOMIC_MODIFY_REG */
  method AtomicModify32(r: Register<bv32>, clear: bv32, bits: bv32)
    modifies r
    ensures Modifies32(AtStore(old(r.value), old(r.turns)), r.value, clear, bits) && r.turns == Rest(old(r.turns))
  {
    hide Masked32, Modifies32;
    var failed := true;
    while failed
      invariant failed ==> Ahead(old(r.value), old(r.turns), r.value, r.turns)
      invariant !failed ==> r.value == Masked32(AtStore(old(r.value), old(r.turns)), clear, bits) && r.turns == Rest(old(r.turns))
      decreases |r.turns|, failed
    {
      Attempt(r.value, r.turns);
      var val := r.LoadExclusive();
      ModifyIsMasked32(val, clear, bits);
      val := (val & !clear) | bits;
      failed := r.StoreExclusive(val);
    }
    MaskedModifies32(AtStore(old(r.value), old(r.turns)), r.value, clear, bits);
  }

  /** ATOMIC_SETH_BIT */
  method AtomicSet16(r: Register<bv16>, bits: bv16)
    modifies r
    ensures Modifies16(AtStore(old(r.value), old(r.turns)), r.value, 0, bits) && r.turns == Rest(old(r.turns))
  {
    hide Masked16, Modifies16;
    var failed := true;
    while failed
      invariant failed ==> Ahead(old(r.value), old(r.turns), r.value, r.turns)
      invariant !failed ==> r.value == Masked16(AtStore(old(r.value), old(r.turns)), 0, bits) && r.turns == Rest(old(r.turns))
      decreases |r.turns|, failed
    {
      Attempt(r.value, r.turns);
      var val := r.LoadExclusive();
      SetIsMasked16(val, bits);
      val := val | bits;
      failed := r.StoreExclusive(val);
    }
    MaskedModifies16(AtStore(old(r.value), old(r.turns)), r.value, 0, bits);
  }

  /** ATOMIC_CLEARH_BIT */
  method AtomicClear16(r: Register<bv16>, bits: bv16)
    modifies r
    ensures Modifies16(AtStore(old(r.value), old(r.turns)), r.value, bits, 0) && r.turns == Rest(old(r.turns))
  {
    hide Masked16, Modifies16;
    var failed := true;
    while failed
      invariant failed ==> Ahead(old(r.value), old(r.turns), r.value, r.turns)
      invariant !failed ==> r.value == Masked16(AtStore(old(r.value), old(r.turns)), bits, 0) && r.turns == Rest(old(r.turns))
      decreases |r.turns|, failed
    {
      Attempt(r.value, r.turns);
      var val := r.LoadExclusive();
      ClearIsMasked16(val, bits);
      val := val & !bits;
      failed := r.StoreExclusive(val);
    }
    MaskedModifies16(AtStore(old(r.value), old(r.turns)), r.value, bits, 0);
  }

  /** ATOMIC_MODIFYH_REG */
  method AtomicModify16(r: Register<bv16>, clear: bv16, bits: bv16)
    modifies r
    ensures Modifies16(AtStore(old(r.value), old(r.turns)), r.value, clear, bits) && r.turns == Rest(old(r.turns))
  {
    hide Masked16, Modifies16;
    var failed := true;
    while failed
      invariant failed ==> Ahead(old(r.value), old(r.turns), r.value, r.turns)
      invariant !failed ==> r.value == Masked16(AtStore(old(r.value), old(r.turns)), clear, bits) && r.turns == Rest(old(r.turns))
      decreases |r.turns|, failed
    {
      Attempt(r.value, r.turns);
      var val := r.LoadExclusive();
      ModifyIsMasked16(val, clear, bits);
      val := (val & !clear) | bits;
      failed := r.StoreExclusive(val);
    }
    MaskedModifies16(AtStore(old(r.value), old(r.turns)), r.value, clear, bits);
  }
}
