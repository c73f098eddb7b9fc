/** The register access macros over 32-bit and 16-bit registers: the atomic forms, which retry, and the
    plain forms, which do not. */
module Registers {
  import opened Exclusive
  import opened RegisterMasks

  // ---------------------------------------------------------------- what the macros compute

  /** Clear the bits of one mask and set the bits of another. */
  function Modify32(clear: bv32, bits: bv32): bv32 -> bv32 {
    v => Masked32(v, clear, bits)
  }

  function Modify16(clear: bv16, bits: bv16): bv16 -> bv16 {
    v => Masked16(v, clear, bits)
  }

  lemma DisjointMasksCommute32(c1: bv32, s1: bv32, c2: bv32, s2: bv32)
    requires (c1 | s1) & (c2 | s2) == 0
    ensures Commute(Atomic(Modify32(c1, s1)), Atomic(Modify32(c2, s2)))
  {
    hide Masked32;
    Apartness32(c1, s1, c2, s2);
    var f, g := Atomic(Modify32(c1, s1)), Atomic(Modify32(c2, s2));
    forall v ensures f.Effect(g.Effect(v)) == g.Effect(f.Effect(v)) {
      MasksCommute32(v, c1, s1, c2, s2);
    }
  }

  lemma DisjointMasksCommute16(c1: bv16, s1: bv16, c2: bv16, s2: bv16)
    requires (c1 | s1) & (c2 | s2) == 0
    ensures Commute(Atomic(Modify16(c1, s1)), Atomic(Modify16(c2, s2)))
  {
    hide Masked16;
    Apartness16(c1, s1, c2, s2);
    var f, g := Atomic(Modify16(c1, s1)), Atomic(Modify16(c2, s2));
    forall v ensures f.Effect(g.Effect(v)) == g.Effect(f.Effect(v)) {
      MasksCommute16(v, c1, s1, c2, s2);
    }
  }

  /** An operation that clears and sets bits of `mask` only. */
  ghost predicate Within32(op: Op<bv32>, mask: bv32) {
    exists c, b :: op == Atomic(Modify32(c, b)) && (c | b) & !mask == 0
  }

  ghost predicate Within16(op: Op<bv16>, mask: bv16) {
    exists c, b :: op == Atomic(Modify16(c, b)) && (c | b) & !mask == 0
  }

  /** Each agent keeps to a mask of its own. */
  ghost predicate Apart32(s: State<bv32>, masks: seq<bv32>) {
    && |masks| == |s.agents|
    && (forall a, b | 0 <= a < |masks| && 0 <= b < |masks| && a != b :: masks[a] & masks[b] == 0)
    && (forall a, f | 0 <= a < |masks| && f in s.agents[a].program :: Within32(f, masks[a]))
  }

  ghost predicate Apart16(s: State<bv16>, masks: seq<bv16>) {
    && |masks| == |s.agents|
    && (forall a, b | 0 <= a < |masks| && 0 <= b < |masks| && a != b :: masks[a] & masks[b] == 0)
    && (forall a, f | 0 <= a < |masks| && f in s.agents[a].program :: Within16(f, masks[a]))
  }

  lemma WithinCommute32(f: Op<bv32>, m: bv32, g: Op<bv32>, n: bv32)
    requires Within32(f, m) && Within32(g, n) && m & n == 0
    ensures Commute(f, g) && !f.Plain?
  {
    var c1, s1 :| f == Atomic(Modify32(c1, s1)) && (c1 | s1) & !m == 0;
    var c2, s2 :| g == Atomic(Modify32(c2, s2)) && (c2 | s2) & !n == 0;
    DisjointMasksCommute32(c1, s1, c2, s2);
  }

  lemma WithinCommute16(f: Op<bv16>, m: bv16, g: Op<bv16>, n: bv16)
    requires Within16(f, m) && Within16(g, n) && m & n == 0
    ensures Commute(f, g) && !f.Plain?
  {
    var c1, s1 :| f == Atomic(Modify16(c1, s1)) && (c1 | s1) & !m == 0;
    var c2, s2 :| g == Atomic(Modify16(c2, s2)) && (c2 | s2) & !n == 0;
    DisjointMasksCommute16(c1, s1, c2, s2);
  }

  lemma ApartIsIndependent32(s: State<bv32>, masks: seq<bv32>)
    requires Apart32(s, masks)
    ensures IndependentPrograms(s) && NoPlain(s)
  {
    forall a, b, f, g | 0 <= a < |s.agents| && 0 <= b < |s.agents| && a != b && MayMeet(s, a, f, b, g) ensures Commute(f, g) {
      WithinCommute32(f, masks[a], g, masks[b]);
    }
    forall a, i | 0 <= a < |s.agents| && 0 <= i < |s.agents[a].program| ensures !s.agents[a].program[i].Plain? {
      assert s.agents[a].program[i] in s.agents[a].program;
      assert Within32(s.agents[a].program[i], masks[a]);
    }
  }

  /** Agents that clear and set bits of disjoint masks: however their atomic macros interleave, the
      register ends as if they had run one after another, in any order. */
  lemma DisjointMasksAgree32(s: State<bv32>, masks: seq<bv32>, es: seq<Event>, log: seq<Entry<bv32>>)
    requires Initial(s) && Apart32(s, masks) && Runs(s, es) && Finished(After(s, es)) && Schedule(s, log)
    ensures After(s, es).reg == Fold(s.reg, log)
  {
    ApartIsIndependent32(s, masks);
    NoPlainIsCurrent(s, es);
    EveryOrderAgrees(s, es, log);
  }

  /** The plain forms end alike, and as the atomic ones do, if each store of theirs finds what was loaded,
      as it does when they run one after another, in whatever order. */
  lemma PlainMasksAgree32(s: State<bv32>, masks: seq<bv32>, es: seq<Event>, log: seq<Entry<bv32>>)
    requires Initial(s) && Apart32(s, masks) && Schedule(s, log)
    requires Runs(PlainAgents(s), es) && StillCurrent(PlainAgents(s), es) && Finished(After(PlainAgents(s), es))
    ensures After(PlainAgents(s), es).reg == Fold(s.reg, log)
  {
    ApartIsIndependent32(s, masks);
    PlainInTurn(s, es, log);
  }

  lemma ApartIsIndependent16(s: State<bv16>, masks: seq<bv16>)
    requires Apart16(s, masks)
    ensures IndependentPrograms(s) && NoPlain(s)
  {
    forall a, b, f, g | 0 <= a < |s.agents| && 0 <= b < |s.agents| && a != b && MayMeet(s, a, f, b, g) ensures Commute(f, g) {
      WithinCommute16(f, masks[a], g, masks[b]);
    }
    forall a, i | 0 <= a < |s.agents| && 0 <= i < |s.agents[a].program| ensures !s.agents[a].program[i].Plain? {
      assert s.agents[a].program[i] in s.agents[a].program;
      assert Within16(s.agents[a].program[i], masks[a]);
    }
  }

  /** Agents that clear and set bits of disjoint masks: however their atomic macros interleave, the
      register ends as if they had run one after another, in any order. */
  lemma DisjointMasksAgree16(s: State<bv16>, masks: seq<bv16>, es: seq<Event>, log: seq<Entry<bv16>>)
    requires Initial(s) && Apart16(s, masks) && Runs(s, es) && Finished(After(s, es)) && Schedule(s, log)
    ensures After(s, es).reg == Fold(s.reg, log)
  {
    ApartIsIndependent16(s, masks);
    NoPlainIsCurrent(s, es);
    EveryOrderAgrees(s, es, log);
  }

  /** The plain forms end alike, and as the atomic ones do, if each store of theirs finds what was loaded,
      as it does when they run one after another, in whatever order. */
  lemma PlainMasksAgree16(s: State<bv16>, masks: seq<bv16>, es: seq<Event>, log: seq<Entry<bv16>>)
    requires Initial(s) && Apart16(s, masks) && Schedule(s, log)
    requires Runs(PlainAgents(s), es) && StillCurrent(PlainAgents(s), es) && Finished(After(PlainAgents(s), es))
    ensures After(PlainAgents(s), es).reg == Fold(s.reg, log)
  {
    ApartIsIndependent16(s, masks);
    PlainInTurn(s, es, log);
  }

  /** Without that condition they promise no such thing: with two agents that set one bit each, both loading before
      either stores, the first agent's bit is lost. */
  lemma PlainLosesBit() returns (s: State<bv32>, es: seq<Event>)
    ensures Initial(s) && Runs(s, es) && Finished(After(s, es))
    ensures s.reg == 0 && After(s, es).reg == 2 && Fold(s.reg, After(s, es).done) == 3
  {
    assert Modify32(0, 1)(0) == 1 && Modify32(0, 2)(0) == 2 && Modify32(0, 2)(1) == 3;
    hide Modify32, Runs, After, Fold, Initial, Finished;
    s, es := PlainLosesUpdate(0, Modify32(0, 1), Modify32(0, 2));
  }

  // ---------------------------------------------------------------- whose bits are whose

  /** What agent `a` has done and what it has still to do are its program; an agent that is not there does nothing. */
  lemma OwnProgram<W>(s: State<W>, es: seq<Event>, a: nat)
    requires Initial(s) && Runs(s, es)
    ensures |After(s, es).agents| == |s.agents|
    ensures a < |s.agents| ==> Own(After(s, es).done, a) + After(s, es).agents[a].program == s.agents[a].program
    ensures a >= |s.agents| ==> Own(After(s, es).done, a) == []
  {
    AgentsStay(s, es);
    if a < |s.agents| {
      RunCounts(s, es, a);
    } else {
      LoggedAgents(s, es);
      OwnedByNone(After(s, es).done, a);
    }
  }

  /** What the macro does to a value, bit by bit. */
  lemma ModifyMeans32(v: bv32, clear: bv32, bits: bv32)
    ensures Modifies32(v, Modify32(clear, bits)(v), clear, bits)
  {
    hide Masked32, Modifies32;
    MaskedIsModified32(v, clear, bits);
  }

  /** The same in the bits of `m`. */
  predicate SameOn32(v: bv32, w: bv32, m: bv32) {
    v & m == w & m
  }

  lemma SameOnItself32(v: bv32, m: bv32)
    ensures SameOn32(v, v, m)
  {
  }

  predicate Disjoint32(mask: bv32, m: bv32) {
    mask & m == 0
  }

  /** Nobody but agent `a` has a mask that meets `m`. */
  ghost predicate OnlyOwner32(masks: seq<bv32>, a: nat, m: bv32) {
    forall b | 0 <= b < |masks| && b != a :: Disjoint32(masks[b], m)
  }

  /** Every operation of a log keeps to its agent's mask. */
  ghost predicate LogWithin32(log: seq<Entry<bv32>>, masks: seq<bv32>) {
    forall i :: 0 <= i < |log| ==> log[i].agent < |masks| && Within32(log[i].op, masks[log[i].agent])
  }

  lemma EffectIsMasked32(x: bv32, clear: bv32, bits: bv32)
    ensures Atomic(Modify32(clear, bits)).Effect(x) == Masked32(x, clear, bits)
  {
    hide Masked32;
  }

  lemma OwnEffect32(x: bv32, y: bv32, op: Op<bv32>, mask: bv32, m: bv32)
    requires Within32(op, mask) && SameOn32(x, y, m)
    ensures SameOn32(op.Effect(x), op.Effect(y), m)
  {
    var c, b :| op == Atomic(Modify32(c, b)) && (c | b) & !mask == 0;
    hide *;
    EffectIsMasked32(x, c, b);
    EffectIsMasked32(y, c, b);
    SameMeets32(x, y, c, b, m);
  }

  lemma OtherEffect32(x: bv32, y: bv32, op: Op<bv32>, mask: bv32, m: bv32)
    requires Within32(op, mask) && Disjoint32(mask, m) && SameOn32(x, y, m)
    ensures SameOn32(op.Effect(x), y, m)
  {
    var c, b :| op == Atomic(Modify32(c, b)) && (c | b) & !mask == 0;
    hide *;
    EffectIsMasked32(x, c, b);
    OutsideMask32(x, c, b, mask, m);
  }

  /** The register after some operations, one after another. */
  ghost function InTurn32(x: bv32, ops: seq<Op<bv32>>): bv32 {
    if ops == [] then x else ops[|ops| - 1].Effect(InTurn32(x, ops[..|ops| - 1]))
  }

  lemma InTurnSnoc32(x: bv32, ops: seq<Op<bv32>>, op: Op<bv32>)
    ensures InTurn32(x, ops + [op]) == op.Effect(InTurn32(x, ops))
  {
    hide Op.Effect;
    assert (ops + [op])[..|ops|] == ops;
  }

  lemma {:induction false} LogIsOwners32(x: bv32, log: seq<Entry<bv32>>, masks: seq<bv32>, a: nat, m: bv32)
    requires LogWithin32(log, masks) && OnlyOwner32(masks, a, m)
    ensures SameOn32(Fold(x, log), InTurn32(x, Own(log, a)), m)
    decreases |log|
  {
    hide Within32, Op.Effect, SameOn32, Disjoint32;
    if log != [] {
      var rest, e := log[..|log| - 1], log[|log| - 1];
      assert forall i | 0 <= i < |rest| :: rest[i] == log[i];
      LogIsOwners32(x, rest, masks, a, m);
      assert Within32(e.op, masks[e.agent]);
      if e.agent == a {
        InTurnSnoc32(x, Own(rest, a), e.op);
        hide InTurn32;
        OwnEffect32(Fold(x, rest), InTurn32(x, Own(rest, a)), e.op, masks[a], m);
      } else {
        hide InTurn32;
        assert Own(log, a) == Own(rest, a);
        OtherEffect32(Fold(x, rest), InTurn32(x, Own(rest, a)), e.op, masks[e.agent], m);
      }
    } else {
      SameOnItself32(x, m);
    }
  }

  lemma RunIsWithin32(s: State<bv32>, masks: seq<bv32>, es: seq<Event>)
    requires Initial(s) && Apart32(s, masks) && Runs(s, es)
    ensures LogWithin32(After(s, es).done, masks)
  {
    var log := After(s, es).done;
    hide Within32;
    LoggedAgents(s, es);
    forall i | 0 <= i < |log| ensures log[i].agent < |masks| && Within32(log[i].op, masks[log[i].agent]) {
      assert log[i] in log;
      OwnHas(log, i);
      var agent := log[i].agent;
      RunCounts(s, es, agent);
      var later := After(s, es).agents[agent].program;
      assert log[i].op in Own(log, agent) + later;
    }
  }

  lemma OwnersLog32(s: State<bv32>, masks: seq<bv32>, es: seq<Event>, a: nat, m: bv32)
    requires Initial(s) && Apart32(s, masks) && Runs(s, es) && OnlyOwner32(masks, a, m)
    ensures SameOn32(After(s, es).reg, InTurn32(s.reg, Own(After(s, es).done, a)), m)
  {
    hide Within32, Sequential, StillCurrent, SameOn32, Disjoint32, InTurn32;
    RunIsWithin32(s, masks, es);
    ApartIsIndependent32(s, masks);
    hide Apart32, Initial;
    NoPlainIsCurrent(s, es);
    hide NoPlain;
    Linearizable(s, es);
    LogIsOwners32(s.reg, After(s, es).done, masks, a, m);
  }

  /** At any moment of any run, whoever's turn it is, each agent finds the bits of its own mask as the operations
      that it has completed leave them when they run alone; and bits in no agent's mask are as they were. */
  lemma BitsAreTheirOwners32(s: State<bv32>, masks: seq<bv32>, es: seq<Event>, a: nat, m: bv32)
    requires Initial(s) && Apart32(s, masks) && Runs(s, es) && OnlyOwner32(masks, a, m)
    ensures var s' := After(s, es);
            && |s'.agents| == |s.agents|
            && SameOn32(s'.reg, InTurn32(s.reg, Own(s'.done, a)), m)
            && (a < |s.agents| ==> Own(s'.done, a) + s'.agents[a].program == s.agents[a].program)
            && (a >= |s.agents| ==> SameOn32(s'.reg, s.reg, m))
  {
    OwnersLog32(s, masks, es, a, m);
    OwnProgram(s, es, a);
    hide Within32, Apart32, OnlyOwner32, Initial, Op.Effect, SameOn32;
  }

  /** What the macro does to a value, bit by bit. */
  lemma ModifyMeans16(v: bv16, clear: bv16, bits: bv16)
    ensures Modifies16(v, Modify16(clear, bits)(v), clear, bits)
  {
    hide Masked16, Modifies16;
    MaskedIsModified16(v, clear, bits);
  }

  /** The same in the bits of `m`. */
  predicate SameOn16(v: bv16, w: bv16, m: bv16) {
    v & m == w & m
  }

  lemma SameOnItself16(v: bv16, m: bv16)
    ensures SameOn16(v, v, m)
  {
  }

  predicate Disjoint16(mask: bv16, m: bv16) {
    mask & m == 0
  }

  /** Nobody but agent `a` has a mask that meets `m`. */
  ghost predicate OnlyOwner16(masks: seq<bv16>, a: nat, m: bv16) {
    forall b | 0 <= b < |masks| && b != a :: Disjoint16(masks[b], m)
  }

  /** Every operation of a log keeps to its agent's mask. */
  ghost predicate LogWithin16(log: seq<Entry<bv16>>, masks: seq<bv16>) {
    forall i :: 0 <= i < |log| ==> log[i].agent < |masks| && Within16(log[i].op, masks[log[i].agent])
  }

  lemma EffectIsMasked16(x: bv16, clear: bv16, bits: bv16)
    ensures Atomic(Modify16(clear, bits)).Effect(x) == Masked16(x, clear, bits)
  {
    hide Masked16;
  }

  lemma OwnEffect16(x: bv16, y: bv16, op: Op<bv16>, mask: bv16, m: bv16)
    requires Within16(op, mask) && SameOn16(x, y, m)
    ensures SameOn16(op.Effect(x), op.Effect(y), m)
  {
    var c, b :| op == Atomic(Modify16(c, b)) && (c | b) & !mask == 0;
    hide *;
    EffectIsMasked16(x, c, b);
    EffectIsMasked16(y, c, b);
    SameMeets16(x, y, c, b, m);
  }

  lemma OtherEffect16(x: bv16, y: bv16, op: Op<bv16>, mask: bv16, m: bv16)
    requires Within16(op, mask) && Disjoint16(mask, m) && SameOn16(x, y, m)
    ensures SameOn16(op.Effect(x), y, m)
  {
    var c, b :| op == Atomic(Modify16(c, b)) && (c | b) & !mask == 0;
    hide *;
    EffectIsMasked16(x, c, b);
    OutsideMask16(x, c, b, mask, m);
  }

  /** The register after some operations, one after another. */
  ghost function InTurn16(x: bv16, ops: seq<Op<bv16>>): bv16 {
    if ops == [] then x else ops[|ops| - 1].Effect(InTurn16(x, ops[..|ops| - 1]))
  }

  lemma InTurnSnoc16(x: bv16, ops: seq<Op<bv16>>, op: Op<bv16>)
    ensures InTurn16(x, ops + [op]) == op.Effect(InTurn16(x, ops))
  {
    hide Op.Effect;
    assert (ops + [op])[..|ops|] == ops;
  }

  lemma {:induction false} LogIsOwners16(x: bv16, log: seq<Entry<bv16>>, masks: seq<bv16>, a: nat, m: bv16)
    requires LogWithin16(log, masks) && OnlyOwner16(masks, a, m)
    ensures SameOn16(Fold(x, log), InTurn16(x, Own(log, a)), m)
    decreases |log|
  {
    hide Within16, Op.Effect, SameOn16, Disjoint16;
    if log != [] {
      var rest, e := log[..|log| - 1], log[|log| - 1];
      assert forall i | 0 <= i < |rest| :: rest[i] == log[i];
      LogIsOwners16(x, rest, masks, a, m);
      assert Within16(e.op, masks[e.agent]);
      if e.agent == a {
        InTurnSnoc16(x, Own(rest, a), e.op);
        hide InTurn16;
        OwnEffect16(Fold(x, rest), InTurn16(x, Own(rest, a)), e.op, masks[a], m);
      } else {
        hide InTurn16;
        assert Own(log, a) == Own(rest, a);
        OtherEffect16(Fold(x, rest), InTurn16(x, Own(rest, a)), e.op, masks[e.agent], m);
      }
    } else {
      SameOnItself16(x, m);
    }
  }

  lemma RunIsWithin16(s: State<bv16>, masks: seq<bv16>, es: seq<Event>)
    requires Initial(s) && Apart16(s, masks) && Runs(s, es)
    ensures LogWithin16(After(s, es).done, masks)
  {
    var log := After(s, es).done;
    hide Within16;
    LoggedAgents(s, es);
    forall i | 0 <= i < |log| ensures log[i].agent < |masks| && Within16(log[i].op, masks[log[i].agent]) {
      assert log[i] in log;
      OwnHas(log, i);
      var agent := log[i].agent;
      RunCounts(s, es, agent);
      var later := After(s, es).agents[agent].program;
      assert log[i].op in Own(log, agent) + later;
    }
  }

  lemma OwnersLog16(s: State<bv16>, masks: seq<bv16>, es: seq<Event>, a: nat, m: bv16)
    requires Initial(s) && Apart16(s, masks) && Runs(s, es) && OnlyOwner16(masks, a, m)
    ensures SameOn16(After(s, es).reg, InTurn16(s.reg, Own(After(s, es).done, a)), m)
  {
    hide Within16, Sequential, StillCurrent, SameOn16, Disjoint16, InTurn16;
    RunIsWithin16(s, masks, es);
    ApartIsIndependent16(s, masks);
    hide Apart16, Initial;
    NoPlainIsCurrent(s, es);
    hide NoPlain;
    Linearizable(s, es);
    LogIsOwners16(s.reg, After(s, es).done, masks, a, m);
  }

  /** At any moment of any run, whoever's turn it is, each agent finds the bits of its own mask as the operations
      that it has completed leave them when they run alone; and bits in no agent's mask are as they were. */
  lemma BitsAreTheirOwners16(s: State<bv16>, masks: seq<bv16>, es: seq<Event>, a: nat, m: bv16)
    requires Initial(s) && Apart16(s, masks) && Runs(s, es) && OnlyOwner16(masks, a, m)
    ensures var s' := After(s, es);
            && |s'.agents| == |s.agents|
            && SameOn16(s'.reg, InTurn16(s.reg, Own(s'.done, a)), m)
            && (a < |s.agents| ==> Own(s'.done, a) + s'.agents[a].program == s.agents[a].program)
            && (a >= |s.agents| ==> SameOn16(s'.reg, s.reg, m))
  {
    OwnersLog16(s, masks, es, a, m);
    OwnProgram(s, es, a);
    hide Within16, Apart16, OnlyOwner16, Initial, Op.Effect, SameOn16;
  }
}
