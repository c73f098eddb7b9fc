/** What a step of the fabric writes: nothing but the blocks it is said to touch. */
module FabricFootprint {
  import opened FabricInvariant
  import opened FabricSteps
  import opened FabricTheorems
  import opened FabricTypes
  import opened Masks
  import opened Wrappers

  /** At most the contents of block `b` differ, and both have the same blocks. */
  ghost predicate Writes<T(!new)>(m: map<nat, T>, m': map<nat, T>, b: Option<nat>) {
    && (forall c :: c in m <==> c in m')
    && (forall c :: c in m && Some(c) != b ==> m'[c] == m[c])
  }

  ghost predicate WritesOnly(s: State, s': State, b: Option<nat>, p: Option<nat>) {
    Writes(s.mem, s'.mem, b) && Writes(s.data, s'.data, p)
  }

  /** Neither message blocks nor payload blocks are written. */
  predicate Unwritten(s: State, s': State) {
    s'.mem == s.mem && s'.data == s.data
  }

  lemma ReadRequestWrites(s: State, t: nat)
    requires t in s.ops
    ensures Unwritten(s, ReadRequestStep(s, t, s.ops[t]))
  {
    hide MessageAt;
  }

  lemma AllocateMessageWrites(s: State, t: nat, choice: nat)
    requires t in s.ops
    ensures Unwritten(s, AllocateMessageStep(s, t, s.ops[t], choice))
  {
    hide Pool.Take, CauseOf;
  }

  lemma UndoWrites(s: State, t: nat)
    requires t in s.ops
    ensures Unwritten(s, UndoStep(s, t, s.ops[t]))
  {
    hide Pool.Give, IdOf;
  }

  lemma ReleasePayloadWrites(s: State, t: nat)
    requires t in s.ops
    ensures Unwritten(s, ReleasePayloadStep(s, t, s.ops[t]))
  {
    hide Pool.Give, IdOf, MessageAt;
  }

  lemma ReleaseMessageWrites(s: State, t: nat)
    requires t in s.ops
    ensures Unwritten(s, ReleaseMessageStep(s, t, s.ops[t]))
  {
    hide Pool.Give, IdOf;
  }

  lemma ReturnWrites(s: State, t: nat)
    requires t in s.ops
    ensures Unwritten(s, ReturnStep(s, t, s.ops[t]))
  {
  }

  /** The header of block `b` is replaced, and payload block `p`, if it is named, is filled. */
  predicate Rewritten(s: State, s': State, b: nat, p: Option<nat>) {
    && b in s'.mem && s'.mem == s.mem[b := s'.mem[b]]
    && match p
       case None => s'.data == s.data
       case Some(q) => q in s'.data && s'.data == s.data[q := s'.data[q]]
  }

  lemma FillHeaderWrites(s: State, t: nat)
    requires t in s.ops
    ensures Rewritten(s, FillHeaderStep(s, t, s.ops[t]), Get(s.ops[t].built), None)
  {
    hide MessageAt, Get;
  }

  lemma AllocatePayloadWrites(s: State, t: nat, choice: nat)
    requires t in s.ops && Get(s.ops[t].built) in s.mem
    ensures Rewritten(s, AllocatePayloadStep(s, t, s.ops[t], choice), Get(s.ops[t].built), None)
  {
    hide MessageAt, Get, Pool.Take, IdOf;
  }

  lemma ClearPayloadWrites(s: State, t: nat)
    requires t in s.ops
    ensures Rewritten(s, ClearPayloadStep(s, t, s.ops[t]), Get(s.ops[t].built), None)
  {
    hide MessageAt, Get;
  }

  lemma SetCountWrites(s: State, t: nat)
    requires t in s.ops
    ensures Rewritten(s, SetCountStep(s, t, s.ops[t]), Get(s.ops[t].built), None)
  {
    hide MessageAt, Get, PopCount;
  }

  lemma CopyPayloadWrites(s: State, t: nat)
    requires t in s.ops
    ensures Rewritten(s, CopyPayloadStep(s, t, s.ops[t]), Get(s.ops[t].built), Some(Get(MessageAt(s, Get(s.ops[t].built)).payload)))
  {
    hide MessageAt, Get, SourceBytes, Overwrite, DataAt;
  }

  lemma DecrementLastWrites(s: State, t: nat)
    requires t in s.ops
    ensures Rewritten(s, DecrementLastStep(s, t, s.ops[t]), GetShare(s.ops[t].share).block, None)
  {
    hide MessageAt, GetShare, CountMinusOne, IdOf;
  }

  lemma DecrementOtherWrites(s: State, t: nat)
    requires t in s.ops
    ensures Rewritten(s, DecrementOtherStep(s, t, s.ops[t]), GetShare(s.ops[t].share).block, None)
  {
    hide MessageAt, GetShare, CountMinusOne, Spend;
  }

  lemma ForgetPayloadWrites(s: State, t: nat)
    requires t in s.ops
    ensures Rewritten(s, ForgetPayloadStep(s, t, s.ops[t]), Get(s.ops[t].last), None)
  {
    hide MessageAt, Get;
  }

  /** The message block a step writes, if any: the one it touches, unless it only reads. */
  lemma CreateWrites(s: State, t: nat, choice: nat)
    requires t in s.ops && !s.ops[t].at.Created()
    requires s.ops[t].at.AllocatePayload? ==> Get(s.ops[t].built) in s.mem
    ensures var s', at := CreateOp(s, t, s.ops[t], choice), s.ops[t].at;
            if at.Creating() && !at.Undo?
            then Rewritten(s, s', Get(s.ops[t].built),
                           if at.CopyPayload? then Some(Get(MessageAt(s, Get(s.ops[t].built)).payload)) else None)
            else Unwritten(s, s')
  {
    hide Rewritten, Unwritten, ReadRequestStep, AllocateMessageStep, FillHeaderStep, AllocatePayloadStep, UndoStep,
         CopyPayloadStep, ClearPayloadStep, SetCountStep, MessageAt, Get;
    match s.ops[t].at
    case ReadRequest => ReadRequestWrites(s, t);
    case AllocateMessage => AllocateMessageWrites(s, t, choice);
    case FillHeader => FillHeaderWrites(s, t);
    case AllocatePayload => AllocatePayloadWrites(s, t, choice);
    case Undo => UndoWrites(s, t);
    case CopyPayload => CopyPayloadWrites(s, t);
    case ClearPayload => ClearPayloadWrites(s, t);
    case _ => SetCountWrites(s, t);
  }

  lemma ConsumeWrites(s: State, t: nat)
    requires t in s.ops && s.ops[t].at.Created()
    ensures var s', at := ConsumeOp(s, t, s.ops[t]), s.ops[t].at;
            if at.Decrement? then Rewritten(s, s', GetShare(s.ops[t].share).block, None)
            else if at.ForgetPayload? then Rewritten(s, s', Get(s.ops[t].last), None)
            else Unwritten(s, s')
  {
    hide Rewritten, Unwritten, DecrementLastStep, DecrementOtherStep, ReleasePayloadStep, ForgetPayloadStep,
         ReleaseMessageStep, ReturnStep, MessageAt, Get, GetShare;
    match s.ops[t].at
    case Decrement =>
      DecrementLastWrites(s, t);
      DecrementOtherWrites(s, t);
    case ReleasePayload => ReleasePayloadWrites(s, t);
    case ForgetPayload => ForgetPayloadWrites(s, t);
    case ReleaseMessage => ReleaseMessageWrites(s, t);
    case _ => ReturnWrites(s, t);
  }

  lemma RewrittenWrites(s: State, s': State, b: nat, p: Option<nat>)
    requires Rewritten(s, s', b, p) && b in s.mem && (p.Some? ==> p.value in s.data)
    ensures WritesOnly(s, s', Some(b), p)
  {
  }

  lemma UnwrittenWrites(s: State, s': State, b: Option<nat>, p: Option<nat>)
    requires Unwritten(s, s')
    ensures WritesOnly(s, s', b, p)
  {
  }

  /** Which blocks a call works on. */
  lemma CallBlocks(s: State, t: nat, choice: nat)
    requires Inv(s) && Enabled(s, Step(t, choice))
    ensures var call := s.ops[t];
            && (call.at.Creating() ==> call.built.Some?)
            && (call.at.ForgetPayload? ==> call.last.Some?)
            && (call.at.CopyPayload? ==> MessageAt(s, Get(call.built)).payload.Some?)
            && (TouchedMessage(s, Step(t, choice)).Some? ==> TouchedMessage(s, Step(t, choice)).value in s.mem)
            && (TouchedPayload(s, Step(t, choice)).Some? ==> TouchedPayload(s, Step(t, choice)).value in s.data)
  {
    assert OpOk(s, t) && PoolsOk(s);
    StepTouchesUsed(s, t, choice);
    hide Inv, TouchedMessage, TouchedPayload, HeaderOk, CountOk, Bits;
  }

  /** In every state that keeps the invariant, a step writes to no block but the ones it is said to touch. */
  lemma StepWritesWhatItTouches(s: State, t: nat, choice: nat)
    requires Inv(s) && Enabled(s, Step(t, choice))
    ensures WritesOnly(s, StepOp(s, t, choice), TouchedMessage(s, Step(t, choice)), TouchedPayload(s, Step(t, choice)))
  {
    CallBlocks(s, t, choice);
    hide Inv, Rewritten, Unwritten, WritesOnly, CreateOp, ConsumeOp, MessageAt;
    var s', b, p := StepOp(s, t, choice), TouchedMessage(s, Step(t, choice)), TouchedPayload(s, Step(t, choice));
    var at := s.ops[t].at;
    if at.Created() {
      ConsumeWrites(s, t);
    } else {
      CreateWrites(s, t, choice);
    }
    if at.Decrement? || at.ForgetPayload? || (at.Creating() && !at.Undo?) {
      RewrittenWrites(s, s', b.value, p);
    } else {
      UnwrittenWrites(s, s', b, p);
    }
  }
}
