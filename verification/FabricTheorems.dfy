/** What holds of the message fabric in every state that any interleaving of any calls can reach. */
module FabricTheorems {
  import opened FabricTypes
  import opened FabricSteps
  import opened FabricInvariant
  import opened FabricPreservation
  import opened FabricLedger
  import opened FabricReplies
  import opened Masks
  import opened Wrappers

  // ---------------------------------------------------------------- no use after release

  /** The message block an event reads or writes, if any. */
  function TouchedMessage(s: State, e: Event): Option<nat>
    requires Enabled(s, e)
  {
    match e
    case Step(t, _) =>
      var call := s.ops[t];
      if call.at.ReadRequest? || call.at.Decrement? then Some(GetShare(call.share).block)
      else if call.at.ReleasePayload? || call.at.ForgetPayload? then call.last
      else if call.at.Creating() && !call.at.Undo? then call.built
      else None
    case Peek(share) => Some(share.block)
    case _ => None
  }

  /** The payload block an event writes, or a recipient reads, if any. */
  function TouchedPayload(s: State, e: Event): Option<nat>
    requires Enabled(s, e)
  {
    match e
    case Step(t, _) => if s.ops[t].at.CopyPayload? then MessageAt(s, Get(s.ops[t].built)).payload else None
    case Peek(share) => MessageAt(s, share.block).payload
    case _ => None
  }

  /** The payload block a call copies from, if it passes back the payload of the message it answers. */
  function CopiedPayload(s: State, e: Event): Option<nat>
    requires Enabled(s, e)
  {
    match e
    case Step(t, _) =>
      if s.ops[t].at.CopyPayload? && s.ops[t].draft.buffer == Some(Held)
      then MessageAt(s, GetShare(s.ops[t].share).block).payload else None
    case _ => None
  }

  /** The message block an event hands back to its pool, if any. */
  function ReleasedMessage(s: State, e: Event): Option<nat>
    requires Enabled(s, e)
  {
    match e
    case Step(t, _) =>
      if s.ops[t].at.Undo? then s.ops[t].built else if s.ops[t].at.ReleaseMessage? then s.ops[t].last else None
    case _ => None
  }

  /** The payload block an event hands back to its pool, if any. */
  function ReleasedPayload(s: State, e: Event): Option<nat>
    requires Enabled(s, e)
  {
    match e
    case Step(t, _) => if s.ops[t].at.ReleasePayload? then MessageAt(s, Get(s.ops[t].last)).payload else None
    case _ => None
  }

  /** No step of any call, and no recipient reading its message, touches a released block; and every
      release finds its block in use, so no release ever reports an error. */
  lemma NoUseAfterRelease(s0: State, es: seq<Event>, e: Event)
    requires Initial(s0) && Runs(s0, es) && Enabled(After(s0, es), e)
    ensures var s := After(s0, es);
            && (TouchedMessage(s, e).Some? ==> TouchedMessage(s, e).value in s.messages.used)
            && (TouchedPayload(s, e).Some? ==> TouchedPayload(s, e).value in s.payloads.used)
            && (CopiedPayload(s, e).Some? ==> CopiedPayload(s, e).value in s.payloads.used)
            && (ReleasedMessage(s, e).Some? ==> ReleasedMessage(s, e).value in s.messages.used)
            && (ReleasedPayload(s, e).Some? ==> ReleasedPayload(s, e).value in s.payloads.used)
            && Apply(s, e).past.errors == 0
  {
    var s := After(s0, es);
    ReachableGood(s0, es);
    ApplyKeeps(s, e);
    if e.Step? {
      StepTouchesUsed(s, e.op, e.choice);
    } else if e.Peek? {
      assert TagOk(s, e.share.block);
    }
  }

  lemma StepTouchesUsed(s: State, t: nat, choice: nat)
    requires Inv(s) && Enabled(s, Step(t, choice))
    ensures var e := Step(t, choice);
            && (TouchedMessage(s, e).Some? ==> TouchedMessage(s, e).value in s.messages.used)
            && (TouchedPayload(s, e).Some? ==> TouchedPayload(s, e).value in s.payloads.used)
            && (CopiedPayload(s, e).Some? ==> CopiedPayload(s, e).value in s.payloads.used)
            && (ReleasedMessage(s, e).Some? ==> ReleasedMessage(s, e).value in s.messages.used)
            && (ReleasedPayload(s, e).Some? ==> ReleasedPayload(s, e).value in s.payloads.used)
  {
    assert OpOk(s, t);
    assert PoolsOk(s);
    if s.ops[t].at.ReleasePayload? {
      PayloadIsOut(s, t);
    } else if s.ops[t].at.CopyPayload? {
      SourceIsThere(s, t);
    }
    hide Inv, HeaderOk, CountOk, Bits, SourceBytes;
  }

  // ---------------------------------------------------------------- quiet states

  /** A message nobody is working on: it is live, its count is the number of recipients still to come,
      and it owns its payload block. */
  ghost predicate QuietMessage(s: State, b: nat)
    requires b in s.tags
  {
    && b in s.mem && s.tags[b].phase.Live? && s.tags[b].phase.claims == map[]
    && 0 < |s.tags[b].phase.owed| && s.tags[b].phase.owed <= Bits(s.tags[b].draft.dest)
    && s.mem[b].count == |s.tags[b].phase.owed|
    && (s.mem[b].payload.Some? ==> Owns(b, s.mem[b].payload, s.owner))
  }

  lemma NoCallsNoClaims(b: nat, claims: map<nat, nat>, ops: map<nat, Call>)
    requires ClaimsOk(b, claims, ops) && ops == map[]
    ensures claims == map[]
  {
    assert forall d :: d in claims ==> claims[d] in ops;
    assert claims.Keys == {};
  }

  lemma QuietTag(s: State, b: nat)
    requires PoolsOk(s) && s.ops == map[] && b in s.tags && TagOk(s, b)
    ensures QuietMessage(s, b)
  {
    var phase := s.tags[b].phase;
    NoCallsNoClaims(b, phase.claims, s.ops);
    assert phase.owed + phase.claims.Keys == phase.owed;
  }

  /** When no call is in flight, the blocks in use are exactly the live messages, and the count of each
      is the number of its recipients that have not consumed it. */
  lemma QuietState(s0: State, es: seq<Event>)
    requires Initial(s0) && Runs(s0, es) && After(s0, es).ops == map[]
    ensures var s := After(s0, es);
            s.messages.used == s.tags.Keys && forall b :: b in s.tags ==> QuietMessage(s, b)
  {
    var s := After(s0, es);
    ReachableGood(s0, es);
    forall b | b in s.tags ensures QuietMessage(s, b) {
      assert TagOk(s, b);
      QuietTag(s, b);
    }
  }

  /** In every reachable state each payload block in use belongs to exactly one message in use, and no
      two messages that have a payload share it. */
  lemma PayloadOwnership(s0: State, es: seq<Event>)
    requires Initial(s0) && Runs(s0, es)
    ensures var s := After(s0, es);
            && (forall p :: p in s.payloads.used <==> p in s.owner)
            && (forall p :: p in s.owner ==> s.owner[p] in s.messages.used && MessageAt(s, s.owner[p]).payload == Some(p))
            && (forall p, q :: p in s.owner && q in s.owner && s.owner[p] == s.owner[q] ==> p == q)
            && (forall b :: b in s.tags && s.tags[b].phase.Live? && MessageAt(s, b).payload.Some? ==>
                MessageAt(s, b).payload.value in s.owner && s.owner[MessageAt(s, b).payload.value] == b)
  {
    var s := After(s0, es);
    ReachableGood(s0, es);
    forall p | p in s.owner ensures s.owner[p] in s.messages.used && MessageAt(s, s.owner[p]).payload == Some(p) {
      assert OwnerOk(s, p);
    }
    forall b | b in s.tags && s.tags[b].phase.Live? && MessageAt(s, b).payload.Some?
      ensures MessageAt(s, b).payload.value in s.owner && s.owner[MessageAt(s, b).payload.value] == b
    {
      assert TagOk(s, b);
    }
    hide Good, Inv;
  }

  // ---------------------------------------------------------------- the pools

  ghost predicate SameBlocks(s: State, s': State) {
    s'.messages.Blocks() == s.messages.Blocks() && s'.payloads.Blocks() == s.payloads.Blocks()
  }

  lemma AllocationKeepsBlocks(s: State, t: nat, choice: nat)
    requires Enabled(s, Step(t, choice))
    ensures s.ops[t].at.AllocateMessage? ==> SameBlocks(s, AllocateMessageStep(s, t, s.ops[t], choice))
    ensures s.ops[t].at.AllocatePayload? ==> SameBlocks(s, AllocatePayloadStep(s, t, s.ops[t], choice))
  {
    hide IdOf, MessageAt;
  }

  lemma UndoKeepsBlocks(s: State, t: nat)
    requires t in s.ops
    ensures SameBlocks(s, UndoStep(s, t, s.ops[t]))
  {
    hide IdOf, AfterCreate;
  }

  lemma ReleasePayloadKeepsBlocks(s: State, t: nat)
    requires t in s.ops
    ensures SameBlocks(s, ReleasePayloadStep(s, t, s.ops[t]))
  {
    hide IdOf, MessageAt;
  }

  lemma ReleaseMessageKeepsBlocks(s: State, t: nat)
    requires t in s.ops
    ensures SameBlocks(s, ReleaseMessageStep(s, t, s.ops[t]))
  {
    hide IdOf, Get;
  }

  lemma ReleaseKeepsBlocks(s: State, t: nat)
    requires t in s.ops
    ensures SameBlocks(s, UndoStep(s, t, s.ops[t]))
    ensures SameBlocks(s, ReleasePayloadStep(s, t, s.ops[t]))
    ensures SameBlocks(s, ReleaseMessageStep(s, t, s.ops[t]))
  {
    hide UndoStep, ReleasePayloadStep, ReleaseMessageStep, SameBlocks;
    UndoKeepsBlocks(s, t);
    ReleasePayloadKeepsBlocks(s, t);
    ReleaseMessageKeepsBlocks(s, t);
  }

  lemma CreateLeavesPools(s: State, t: nat)
    requires t in s.ops
    ensures SameBlocks(s, ReadRequestStep(s, t, s.ops[t]))
    ensures SameBlocks(s, FillHeaderStep(s, t, s.ops[t]))
    ensures SameBlocks(s, CopyPayloadStep(s, t, s.ops[t]))
    ensures SameBlocks(s, ClearPayloadStep(s, t, s.ops[t]))
    ensures SameBlocks(s, SetCountStep(s, t, s.ops[t]))
  {
    hide IdOf, MessageAt, PopCount, SourceBytes, Overwrite;
  }

  lemma ConsumeLeavesPools(s: State, t: nat)
    requires t in s.ops
    ensures SameBlocks(s, DecrementStep(s, t, s.ops[t]))
    ensures SameBlocks(s, ForgetPayloadStep(s, t, s.ops[t]))
    ensures SameBlocks(s, ReturnStep(s, t, s.ops[t]))
  {
    hide IdOf, MessageAt, CountMinusOne, Bits;
  }

  lemma CreateKeepsBlocks(s: State, t: nat, choice: nat)
    requires Enabled(s, Step(t, choice)) && !s.ops[t].at.Created()
    ensures SameBlocks(s, CreateOp(s, t, s.ops[t], choice))
  {
    AllocationKeepsBlocks(s, t, choice);
    ReleaseKeepsBlocks(s, t);
    CreateLeavesPools(s, t);
    hide SameBlocks, ReadRequestStep, AllocateMessageStep, FillHeaderStep, AllocatePayloadStep, UndoStep, CopyPayloadStep,
         ClearPayloadStep, SetCountStep;
  }

  lemma ConsumeKeepsBlocks(s: State, t: nat)
    requires t in s.ops && s.ops[t].at.Created()
    ensures SameBlocks(s, ConsumeOp(s, t, s.ops[t]))
  {
    ReleaseKeepsBlocks(s, t);
    ConsumeLeavesPools(s, t);
    hide SameBlocks, DecrementStep, ReleasePayloadStep, ForgetPayloadStep, ReleaseMessageStep, ReturnStep;
  }

  lemma StepKeepsBlocks(s: State, t: nat, choice: nat)
    requires Enabled(s, Step(t, choice))
    ensures SameBlocks(s, StepOp(s, t, choice))
  {
    hide CreateOp, ConsumeOp, SameBlocks;
    if s.ops[t].at.Created() {
      ConsumeKeepsBlocks(s, t);
    } else {
      CreateKeepsBlocks(s, t, choice);
    }
  }

  /** No block is ever lost or gained: free and used blocks together stay the ones the pools began with. */
  lemma {:induction false} BlocksAreConserved(s: State, es: seq<Event>)
    requires Inv(s) && Runs(s, es)
    ensures var s' := After(s, es);
            && s'.messages.Blocks() == s.messages.Blocks() && s'.payloads.Blocks() == s.payloads.Blocks()
            && s'.messages.free !! s'.messages.used && s'.payloads.free !! s'.payloads.used
    decreases |es|
  {
    if es == [] {
      assert PoolsOk(s);
    } else {
      var e := es[0];
      ApplyKeeps(s, e);
      if e.Step? {
        StepKeepsBlocks(s, e.op, e.choice);
      }
      BlocksAreConserved(Apply(s, e), es[1..]);
    }
  }

  /** A run that ends with no call in flight and no message still owed to anyone leaves both pools
      exactly as it found them. */
  lemma Drain(s0: State, es: seq<Event>)
    requires Initial(s0) && Runs(s0, es)
    requires After(s0, es).ops == map[] && forall share :: !Owed(After(s0, es), share)
    ensures After(s0, es).messages == s0.messages && After(s0, es).payloads == s0.payloads
  {
    var s := After(s0, es);
    QuietState(s0, es);
    PayloadOwnership(s0, es);
    InitialInv(s0);
    BlocksAreConserved(s0, es);
    forall b ensures b !in s.tags {
      if b in s.tags {
        assert QuietMessage(s, b);
        var d :| d in s.tags[b].phase.owed;
        assert Owed(s, Share(b, d));
      }
    }
    assert s.messages.used == {} && s.payloads.used == {};
  }

  // ---------------------------------------------------------------- exactly once

  /** Over any run and for every message ever allocated: while its block is in use nobody has released
      it; once it is gone it was released exactly once, its payload block too if it had one, and if it
      had been passed on exactly one call saw itself as its last recipient. */
  lemma ExactlyOnce(s0: State, es: seq<Event>, id: nat)
    requires Initial(s0) && Runs(s0, es) && id < After(s0, es).past.nextId
    ensures var s := After(s0, es);
            && (Allocated(s.tags, id) ==> s.past.messageFrees[id] == 0 && s.past.lasts[id] <= 1 && s.past.payloadFrees[id] <= 1)
            && (!Allocated(s.tags, id) ==> GoneOk(s.past, id))
  {
    var s := After(s0, es);
    ReachableGood(s0, es);
    if Allocated(s.tags, id) {
      var b :| b in s.tags && s.tags[b].id == id;
      assert EntryOk(s.tags[b], s.ops, s.past);
    }
  }

  // ---------------------------------------------------------------- isolation

  /** Every message that is still there is the same message, and if it had been passed on, with the
      same header and the same payload. */
  ghost predicate Evolves(s: State, s': State) {
    && s.past.nextId <= s'.past.nextId
    && forall b :: b in s'.tags && s'.tags[b].id < s.past.nextId ==> b in s.tags && Follows(s.tags[b], s'.tags[b])
  }

  lemma ReadRequestEvolves(s: State, t: nat)
    requires Inv(s) && t in s.ops
    ensures Evolves(s, ReadRequestStep(s, t, s.ops[t]))
  {
    hide Inv, MessageAt;
  }

  lemma AllocateMessageEvolves(s: State, t: nat, choice: nat)
    requires Inv(s) && t in s.ops && choice in s.messages.free
    ensures Evolves(s, AllocateMessageStep(s, t, s.ops[t], choice))
  {
    hide Inv, MessageAt, CauseOf, Pool.Take;
  }

  lemma StepEvolves(s: State, t: nat, choice: nat)
    requires Inv(s) && Enabled(s, Step(t, choice))
    ensures Evolves(s, StepOp(s, t, choice))
  {
    assert OpOk(s, t) && PoolsOk(s);
    hide Inv, OpOk, PoolsOk, ConsumeOp, ReadRequestStep, AllocateMessageStep, Settles, Evolves;
    if Settling(s, s.ops[t]) {
      hide StepOp;
      StepSettles(s, t, choice);
      SettlesEvolves(s, StepOp(s, t, choice), t);
    } else if s.ops[t].at.ReadRequest? {
      ReadRequestEvolves(s, t);
    } else {
      AllocateMessageEvolves(s, t, choice);
    }
  }

  lemma SettlesEvolves(s: State, s': State, t: nat)
    requires Settles(s, s', t)
    ensures Evolves(s, s')
  {
    hide Follows;
  }

  lemma ApplyEvolves(s: State, e: Event)
    requires Inv(s) && Enabled(s, e)
    ensures Evolves(s, Apply(s, e))
  {
    hide Inv, StepOp;
    if e.Step? {
      StepEvolves(s, e.op, e.choice);
    }
  }

  lemma {:induction false} RunEvolves(s: State, es: seq<Event>)
    requires Inv(s) && Runs(s, es)
    ensures Evolves(s, After(s, es))
    decreases |es|
  {
    hide Inv, Apply, Enabled;
    if es != [] {
      ApplyKeeps(s, es[0]);
      ApplyEvolves(s, es[0]);
      RunEvolves(Apply(s, es[0]), es[1..]);
    }
  }

  /** What a recipient reads in the message in block `b`. */
  function View(s: State, b: nat): (Message, seq<Byte>) {
    var m := MessageAt(s, b);
    (m.(count := 0), BytesAt(m.payload, m.payloadSize, s.data))
  }

  /** From the moment its payload is copied, or it is passed on without one, until its last recipient
      consumes it, whoever reads a message reads the header its sender asked for and the bytes that were
      copied, whatever its sender does to its own memory and whatever other messages are created, answered
      and consumed meanwhile. */
  lemma Isolation(s0: State, before: seq<Event>, during: seq<Event>, b: nat)
    requires Initial(s0) && Runs(s0, before) && Runs(After(s0, before), during)
    requires var s, s' := After(s0, before), After(After(s0, before), during);
             && b in s.tags && (s.tags[b].phase.Live? || s.tags[b].bytes != [])
             && b in s'.tags && s'.tags[b].phase.Live? && s'.tags[b].id == s.tags[b].id
    ensures var s, s' := After(s0, before), After(After(s0, before), during);
            && HeaderOk(View(s', b).0, s.tags[b].draft) && View(s', b).0.payloadSize == |s.tags[b].bytes|
            && View(s', b).1 == s.tags[b].bytes
  {
    var s, s' := After(s0, before), After(After(s0, before), during);
    ReachableGood(s0, before);
    assert Ledger(s.tags, s.ops, s.past);
    assert EntryOk(s.tags[b], s.ops, s.past);
    RunKeeps(s, during);
    RunEvolves(s, during);
    assert TagOk(s', b);
    hide Inv, Ledger, Replies, PendingOk, ClaimsOk;
  }

  /** The bytes a message is created with are the bytes its payload pointer leads to when they are copied. */
  lemma CopyTakesSenderBytes(s: State, t: nat)
    requires Inv(s) && t in s.ops && s.ops[t].at.CopyPayload?
    ensures SourceReady(s, s.ops[t], Source(s, t))
    ensures var s', b := StepOp(s, t, 0), Get(s.ops[t].built);
            b in s'.tags && s'.tags[b].bytes == View(s', b).1 == Source(s, t) && Source(s, t) != []
  {
    hide StepOp, CopyPayloadStep, SourceBytes, MessageAt, BytesAt;
    SourceIsThere(s, t);
    assert |Source(s, t)| == s.ops[t].draft.size;
    CopyPayloadKeeps(s, t);
    assert OpOk(s, t);
    hide Inv, OpOk, SourceReady;
    CopyLeaves(s, t);
    StepIsCopy(s, t);
  }

  lemma StepIsCopy(s: State, t: nat)
    requires t in s.ops && s.ops[t].at.CopyPayload?
    ensures StepOp(s, t, 0) == CopyPayloadStep(s, t, s.ops[t])
  {
    hide CopyPayloadStep;
  }

  lemma CopyLeaves(s: State, t: nat)
    requires t in s.ops && s.ops[t].at.CopyPayload? && OpOk(s, t) && Inv(CopyPayloadStep(s, t, s.ops[t]))
    ensures var s', b := CopyPayloadStep(s, t, s.ops[t]), Get(s.ops[t].built);
            b in s'.tags && s'.tags[b].bytes == View(s', b).1 == Source(s, t)
    ensures |Source(s, t)| == s.ops[t].draft.size ==> Source(s, t) != []
  {
    assert OpOk(CopyPayloadStep(s, t, s.ops[t]), t);
    hide Inv, SourceBytes, HeaderOk, CountOk, Lends, Readable, FreeOk, Claimed, Mask;
  }

  /** From end to end: every recipient of a message with a payload reads the bytes that the payload pointer led
      to at the moment create_message copied them. They are all there: in the sender's memory, or, for a reply
      that passes back the payload of its request, in what the request was created with. */
  lemma ReadersSeeSenderBytes(s0: State, before: seq<Event>, t: nat, during: seq<Event>)
    requires Initial(s0) && Runs(s0, before)
    requires var s := After(s0, before);
             && t in s.ops && s.ops[t].at.CopyPayload? && Runs(StepOp(s, t, 0), during)
    ensures var s := After(s0, before);
            var s1, b := StepOp(s, t, 0), Get(s.ops[t].built);
            var s' := After(s1, during);
            && SourceReady(s, s.ops[t], Source(s, t)) && b in s1.tags
            && (b in s'.tags && s'.tags[b].phase.Live? && s'.tags[b].id == s1.tags[b].id ==>
                View(s', b).1 == Source(s, t))
  {
    var s := After(s0, before);
    hide Inv, Good, StepOp, SourceBytes, SourceReady, View;
    GoodIsInv(s0, before);
    CopyTakesSenderBytes(s, t);
    CopyApplies(s, t);
    RunsThen(s0, before, Step(t, 0));
    var s1, b := StepOp(s, t, 0), Get(s.ops[t].built);
    hide *;
    if b in After(s1, during).tags && After(s1, during).tags[b].phase.Live? && After(s1, during).tags[b].id == s1.tags[b].id {
      Isolation(s0, before + [Step(t, 0)], during, b);
    }
  }

  lemma GoodIsInv(s0: State, es: seq<Event>)
    requires Initial(s0) && Runs(s0, es)
    ensures Inv(After(s0, es))
  {
    ReachableGood(s0, es);
    hide Inv, Ledger, Replies;
  }

  lemma CopyApplies(s: State, t: nat)
    requires t in s.ops && s.ops[t].at.CopyPayload?
    ensures Enabled(s, Step(t, 0)) && Apply(s, Step(t, 0)) == StepOp(s, t, 0)
  {
    hide StepOp;
  }

  lemma {:induction false} RunsThen(s: State, es: seq<Event>, e: Event)
    requires Runs(s, es) && Enabled(After(s, es), e)
    ensures Runs(s, es + [e]) && After(s, es + [e]) == Apply(After(s, es), e)
    decreases |es|
  {
    hide Enabled, Apply;
    if es == [] {
      assert [] + [e] == [e];
      assert [e][1..] == [];
    } else {
      RunsThen(Apply(s, es[0]), es[1..], e);
      assert (es + [e])[1..] == es[1..] + [e];
    }
  }

  // ---------------------------------------------------------------- counts, and calls that end

  /** In every reachable state, calls in flight or not, the message blocks in use are the ones on record,
      and the count of a message that was passed on is the number of its recipients that have not counted
      down yet: those that have not called back, and those whose call has not come to it. */
  lemma CountIsPending(s0: State, es: seq<Event>, b: nat)
    requires Initial(s0) && Runs(s0, es)
    requires b in After(s0, es).tags && After(s0, es).tags[b].phase.Live?
    ensures var s, tag := After(s0, es), After(s0, es).tags[b];
            && s.messages.used == s.tags.Keys && b in s.mem
            && tag.phase.owed !! tag.phase.claims.Keys && tag.phase.owed + tag.phase.claims.Keys <= Bits(tag.draft.dest)
            && s.mem[b].count == |tag.phase.owed + tag.phase.claims.Keys| > 0
  {
    ReachableGood(s0, es);
    assert TagOk(After(s0, es), b);
    hide Replies, Ledger, Bits;
  }

  /** How many more steps a call takes at most. */
  function Rank(at: Line): nat {
    match at
    case ReadRequest => 11
    case AllocateMessage => 10
    case FillHeader => 9
    case AllocatePayload => 8
    case Undo => 7
    case CopyPayload => 7
    case ClearPayload => 7
    case SetCount => 6
    case Decrement => 5
    case ReleasePayload => 4
    case ForgetPayload => 3
    case ReleaseMessage => 2
    case Return => 1
  }

  function RankOf(ops: map<nat, Call>, t: nat): nat {
    if t in ops then Rank(ops[t].at) else 0
  }

  /** The call goes on towards its end, with the arguments it was made with. Only from the message that it answers
      does it take up the addresses and the kind. */
  predicate GoesOn(call: Call, call': Call) {
    && Rank(call'.at) < Rank(call.at)
    && call'.draft.info == call.draft.info && call'.draft.buffer == call.draft.buffer && call'.draft.size == call.draft.size
    && (!call.at.ReadRequest? ==> call'.draft == call.draft)
  }

  /** A step of call `u` brings it nearer its end, and leaves the other calls where they are. */
  ghost predicate Moves(ops: map<nat, Call>, ops': map<nat, Call>, u: nat) {
    && (u in ops && u in ops' ==> GoesOn(ops[u], ops'[u]))
    && (forall t :: t != u ==> (t in ops' <==> t in ops) && (t in ops ==> ops'[t] == ops[t]))
  }

  /** The same without quantifiers: the call is gone, or its entry alone is replaced. */
  predicate Progress(ops: map<nat, Call>, ops': map<nat, Call>, u: nat) {
    || ops' == ops - {u}
    || (u in ops && u in ops' && ops' == ops[u := ops'[u]] && GoesOn(ops[u], ops'[u]))
  }

  lemma ProgressMoves(ops: map<nat, Call>, ops': map<nat, Call>, u: nat)
    requires u in ops && Progress(ops, ops', u)
    ensures Moves(ops, ops', u)
  {
  }

  lemma RefusedMoves(s: State, u: nat, choice: nat)
    requires u in s.ops && s.ops[u].at.AllocateMessage? && (s.ops[u].draft.size > MAX_PAYLOAD || s.messages.free == {})
    ensures Progress(s.ops, AllocateMessageStep(s, u, s.ops[u], choice).ops, u)
  {
    hide Pool.Take, CauseOf;
  }

  lemma TakingMoves(s: State, u: nat, choice: nat)
    requires u in s.ops && s.ops[u].at.AllocateMessage? && !(s.ops[u].draft.size > MAX_PAYLOAD || s.messages.free == {})
    ensures Progress(s.ops, AllocateMessageStep(s, u, s.ops[u], choice).ops, u)
  {
    hide Pool.Take, CauseOf;
  }

  lemma AllocateMessageMoves(s: State, u: nat, choice: nat)
    requires u in s.ops && s.ops[u].at.AllocateMessage?
    ensures Progress(s.ops, AllocateMessageStep(s, u, s.ops[u], choice).ops, u)
  {
    hide AllocateMessageStep, Progress;
    if s.ops[u].draft.size > MAX_PAYLOAD || s.messages.free == {} {
      RefusedMoves(s, u, choice);
    } else {
      TakingMoves(s, u, choice);
    }
  }

  lemma AllocatePayloadMoves(s: State, u: nat, choice: nat)
    requires u in s.ops && s.ops[u].at.AllocatePayload?
    ensures Progress(s.ops, AllocatePayloadStep(s, u, s.ops[u], choice).ops, u)
  {
    hide Pool.Take, MessageAt, IdOf, Get;
  }

  lemma FillingMoves(s: State, u: nat)
    requires u in s.ops
    ensures s.ops[u].at.ReadRequest? ==> Progress(s.ops, ReadRequestStep(s, u, s.ops[u]).ops, u)
    ensures s.ops[u].at.FillHeader? ==> Progress(s.ops, FillHeaderStep(s, u, s.ops[u]).ops, u)
    ensures s.ops[u].at.Undo? ==> Progress(s.ops, UndoStep(s, u, s.ops[u]).ops, u)
  {
    hide Pool.Give, MessageAt, IdOf;
  }

  lemma CopyingMoves(s: State, u: nat)
    requires u in s.ops
    ensures s.ops[u].at.CopyPayload? ==> Progress(s.ops, CopyPayloadStep(s, u, s.ops[u]).ops, u)
    ensures s.ops[u].at.ClearPayload? ==> Progress(s.ops, ClearPayloadStep(s, u, s.ops[u]).ops, u)
    ensures s.ops[u].at.SetCount? ==> Progress(s.ops, SetCountStep(s, u, s.ops[u]).ops, u)
  {
    hide MessageAt, SourceBytes, Overwrite, PopCount;
  }

  lemma LastMoves(s: State, u: nat)
    requires u in s.ops && s.ops[u].at.Decrement?
    ensures Progress(s.ops, DecrementLastStep(s, u, s.ops[u]).ops, u)
  {
    hide IdOf, CountMinusOne, MessageAt;
  }

  lemma OtherMoves(s: State, u: nat)
    requires u in s.ops && s.ops[u].at.Decrement?
    ensures Progress(s.ops, DecrementOtherStep(s, u, s.ops[u]).ops, u)
  {
    hide Spend, CountMinusOne, MessageAt;
  }

  lemma CountingMoves(s: State, u: nat)
    requires u in s.ops && s.ops[u].at.Decrement?
    ensures Progress(s.ops, DecrementStep(s, u, s.ops[u]).ops, u)
  {
    hide Progress, DecrementLastStep, DecrementOtherStep;
    LastMoves(s, u);
    OtherMoves(s, u);
  }

  lemma GivingMoves(s: State, u: nat, p: nat)
    requires u in s.ops && s.ops[u].at.ReleasePayload?
    ensures Progress(s.ops, GivePayloadStep(s, u, s.ops[u], p).ops, u)
    ensures Progress(s.ops, Fail(s, u).ops, u)
  {
    hide Pool.Give, IdOf, Get;
  }

  lemma ReleasePayloadMoves(s: State, u: nat)
    requires u in s.ops && s.ops[u].at.ReleasePayload?
    ensures Progress(s.ops, ReleasePayloadStep(s, u, s.ops[u]).ops, u)
  {
    hide GivePayloadStep, Fail, MessageAt;
    match MessageAt(s, Get(s.ops[u].last)).payload
    case None => {}
    case Some(p) => GivingMoves(s, u, p);
  }

  lemma ForgetPayloadMoves(s: State, u: nat)
    requires u in s.ops && s.ops[u].at.ForgetPayload?
    ensures Progress(s.ops, ForgetPayloadStep(s, u, s.ops[u]).ops, u)
  {
    hide MessageAt;
  }

  lemma LeavingMoves(s: State, u: nat)
    requires u in s.ops
    ensures s.ops[u].at.ReleaseMessage? ==> Progress(s.ops, ReleaseMessageStep(s, u, s.ops[u]).ops, u)
    ensures s.ops[u].at.Return? ==> Progress(s.ops, ReturnStep(s, u, s.ops[u]).ops, u)
  {
    hide Pool.Give, IdOf;
  }

  lemma CreateMoves(s: State, u: nat, choice: nat)
    requires u in s.ops && !s.ops[u].at.Created()
    ensures Moves(s.ops, CreateOp(s, u, s.ops[u], choice).ops, u)
  {
    hide Moves, Progress, AllocateMessageStep, AllocatePayloadStep, ReadRequestStep, FillHeaderStep, UndoStep, CopyPayloadStep,
         ClearPayloadStep, SetCountStep;
    if s.ops[u].at.AllocateMessage? {
      AllocateMessageMoves(s, u, choice);
    } else if s.ops[u].at.AllocatePayload? {
      AllocatePayloadMoves(s, u, choice);
    }
    FillingMoves(s, u);
    CopyingMoves(s, u);
    ProgressMoves(s.ops, CreateOp(s, u, s.ops[u], choice).ops, u);
  }

  lemma ConsumeMoves(s: State, u: nat)
    requires u in s.ops && s.ops[u].at.Created()
    ensures Moves(s.ops, ConsumeOp(s, u, s.ops[u]).ops, u)
  {
    hide Moves, Progress, DecrementStep, ReleasePayloadStep, ForgetPayloadStep, ReleaseMessageStep, ReturnStep;
    if s.ops[u].at.Decrement? {
      CountingMoves(s, u);
    } else if s.ops[u].at.ReleasePayload? {
      ReleasePayloadMoves(s, u);
    } else if s.ops[u].at.ForgetPayload? {
      ForgetPayloadMoves(s, u);
    }
    LeavingMoves(s, u);
    ProgressMoves(s.ops, ConsumeOp(s, u, s.ops[u]).ops, u);
  }

  /** The event starts a call `t`. */
  predicate Starts(e: Event, t: nat) {
    (e.Send? || e.Consume? || e.Respond?) && e.op == t
  }

  function OwnSteps(es: seq<Event>, t: nat): nat {
    if es == [] then 0 else (if es[0].Step? && es[0].op == t then 1 else 0) + OwnSteps(es[1..], t)
  }

  lemma EventRanks(s: State, e: Event, t: nat)
    requires Enabled(s, e) && !Starts(e, t)
    ensures RankOf(Apply(s, e).ops, t) + (if e.Step? && e.op == t then 1 else 0) <= RankOf(s.ops, t)
  {
    if e.Step? {
      if s.ops[e.op].at.Created() {
        ConsumeMoves(s, e.op);
      } else {
        CreateMoves(s, e.op, e.choice);
      }
      hide CreateOp, ConsumeOp;
    }
  }

  /** Every call ends after at most eleven steps of its own, whatever the other calls do and however full
      the pools are. */
  lemma {:induction false} CallsEnd(s: State, es: seq<Event>, t: nat)
    requires Runs(s, es) && forall e :: e in es ==> !Starts(e, t)
    ensures OwnSteps(es, t) + RankOf(After(s, es).ops, t) <= RankOf(s.ops, t) <= 11
    decreases |es|
  {
    if es != [] {
      assert es[0] in es;
      EventRanks(s, es[0], t);
      assert forall e :: e in es[1..] ==> e in es;
      CallsEnd(Apply(s, es[0]), es[1..], t);
    }
    hide Enabled, Apply;
  }

  /** And no step ever has to wait. */
  lemma NeverBlocked(s: State, t: nat)
    requires t in s.ops
    ensures exists choice :: Enabled(s, Step(t, choice))
  {
    if s.ops[t].at.AllocateMessage? && s.messages.free != {} {
      var choice :| choice in s.messages.free;
      assert Enabled(s, Step(t, choice));
    } else if s.ops[t].at.AllocatePayload? && s.payloads.free != {} {
      var choice :| choice in s.payloads.free;
      assert Enabled(s, Step(t, choice));
    } else {
      assert Enabled(s, Step(t, 0));
    }
  }

  // ---------------------------------------------------------------- what becomes of a call's arguments

  lemma EventGoesOn(s: State, e: Event, t: nat)
    requires Enabled(s, e) && t in s.ops && t in Apply(s, e).ops
    ensures Apply(s, e).ops[t] == s.ops[t] || GoesOn(s.ops[t], Apply(s, e).ops[t])
  {
    if e.Step? {
      if s.ops[e.op].at.Created() {
        ConsumeMoves(s, e.op);
      } else {
        CreateMoves(s, e.op, e.choice);
      }
      hide CreateOp, ConsumeOp, GoesOn;
    }
  }

  lemma EventEnds(s: State, e: Event, t: nat)
    requires Enabled(s, e) && t !in s.ops && !Starts(e, t)
    ensures t !in Apply(s, e).ops
  {
    hide Apply, Enabled, Rank;
    EventRanks(s, e, t);
    RankIsPositive(Apply(s, e).ops, t);
  }

  lemma RankIsPositive(ops: map<nat, Call>, t: nat)
    ensures RankOf(ops, t) == 0 <==> t !in ops
  {
  }

  lemma {:induction false} StaysEnded(s: State, es: seq<Event>, t: nat)
    requires Runs(s, es) && t !in s.ops && forall e :: e in es ==> !Starts(e, t)
    ensures t !in After(s, es).ops
    decreases |es|
  {
    hide Enabled, Apply;
    if es != [] {
      assert es[0] in es;
      EventEnds(s, es[0], t);
      assert forall e :: e in es[1..] ==> e in es;
      StaysEnded(Apply(s, es[0]), es[1..], t);
    }
  }

  /** The same call later on: with the same arguments, and once its draft is complete, with the same draft. */
  predicate SameCall(call: Call, call': Call) {
    && call'.draft.info == call.draft.info && call'.draft.buffer == call.draft.buffer && call'.draft.size == call.draft.size
    && (!call.at.ReadRequest? ==> !call'.at.ReadRequest? && call'.draft == call.draft)
  }

  lemma {:induction false} KeepsArguments(s: State, es: seq<Event>, t: nat)
    requires Runs(s, es) && t in s.ops && forall e :: e in es ==> !Starts(e, t)
    ensures t in After(s, es).ops ==> SameCall(s.ops[t], After(s, es).ops[t])
    decreases |es|
  {
    hide Enabled, Apply;
    if es != [] {
      var s1 := Apply(s, es[0]);
      assert es[0] in es;
      assert forall e :: e in es[1..] ==> e in es;
      if t in s1.ops {
        EventGoesOn(s, es[0], t);
        KeepsArguments(s1, es[1..], t);
      } else {
        StaysEnded(s1, es[1..], t);
      }
    }
  }

  /** A message with the info it was asked to have, and with a payload of its own exactly if it was asked to have
      one. */
  ghost predicate HasArguments(m: Message, info: bv16, buffer: Option<Memory>, size: nat) {
    && m.info == info
    && if size != 0 && buffer.Some? then m.payload.Some? && m.payloadSize == size
       else m.payload.None? && m.payloadSize == 0
  }

  /** A call on its way with the arguments `info`, `buffer` and `size`: it asks the payload pool for a block exactly
      if there is something to copy, and the message that it builds is to have these arguments, and has them once
      it is built. */
  ghost predicate WithArguments(s: State, call: Call, info: bv16, buffer: Option<Memory>, size: nat) {
    && (call.at.AllocatePayload? || call.at.Undo? || call.at.CopyPayload? ==> size != 0 && buffer.Some?)
    && (call.at.ClearPayload? ==> size == 0 || buffer.None?)
    && (call.built.Some? ==>
          var b := call.built.value;
          && b in s.tags && b in s.mem
          && s.tags[b].draft.info == info && s.tags[b].draft.buffer == buffer && s.tags[b].draft.size == size
          && (call.at.SetCount? || call.at.Created() ==> HasArguments(s.mem[b], info, buffer, size)))
  }

  lemma CallHasArguments(s: State, t: nat)
    requires Inv(s) && t in s.ops
    ensures WithArguments(s, s.ops[t], s.ops[t].draft.info, s.ops[t].draft.buffer, s.ops[t].draft.size)
  {
    assert PoolsOk(s) && OpOk(s, t);
    hide Inv, Lends, Readable, FreeOk, Claimed, CountOk, Bits, BytesAt, Owns;
  }

  /** The call `t` of state `s'`, if it is under way there, carries these arguments, and whoever reads the message that
      it builds, in a state that a run `later` reaches, reads a message with these arguments. */
  ghost predicate Delivers(s': State, t: nat, info: bv16, buffer: Option<Memory>, size: nat, later: seq<Event>)
    requires Runs(s', later)
  {
    t in s'.ops ==>
      && WithArguments(s', s'.ops[t], info, buffer, size)
      && var built, s'' := s'.ops[t].built, After(s', later);
         built.Some? && built.value in s''.tags && s''.tags[built.value].phase.Live?
         && s''.tags[built.value].id == IdOf(s', built.value) ==>
           HasArguments(View(s'', built.value).0, info, buffer, size)
  }

  /** A call that answers a share carries the info, the payload pointer and the size it was made with to its end,
      whatever other calls do meanwhile, and its reply has them as long as it is there. */
  lemma AnswerCarriesArguments(s0: State, before: seq<Event>, t: nat, share: Share, info: bv16, buffer: Option<Memory>,
                               size: nat, during: seq<Event>, later: seq<Event>)
    requires Initial(s0) && Runs(s0, before) && Enabled(After(s0, before), Respond(t, share, info, buffer, size))
    requires var s1 := Apply(After(s0, before), Respond(t, share, info, buffer, size));
             Runs(s1, during) && Runs(After(s1, during), later)
    requires forall d :: d in during ==> !Starts(d, t)
    ensures var s1 := Apply(After(s0, before), Respond(t, share, info, buffer, size));
            Delivers(After(s1, during), t, info, buffer, size, later)
  {
    var e := Respond(t, share, info, buffer, size);
    var s1 := Apply(After(s0, before), e);
    assert t in s1.ops && s1.ops[t].draft.info == info && s1.ops[t].draft.buffer == buffer && s1.ops[t].draft.size == size;
    hide *;
    GoodGoesOn(s0, before, e);
    CallDelivers(s1, t, during, later);
  }

  /** And so does a call that sends a message, which has the draft it was asked for throughout. */
  lemma SendCarriesArguments(s0: State, before: seq<Event>, t: nat, draft: Draft, during: seq<Event>, later: seq<Event>)
    requires Initial(s0) && Runs(s0, before) && Enabled(After(s0, before), Send(t, draft))
    requires var s1 := Apply(After(s0, before), Send(t, draft)); Runs(s1, during) && Runs(After(s1, during), later)
    requires forall d :: d in during ==> !Starts(d, t)
    ensures var s' := After(Apply(After(s0, before), Send(t, draft)), during);
            && Delivers(s', t, draft.info, draft.buffer, draft.size, later)
            && (t in s'.ops ==> s'.ops[t].draft == draft)
            && (t in s'.ops && s'.ops[t].built.Some? ==>
                  s'.ops[t].built.value in s'.tags && s'.tags[s'.ops[t].built.value].draft == draft)
  {
    var e := Send(t, draft);
    var s1 := Apply(After(s0, before), e);
    assert t in s1.ops && s1.ops[t].draft == draft && s1.ops[t].at.AllocateMessage?;
    hide *;
    GoodGoesOn(s0, before, e);
    CallDelivers(s1, t, during, later);
    KeepsArguments(s1, during, t);
  }

  lemma GoodGoesOn(s0: State, before: seq<Event>, e: Event)
    requires Initial(s0) && Runs(s0, before) && Enabled(After(s0, before), e)
    ensures Good(Apply(After(s0, before), e))
  {
    hide Good, Enabled, Apply, Initial;
    ReachableGood(s0, before);
    ApplyGood(After(s0, before), e);
  }

  lemma CallDelivers(s1: State, t: nat, during: seq<Event>, later: seq<Event>)
    requires Good(s1) && t in s1.ops && Runs(s1, during) && Runs(After(s1, during), later)
    requires forall d :: d in during ==> !Starts(d, t)
    ensures var draft := s1.ops[t].draft;
            Delivers(After(s1, during), t, draft.info, draft.buffer, draft.size, later)
    ensures var s' := After(s1, during);
            t in s'.ops && s'.ops[t].built.Some? ==>
              s'.ops[t].built.value in s'.tags && s'.tags[s'.ops[t].built.value].draft == s'.ops[t].draft
  {
    hide Good, Enabled, Apply, HasArguments, View;
    RunGood(s1, during);
    KeepsArguments(s1, during, t);
    var s' := After(s1, during);
    if t in s'.ops {
      GoodHasArguments(s', t);
      if s'.ops[t].built.Some? {
        ArgumentsAreRead(s', later, s'.ops[t].built.value);
      }
    }
  }

  lemma GoodHasArguments(s: State, t: nat)
    requires Good(s) && t in s.ops
    ensures WithArguments(s, s.ops[t], s.ops[t].draft.info, s.ops[t].draft.buffer, s.ops[t].draft.size)
    ensures s.ops[t].built.Some? ==>
      s.ops[t].built.value in s.tags && s.tags[s.ops[t].built.value].draft == s.ops[t].draft
  {
    hide Inv, Ledger, Replies, WithArguments;
    CallHasArguments(s, t);
    BuildsItsDraft(s, t);
  }

  lemma BuildsItsDraft(s: State, t: nat)
    requires Inv(s) && t in s.ops
    ensures s.ops[t].built.Some? ==>
      s.ops[t].built.value in s.tags && s.tags[s.ops[t].built.value].draft == s.ops[t].draft
  {
    assert OpOk(s, t);
    hide Inv, Lends, Readable, FreeOk, Claimed, CountOk, Carries, HeaderOk, Owns;
  }

  /** A message that was passed on has the arguments of its draft, whatever happened since the draft was made. */
  lemma ArgumentsAreRead(s: State, later: seq<Event>, b: nat)
    requires Good(s) && b in s.tags && Runs(s, later)
    ensures var s', draft := After(s, later), s.tags[b].draft;
            b in s'.tags && s'.tags[b].phase.Live? && s'.tags[b].id == s.tags[b].id ==>
              HasArguments(View(s', b).0, draft.info, draft.buffer, draft.size)
  {
    assert Ledger(s.tags, s.ops, s.past);
    assert EntryOk(s.tags[b], s.ops, s.past);
    RunKeeps(s, later);
    RunEvolves(s, later);
    var s' := After(s, later);
    hide Good, Ledger, EntryOk, Replies;
    if b in s'.tags && s'.tags[b].phase.Live? && s'.tags[b].id == s.tags[b].id {
      LiveHasArguments(s', b);
    }
    hide Inv, HasArguments;
  }

  lemma LiveHasArguments(s: State, b: nat)
    requires Inv(s) && b in s.tags && s.tags[b].phase.Live?
    ensures var draft := s.tags[b].draft; HasArguments(View(s, b).0, draft.info, draft.buffer, draft.size)
  {
    assert TagOk(s, b);
    hide Inv, PendingOk, ClaimsOk, BytesAt, Bits;
  }
}
