/** Who answers whom. Every share is answered at most once, over any run, and a reply swaps source
    and destination, so answering an answer restores the original header. */
module FabricReplies {
  import opened FabricTypes
  import opened FabricSteps
  import opened FabricInvariant
  import opened FabricPreservation
  import opened FabricLedger
  import opened Masks
  import opened Wrappers

  /** A reply goes back where the request came from, and comes from where the request went. */
  ghost predicate Answers(reply: Draft, request: Draft) {
    reply.dest == request.src && reply.src == request.dest && reply.kind == request.kind
  }

  /** Recipient `bit` has used up its share of a message. */
  ghost predicate Spent(phase: Phase, bit: nat) {
    phase.Freeing? || (phase.Live? && bit !in phase.owed)
  }

  /** The request a message answers is older, and the share it answers was one of the request's. */
  ghost predicate CauseOk(past: History, i: nat)
    requires i in past.causes
  {
    var c := past.causes[i];
    && c.id < i && i in past.drafts && c.id in past.drafts
    && c.bit in Bits(past.drafts[c.id].dest)
    && Answers(past.drafts[i], past.drafts[c.id])
  }

  ghost predicate SharesSpent(tags: map<nat, Tag>, past: History) {
    forall i, b :: i in past.causes && b in tags && tags[b].id == past.causes[i].id ==> Spent(tags[b].phase, past.causes[i].bit)
  }

  /** Call `t` is on its way to create the reply to the share it holds. */
  predicate Early(call: Call) {
    call.share.Some? && (call.at.ReadRequest? || call.at.AllocateMessage?)
  }

  /** A call about to create a reply is the first to answer its share, and swaps the header. */
  ghost predicate EarlyOk(tags: map<nat, Tag>, past: History, call: Call) {
    Early(call) ==>
      var share := call.share.value;
      && share.block in tags
      && (forall i :: i in past.causes ==> past.causes[i] != Cause(tags[share.block].id, share.bit))
      && (call.at.AllocateMessage? ==> Answers(call.draft, tags[share.block].draft))
  }

  ghost predicate Replies(s: State) {
    && (forall i, j :: i in s.past.causes && j in s.past.causes && s.past.causes[i] == s.past.causes[j] ==> i == j)
    && (forall i :: i in s.past.causes ==> CauseOk(s.past, i))
    && SharesSpent(s.tags, s.past)
    && (forall t :: t in s.ops ==> EarlyOk(s.tags, s.past, s.ops[t]))
  }

  /** How the bookkeeping of a block may change without giving a share back. */
  ghost predicate Onwards(p: Phase, p': Phase) {
    p' == p || p'.Freeing? || p.Building? || (p.Live? && p'.Live? && p'.owed <= p.owed)
  }

  /** The same message further on. Once its payload is copied, or it is passed on without one, its bytes
      are settled. */
  ghost predicate Follows(tag: Tag, tag': Tag) {
    && tag'.id == tag.id && tag'.draft == tag.draft && Onwards(tag.phase, tag'.phase)
    && (tag'.bytes == tag.bytes || (tag.phase.Building? && tag.bytes == []))
  }

  /** A step of call `t` that creates no message, gives no share back, and does not set out to answer. */
  ghost predicate Settles(s: State, s': State, t: nat) {
    && s'.past.causes == s.past.causes && s'.past.drafts == s.past.drafts && s'.past.nextId == s.past.nextId
    && (forall b :: b in s'.tags ==> b in s.tags && Follows(s.tags[b], s'.tags[b]))
    && (forall b :: b in s.tags && b !in s'.tags ==> !s.tags[b].phase.Live?)
    && (forall u :: u in s'.ops && u != t ==> u in s.ops && s'.ops[u] == s.ops[u])
  }

  lemma SpentStays(s: State, s': State, t: nat)
    requires SharesSpent(s.tags, s.past) && Settles(s, s', t)
    ensures SharesSpent(s'.tags, s'.past)
  {
    forall i, b | i in s'.past.causes && b in s'.tags && s'.tags[b].id == s'.past.causes[i].id
      ensures Spent(s'.tags[b].phase, s'.past.causes[i].bit)
    {
      assert Spent(s.tags[b].phase, s.past.causes[i].bit);
    }
  }

  lemma EarlyStays(s: State, s': State, t: nat, u: nat)
    requires u in s.ops && u != t && OpOk(s, u) && EarlyOk(s.tags, s.past, s.ops[u]) && Settles(s, s', t)
    ensures EarlyOk(s'.tags, s'.past, s.ops[u])
  {
    hide BuildOk, FreeOk, Readable, Answers;
  }

  lemma RepliesFrame(s: State, s': State, t: nat)
    requires Inv(s) && Replies(s) && Settles(s, s', t)
    requires t in s'.ops ==> EarlyOk(s'.tags, s'.past, s'.ops[t])
    ensures Replies(s')
  {
    SpentStays(s, s', t);
    forall u | u in s'.ops ensures EarlyOk(s'.tags, s'.past, s'.ops[u]) {
      if u != t {
        EarlyStays(s, s', t, u);
      }
    }
    hide Inv, SharesSpent, EarlyOk;
    forall i | i in s'.past.causes ensures CauseOk(s'.past, i) {
      assert CauseOk(s.past, i);
    }
  }

  lemma ClaimSettles(s: State, t: nat, share: Share, call: Call)
    requires t !in s.ops && Owed(s, share)
    ensures Settles(s, ClaimStep(s, t, share, call), t)
  {
  }

  lemma ClaimIsFirst(s: State, t: nat, share: Share, call: Call)
    requires Replies(s) && Owed(s, share) && call.share == Some(share) && !call.at.AllocateMessage?
    ensures var s' := ClaimStep(s, t, share, call); EarlyOk(s'.tags, s'.past, call)
  {
    forall i | i in s.past.causes ensures s.past.causes[i] != Cause(s.tags[share.block].id, share.bit) {
      assert s.past.causes[i].id == s.tags[share.block].id ==> Spent(s.tags[share.block].phase, s.past.causes[i].bit);
    }
    hide Replies;
  }

  lemma ClaimReplies(s: State, t: nat, share: Share, call: Call)
    requires Inv(s) && Replies(s) && t !in s.ops && Owed(s, share)
    requires call.share == Some(share) && !call.at.AllocateMessage?
    ensures Replies(ClaimStep(s, t, share, call))
  {
    ClaimSettles(s, t, share, call);
    ClaimIsFirst(s, t, share, call);
    hide Inv, Replies, EarlyOk, Settles;
    RepliesFrame(s, ClaimStep(s, t, share, call), t);
  }

  lemma ReadRequestSettles(s: State, t: nat, call: Call)
    requires t in s.ops
    ensures Settles(s, ReadRequestStep(s, t, call), t)
  {
  }

  /** The header of the reply comes from the header of the request. */
  lemma ReadRequestSwaps(s: State, t: nat)
    requires t in s.ops && s.ops[t].at.ReadRequest? && OpOk(s, t) && EarlyOk(s.tags, s.past, s.ops[t])
    requires Counted(s, t) in s.tags && TagOk(s, Counted(s, t))
    ensures var s' := ReadRequestStep(s, t, s.ops[t]); EarlyOk(s'.tags, s'.past, s'.ops[t])
  {
    hide Carries, PendingOk, ClaimsOk, Readable;
  }

  lemma ReadRequestReplies(s: State, t: nat)
    requires Inv(s) && Replies(s) && t in s.ops && s.ops[t].at.ReadRequest?
    ensures Replies(ReadRequestStep(s, t, s.ops[t]))
  {
    assert OpOk(s, t) && EarlyOk(s.tags, s.past, s.ops[t]);
    assert TagOk(s, Counted(s, t));
    hide Inv, Replies, EarlyOk, Settles, TagOk;
    ReadRequestSettles(s, t, s.ops[t]);
    ReadRequestSwaps(s, t);
    RepliesFrame(s, ReadRequestStep(s, t, s.ops[t]), t);
  }

  // ---------------------------------------------------------------- the other steps settle things

  lemma FillHeaderSettles(s: State, t: nat, call: Call)
    requires t in s.ops
    ensures var s' := FillHeaderStep(s, t, call); Settles(s, s', t) && (t in s'.ops ==> !Early(s'.ops[t]))
  {
  }

  lemma AllocatePayloadSettles(s: State, t: nat, call: Call, choice: nat)
    requires t in s.ops
    ensures var s' := AllocatePayloadStep(s, t, call, choice); Settles(s, s', t) && (t in s'.ops ==> !Early(s'.ops[t]))
  {
    hide IdOf, MessageAt;
  }

  lemma UndoSettles(s: State, t: nat, call: Call)
    requires t in s.ops
    requires call.built.Some? && (call.built.value in s.tags ==> !s.tags[call.built.value].phase.Live?)
    ensures var s' := UndoStep(s, t, call); Settles(s, s', t) && (t in s'.ops ==> !Early(s'.ops[t]))
  {
  }

  lemma CopyPayloadSettles(s: State, t: nat, call: Call)
    requires t in s.ops && call.built.Some?
    requires call.built.value in s.tags ==> s.tags[call.built.value].phase.Building? && s.tags[call.built.value].bytes == []
    ensures var s' := CopyPayloadStep(s, t, call); Settles(s, s', t) && (t in s'.ops ==> !Early(s'.ops[t]))
  {
  }

  lemma ClearPayloadSettles(s: State, t: nat, call: Call)
    requires t in s.ops
    ensures var s' := ClearPayloadStep(s, t, call); Settles(s, s', t) && (t in s'.ops ==> !Early(s'.ops[t]))
  {
  }

  lemma SetCountSettles(s: State, t: nat, call: Call)
    requires t in s.ops
    ensures var s' := SetCountStep(s, t, call); Settles(s, s', t) && (t in s'.ops ==> !Early(s'.ops[t]))
  {
  }

  lemma DecrementLastSettles(s: State, t: nat, call: Call)
    requires t in s.ops
    ensures var s' := DecrementLastStep(s, t, call); Settles(s, s', t) && (t in s'.ops ==> !Early(s'.ops[t]))
  {
    hide CountMinusOne;
  }

  lemma DecrementOtherSettles(s: State, t: nat, call: Call)
    requires t in s.ops
    ensures var s' := DecrementOtherStep(s, t, call); Settles(s, s', t) && (t in s'.ops ==> !Early(s'.ops[t]))
  {
    hide CountMinusOne;
  }

  lemma GivePayloadSettles(s: State, t: nat, call: Call, p: nat)
    requires t in s.ops
    ensures var s' := GivePayloadStep(s, t, call, p); Settles(s, s', t) && (t in s'.ops ==> !Early(s'.ops[t]))
  {
  }

  lemma ReleasePayloadSettles(s: State, t: nat, call: Call)
    requires t in s.ops
    ensures var s' := ReleasePayloadStep(s, t, call); Settles(s, s', t) && (t in s'.ops ==> !Early(s'.ops[t]))
  {
    if MessageAt(s, Get(call.last)).payload.Some? {
      GivePayloadSettles(s, t, call, MessageAt(s, Get(call.last)).payload.value);
    }
    hide GivePayloadStep;
  }

  lemma ForgetPayloadSettles(s: State, t: nat, call: Call)
    requires t in s.ops
    ensures var s' := ForgetPayloadStep(s, t, call); Settles(s, s', t) && (t in s'.ops ==> !Early(s'.ops[t]))
  {
  }

  lemma ReleaseMessageSettles(s: State, t: nat, call: Call)
    requires t in s.ops
    requires call.last.Some? && (call.last.value in s.tags ==> !s.tags[call.last.value].phase.Live?)
    ensures var s' := ReleaseMessageStep(s, t, call); Settles(s, s', t) && (t in s'.ops ==> !Early(s'.ops[t]))
  {
    hide IdOf, MessageAt;
  }

  lemma ReturnSettles(s: State, t: nat, call: Call)
    requires t in s.ops
    requires call.built.Some? && call.built.value in s.tags ==> s.tags[call.built.value].phase.Building?
    ensures var s' := ReturnStep(s, t, call); Settles(s, s', t) && (t in s'.ops ==> !Early(s'.ops[t]))
  {
  }

  lemma RefuseSettles(s: State, t: nat, call: Call)
    requires t in s.ops
    ensures Settles(s, Goto(s, t, AfterCreate(call)), t) && !Early(AfterCreate(call))
  {
  }

  // ---------------------------------------------------------------- creating a reply

  /** What call `t` may rely on when it creates its reply: it holds a share of a live message that
      nothing has answered yet. */
  ghost predicate FirstReply(s: State, t: nat) {
    && t in s.ops && s.ops[t].share.Some?
    && var share := s.ops[t].share.value;
       && Claimed(s, t, share) && share.bit !in s.tags[share.block].phase.owed
       && share.bit in Bits(s.tags[share.block].draft.dest)
       && Answers(s.ops[t].draft, s.tags[share.block].draft)
       && (forall i :: i in s.past.causes ==> s.past.causes[i] != CauseOf(s, share))
       && s.tags[share.block].id < s.past.nextId
       && s.tags[share.block].id in s.past.drafts
       && s.past.drafts[s.tags[share.block].id] == s.tags[share.block].draft
       && (forall b :: b in s.tags && s.tags[b].id == s.tags[share.block].id ==> b == share.block)
  }

  lemma IsFirstReply(s: State, t: nat)
    requires Inv(s) && Ledger(s.tags, s.ops, s.past) && Replies(s)
    requires t in s.ops && s.ops[t].at.AllocateMessage? && s.ops[t].share.Some?
    ensures FirstReply(s, t)
  {
    assert OpOk(s, t) && EarlyOk(s.tags, s.past, s.ops[t]);
    assert TagOk(s, Counted(s, t)) && EntryOk(s.tags[Counted(s, t)], s.ops, s.past);
  }

  lemma CauseStays(past: History, past': History, id: nat, draft: Draft, i: nat)
    requires i in past.causes && CauseOk(past, i) && id !in past.drafts
    requires past'.drafts == past.drafts[id := draft] && i in past'.causes && past'.causes[i] == past.causes[i]
    ensures CauseOk(past', i)
  {
  }

  lemma NewCauseOk(s: State, t: nat, choice: nat)
    requires FirstReply(s, t) && UnusedOk(s.past, s.past.nextId)
    requires s.ops[t].draft.size <= MAX_PAYLOAD && choice in s.messages.free
    ensures var past' := AllocateMessageStep(s, t, s.ops[t], choice).past;
            s.past.nextId in past'.causes && CauseOk(past', s.past.nextId)
  {
    hide Bits, BitList;
  }

  lemma NewCauseSpends(s: State, t: nat, choice: nat)
    requires Replies(s) && UnusedOk(s.past, s.past.nextId) && choice !in s.tags && s.messages.free != {}
    requires t in s.ops && s.ops[t].draft.size <= MAX_PAYLOAD && (s.ops[t].share.Some? ==> FirstReply(s, t))
    ensures var s' := AllocateMessageStep(s, t, s.ops[t], choice); SharesSpent(s'.tags, s'.past)
  {
    hide Bits, BitList;
    var s', id := AllocateMessageStep(s, t, s.ops[t], choice), s.past.nextId;
    forall i, b | i in s'.past.causes && b in s'.tags && s'.tags[b].id == s'.past.causes[i].id
      ensures Spent(s'.tags[b].phase, s'.past.causes[i].bit)
    {
      if i in s.past.causes {
        assert CauseOk(s.past, i);
        assert b in s.tags;
      }
    }
  }

  lemma OthersStayFirst(s: State, t: nat, choice: nat, u: nat)
    requires Inv(s) && Replies(s) && choice !in s.tags && s.messages.free != {}
    requires t in s.ops && s.ops[t].draft.size <= MAX_PAYLOAD && (s.ops[t].share.Some? ==> FirstReply(s, t))
    requires u in s.ops && u != t
    ensures var s' := AllocateMessageStep(s, t, s.ops[t], choice); EarlyOk(s'.tags, s'.past, s.ops[u])
  {
    assert OpOk(s, u) && EarlyOk(s.tags, s.past, s.ops[u]);
    hide Inv, Replies, Bits, BitList, BuildOk, FreeOk, Readable, Answers;
  }

  lemma AllCausesOk(s: State, t: nat, choice: nat)
    requires Replies(s) && UnusedOk(s.past, s.past.nextId) && choice in s.messages.free
    requires t in s.ops && s.ops[t].draft.size <= MAX_PAYLOAD && (s.ops[t].share.Some? ==> FirstReply(s, t))
    ensures var past' := AllocateMessageStep(s, t, s.ops[t], choice).past;
            && (forall i :: i in past'.causes ==> CauseOk(past', i))
            && (forall i, j :: i in past'.causes && j in past'.causes && past'.causes[i] == past'.causes[j] ==> i == j)
  {
    var s' := AllocateMessageStep(s, t, s.ops[t], choice);
    if s.ops[t].share.Some? {
      NewCauseOk(s, t, choice);
    }
    hide Bits, CauseOk;
    forall i | i in s'.past.causes ensures CauseOk(s'.past, i) {
      if i != s.past.nextId {
        CauseStays(s.past, s'.past, s.past.nextId, s.ops[t].draft, i);
      }
    }
  }

  /** Only the creation of a message adds to the record: the reply answers a share nothing answered. */
  lemma AllocateMessageReplies(s: State, t: nat, choice: nat)
    requires Inv(s) && Ledger(s.tags, s.ops, s.past) && Replies(s) && t in s.ops && s.ops[t].at.AllocateMessage?
    requires s.ops[t].draft.size <= MAX_PAYLOAD && choice in s.messages.free
    ensures Replies(AllocateMessageStep(s, t, s.ops[t], choice))
  {
    var s' := AllocateMessageStep(s, t, s.ops[t], choice);
    assert UnusedOk(s.past, s.past.nextId);
    if s.ops[t].share.Some? {
      IsFirstReply(s, t);
    }
    hide FirstReply, Inv, Ledger, CauseOk, SharesSpent, EarlyOk, Claimed, Answers, Bits;
    AllCausesOk(s, t, choice);
    NewCauseSpends(s, t, choice);
    forall u | u in s'.ops ensures EarlyOk(s'.tags, s'.past, s'.ops[u]) {
      if u != t {
        OthersStayFirst(s, t, choice, u);
      } else {
        NotEarly(s'.tags, s'.past, s'.ops[u]);
      }
    }
  }

  lemma NotEarly(tags: map<nat, Tag>, past: History, call: Call)
    requires !Early(call)
    ensures EarlyOk(tags, past, call)
  {
  }

  // ---------------------------------------------------------------- whole steps and whole runs

  lemma SettledReplies(s: State, s': State, t: nat)
    requires Inv(s) && Replies(s) && Settles(s, s', t) && (t in s'.ops ==> !Early(s'.ops[t]))
    ensures Replies(s')
  {
    hide Inv, Replies, Settles;
    RepliesFrame(s, s', t);
  }

  /** A call that is not about to create a message, or is about to be refused one. */
  predicate Settling(s: State, call: Call) {
    !call.at.ReadRequest? && (call.at.AllocateMessage? ==> call.draft.size > MAX_PAYLOAD || s.messages.free == {})
  }

  lemma CreateSettles(s: State, t: nat, choice: nat)
    requires t in s.ops && OpOk(s, t) && !s.ops[t].at.Created() && Settling(s, s.ops[t])
    ensures var s' := CreateOp(s, t, s.ops[t], choice); Settles(s, s', t) && (t in s'.ops ==> !Early(s'.ops[t]))
  {
    var call := s.ops[t];
    assert call.at.Creating() ==> call.built.Some? && call.built.value in s.tags && s.tags[call.built.value].phase.Building?;
    hide OpOk, BuildOk, FreeOk, CallOk, Settles, Early, ReadRequestStep, FillHeaderStep, AllocatePayloadStep, UndoStep,
         CopyPayloadStep, ClearPayloadStep, SetCountStep;
    match call.at
    case AllocateMessage => RefuseSettles(s, t, call);
    case FillHeader => FillHeaderSettles(s, t, call);
    case AllocatePayload => AllocatePayloadSettles(s, t, call, choice);
    case Undo => UndoSettles(s, t, call);
    case CopyPayload => CopyPayloadSettles(s, t, call);
    case ClearPayload => ClearPayloadSettles(s, t, call);
    case SetCount => SetCountSettles(s, t, call);
  }

  lemma DecrementSettles(s: State, t: nat, call: Call)
    requires t in s.ops
    ensures var s' := DecrementStep(s, t, call); Settles(s, s', t) && (t in s'.ops ==> !Early(s'.ops[t]))
  {
    DecrementLastSettles(s, t, call);
    DecrementOtherSettles(s, t, call);
    hide Settles, Early, DecrementLastStep, DecrementOtherStep;
  }

  lemma ConsumeSettles(s: State, t: nat)
    requires t in s.ops && OpOk(s, t) && s.ops[t].at.Created()
    ensures var s' := ConsumeOp(s, t, s.ops[t]); Settles(s, s', t) && (t in s'.ops ==> !Early(s'.ops[t]))
  {
    var call := s.ops[t];
    assert call.built.Some? ==> call.built.value in s.tags && s.tags[call.built.value].phase.Building?;
    assert call.last.Some? ==> call.last.value in s.tags && s.tags[call.last.value].phase.Freeing?;
    assert call.at.Freeing() ==> call.last.Some?;
    hide OpOk, BuildOk, FreeOk, CallOk, Settles, Early, DecrementStep, ReleasePayloadStep, ForgetPayloadStep,
         ReleaseMessageStep, ReturnStep;
    match call.at
    case Decrement => DecrementSettles(s, t, call);
    case ReleasePayload => ReleasePayloadSettles(s, t, call);
    case ForgetPayload => ForgetPayloadSettles(s, t, call);
    case ReleaseMessage => ReleaseMessageSettles(s, t, call);
    case _ => ReturnSettles(s, t, call);
  }

  lemma StepSettles(s: State, t: nat, choice: nat)
    requires t in s.ops && OpOk(s, t) && Settling(s, s.ops[t])
    ensures var s' := StepOp(s, t, choice); Settles(s, s', t) && (t in s'.ops ==> !Early(s'.ops[t]))
  {
    hide OpOk, Settles, CreateOp, ConsumeOp, Early;
    if s.ops[t].at.Created() {
      ConsumeSettles(s, t);
    } else {
      CreateSettles(s, t, choice);
    }
  }

  lemma StepReplies(s: State, t: nat, choice: nat)
    requires Inv(s) && Ledger(s.tags, s.ops, s.past) && Replies(s) && Enabled(s, Step(t, choice))
    ensures Replies(StepOp(s, t, choice))
  {
    assert OpOk(s, t);
    hide Inv, OpOk, Ledger, Replies, Settles, ReadRequestStep, AllocateMessageStep, Early, ConsumeOp;
    if s.ops[t].at.ReadRequest? {
      ReadRequestReplies(s, t);
    } else if Settling(s, s.ops[t]) {
      StepSettles(s, t, choice);
      hide StepOp;
      SettledReplies(s, StepOp(s, t, choice), t);
    } else {
      AllocateMessageReplies(s, t, choice);
    }
  }

  lemma ApplyReplies(s: State, e: Event)
    requires Inv(s) && Ledger(s.tags, s.ops, s.past) && Replies(s) && Enabled(s, e)
    ensures Replies(Apply(s, e))
  {
    hide Inv, Ledger, StepOp, ClaimStep;
    match e
    case Send(t, draft) =>
    case Consume(t, share) => ClaimReplies(s, t, share, ConsumeCall(share));
    case Respond(t, share, info, buffer, size) => ClaimReplies(s, t, share, RespondCall(share, info, buffer, size));
    case Step(t, choice) => StepReplies(s, t, choice);
    case Peek(_) =>
    case Scribble(_, _) =>
  }

  lemma InitialReplies(s: State)
    requires Initial(s)
    ensures Replies(s)
  {
  }

  /** Everything the fabric keeps, over every run. */
  ghost predicate Good(s: State) {
    Inv(s) && Ledger(s.tags, s.ops, s.past) && Replies(s)
  }

  lemma ApplyGood(s: State, e: Event)
    requires Good(s) && Enabled(s, e)
    ensures Good(Apply(s, e))
  {
    hide Inv, Ledger, Replies, Apply, Enabled;
    ApplyKeeps(s, e);
    ApplyLedger(s, e);
    ApplyReplies(s, e);
  }

  lemma {:induction false} RunGood(s: State, es: seq<Event>)
    requires Good(s) && Runs(s, es)
    ensures Good(After(s, es))
    decreases |es|
  {
    hide Good, Enabled, Apply;
    if es != [] {
      ApplyGood(s, es[0]);
      RunGood(Apply(s, es[0]), es[1..]);
    }
  }

  lemma ReachableGood(s: State, es: seq<Event>)
    requires Initial(s) && Runs(s, es)
    ensures Good(After(s, es))
  {
    InitialInv(s);
    InitialLedger(s);
    InitialReplies(s);
    hide Inv, Ledger, Replies, Initial;
    RunGood(s, es);
  }
}
