/** How often things happen to one message: over every run, one call at most sees itself last, and
    message and payload blocks are each released exactly once. */
module FabricLedger {
  import opened FabricTypes
  import opened FabricSteps
  import opened FabricInvariant
  import opened FabricPreservation
  import opened Wrappers

  /** The call that builds a message has given it its payload block. */
  predicate Taken(call: Call) {
    call.at.CopyPayload? || call.at.SetCount? || call.at.Created()
  }

  /** The call that frees a message has released its payload block. */
  predicate Given(call: Call) {
    call.at.ForgetPayload? || call.at.ReleaseMessage?
  }

  /** What has happened so far to a message that is still allocated. */
  ghost predicate EntryOk(tag: Tag, ops: map<nat, Call>, past: History) {
    var id, carries := tag.id, tag.draft.CarriesPayload();
    && id < past.nextId && id in past.drafts && past.drafts[id] == tag.draft
    && past.messageFrees[id] == 0
    && match tag.phase
       case Building(t) =>
         && t in ops && id !in past.published && past.lasts[id] == 0 && past.payloadFrees[id] == 0
         && (id in past.withPayload <==> carries && Taken(ops[t]))
       case Live(_, _) =>
         && id in past.published && past.lasts[id] == 0 && past.payloadFrees[id] == 0
         && (id in past.withPayload <==> carries)
       case Freeing(t) =>
         && t in ops && id in past.published && past.lasts[id] == 1
         && past.payloadFrees[id] == (if carries && Given(ops[t]) then 1 else 0)
         && (id in past.withPayload <==> carries)
  }

  /** What has happened to a message that is gone: each thing once, if it was due at all. */
  ghost predicate GoneOk(past: History, id: nat) {
    && id in past.drafts && past.messageFrees[id] == 1
    && past.lasts[id] == (if id in past.published then 1 else 0)
    && past.payloadFrees[id] == (if id in past.withPayload then 1 else 0)
  }

  ghost predicate UnusedOk(past: History, id: nat) {
    && id !in past.drafts && id !in past.causes && id !in past.published && id !in past.withPayload
    && past.messageFrees[id] == 0 && past.lasts[id] == 0 && past.payloadFrees[id] == 0
  }

  ghost predicate Allocated(tags: map<nat, Tag>, id: nat) {
    exists b :: b in tags && tags[b].id == id
  }

  ghost predicate Ledger(tags: map<nat, Tag>, ops: map<nat, Call>, past: History) {
    && (forall b :: b in tags ==> EntryOk(tags[b], ops, past))
    && (forall b, c :: b in tags && c in tags && tags[b].id == tags[c].id ==> b == c)
    && (forall id: nat :: id < past.nextId && !Allocated(tags, id) ==> GoneOk(past, id))
    && (forall id: nat :: past.nextId <= id ==> UnusedOk(past, id))
  }

  /** The two histories agree about message `id`. */
  ghost predicate SamePast(past: History, past': History, id: nat) {
    && (id in past.drafts <==> id in past'.drafts)
    && (id in past.drafts ==> past.drafts[id] == past'.drafts[id])
    && (id in past.causes <==> id in past'.causes)
    && (id in past.published <==> id in past'.published)
    && (id in past.withPayload <==> id in past'.withPayload)
    && past.lasts[id] == past'.lasts[id]
    && past.payloadFrees[id] == past'.payloadFrees[id]
    && past.messageFrees[id] == past'.messageFrees[id]
  }

  /** The step changes the bookkeeping of at most the message `id` in block `b`. */
  ghost predicate OnlyEntry(s: State, s': State, b: nat, id: nat) {
    && (forall c :: c in s.tags && c != b ==> c in s'.tags && s'.tags[c] == s.tags[c])
    && (forall c :: c in s'.tags && c != b ==> c in s.tags)
    && (forall i: nat :: i != id ==> SamePast(s.past, s'.past, i))
    && (b in s.tags ==> s.tags[b].id == id)
    && (b in s'.tags ==> s'.tags[b].id == id)
    && (if b in s.tags then s'.past.nextId == s.past.nextId
        else b in s'.tags ==> id == s.past.nextId && s'.past.nextId == id + 1)
    && (b !in s.tags && b !in s'.tags ==> s'.past == s.past)
  }

  ghost predicate OthersProgress(s: State, s': State, b: nat) {
    forall c :: c in s.tags && c != b ==>
      match s.tags[c].phase
      case Building(u) => u in s.ops && u in s'.ops && Taken(s.ops[u]) == Taken(s'.ops[u])
      case Live(_, _) => true
      case Freeing(u) => u in s.ops && u in s'.ops && Given(s.ops[u]) == Given(s'.ops[u])
  }

  lemma StillAllocated(s: State, s': State, b: nat, id: nat, i: nat)
    requires OnlyEntry(s, s', b, id) && (i != id || (b !in s.tags && b !in s'.tags))
    ensures Allocated(s.tags, i) ==> Allocated(s'.tags, i)
  {
    if Allocated(s.tags, i) {
      var c :| c in s.tags && s.tags[c].id == i;
      assert c in s'.tags && s'.tags[c].id == i;
    }
  }

  lemma LedgerFrame(s: State, s': State, b: nat, id: nat)
    requires Ledger(s.tags, s.ops, s.past)
    requires OnlyEntry(s, s', b, id) && OthersProgress(s, s', b)
    requires b in s'.tags ==> EntryOk(s'.tags[b], s'.ops, s'.past)
    requires b in s.tags && b !in s'.tags ==> GoneOk(s'.past, id)
    ensures Ledger(s'.tags, s'.ops, s'.past)
  {
    forall c | c in s'.tags ensures EntryOk(s'.tags[c], s'.ops, s'.past) {
      if c != b {
        assert EntryOk(s.tags[c], s.ops, s.past);
        assert SamePast(s.past, s'.past, s.tags[c].id);
      }
    }
    forall i: nat | i < s'.past.nextId && !Allocated(s'.tags, i) ensures GoneOk(s'.past, i) {
      if i != id || (b !in s.tags && b !in s'.tags) {
        assert SamePast(s.past, s'.past, i);
        StillAllocated(s, s', b, id, i);
      }
    }
    forall i: nat | s'.past.nextId <= i ensures UnusedOk(s'.past, i) {
      assert UnusedOk(s.past, i);
      assert b in s.tags ==> EntryOk(s.tags[b], s.ops, s.past);
      assert SamePast(s.past, s'.past, i);
    }
  }

  /** The blocks whose bookkeeping names a call are the ones the call works on. */
  ghost predicate Named(s: State) {
    forall c :: c in s.tags ==>
      match s.tags[c].phase
      case Building(u) => u in s.ops && s.ops[u].built == Some(c)
      case Live(_, _) => true
      case Freeing(u) => u in s.ops && s.ops[u].last == Some(c)
  }

  lemma InvNames(s: State)
    requires Inv(s)
    ensures Named(s)
  {
    forall c | c in s.tags ensures TagOk(s, c) {
    }
  }

  // ---------------------------------------------------------------- steps that only move a call on

  /** The step changes nothing but the calls, and no call's progress on its blocks. */
  lemma LedgerSame(s: State, s': State, t: nat)
    requires Ledger(s.tags, s.ops, s.past) && Named(s)
    requires s'.tags == s.tags && s'.past == s.past
    requires forall u :: u in s.ops && u != t ==> u in s'.ops && s'.ops[u] == s.ops[u]
    requires t in s.ops && s.ops[t].built.Some? ==> t in s'.ops && Taken(s'.ops[t]) == Taken(s.ops[t])
    requires t in s.ops && s.ops[t].last.Some? ==> t in s'.ops && Given(s'.ops[t]) == Given(s.ops[t])
    ensures Ledger(s'.tags, s'.ops, s'.past)
  {
    forall c | c in s'.tags ensures EntryOk(s'.tags[c], s'.ops, s'.past) {
      assert EntryOk(s.tags[c], s.ops, s.past);
    }
  }

  lemma ClaimLedger(s: State, t: nat, share: Share, call: Call)
    requires Ledger(s.tags, s.ops, s.past) && Named(s) && t !in s.ops && Owed(s, share)
    ensures var s' := ClaimStep(s, t, share, call); Ledger(s'.tags, s'.ops, s'.past)
  {
    LedgerFrame(s, ClaimStep(s, t, share, call), share.block, s.tags[share.block].id);
  }

  lemma AllocateMessageLedger(s: State, t: nat, choice: nat)
    requires Ledger(s.tags, s.ops, s.past) && Named(s) && t in s.ops && OpOk(s, t) && s.ops[t].at.AllocateMessage?
    requires choice !in s.tags && s.ops[t].draft.size <= MAX_PAYLOAD && s.messages.free != {}
    ensures var s' := AllocateMessageStep(s, t, s.ops[t], choice); Ledger(s'.tags, s'.ops, s'.past)
  {
    hide HeaderOk, PayloadOk, CountOk, Mask, Readable;
    assert UnusedOk(s.past, s.past.nextId);
    LedgerFrame(s, AllocateMessageStep(s, t, s.ops[t], choice), choice, s.past.nextId);
  }

  lemma AllocatePayloadLedger(s: State, t: nat, choice: nat)
    requires Ledger(s.tags, s.ops, s.past) && Named(s) && t in s.ops && OpOk(s, t) && s.ops[t].at.AllocatePayload?
    requires s.payloads.free != {}
    ensures var s' := AllocatePayloadStep(s, t, s.ops[t], choice); Ledger(s'.tags, s'.ops, s'.past)
  {
    hide HeaderOk, PayloadOk, CountOk, Mask, Readable;
    var b := s.ops[t].built.value;
    LedgerFrame(s, AllocatePayloadStep(s, t, s.ops[t], choice), b, s.tags[b].id);
  }

  lemma UndoLedger(s: State, t: nat)
    requires Ledger(s.tags, s.ops, s.past) && Named(s) && t in s.ops && OpOk(s, t) && s.ops[t].at.Undo?
    ensures var s' := UndoStep(s, t, s.ops[t]); Ledger(s'.tags, s'.ops, s'.past)
  {
    hide HeaderOk, PayloadOk, CountOk, Mask, Readable;
    var b := s.ops[t].built.value;
    LedgerFrame(s, UndoStep(s, t, s.ops[t]), b, s.tags[b].id);
  }

  lemma CopyPayloadLedger(s: State, t: nat)
    requires Ledger(s.tags, s.ops, s.past) && Named(s) && t in s.ops && OpOk(s, t) && s.ops[t].at.CopyPayload?
    ensures var s' := CopyPayloadStep(s, t, s.ops[t]); Ledger(s'.tags, s'.ops, s'.past)
  {
    hide HeaderOk, PayloadOk, CountOk, Mask, Readable;
    var b := s.ops[t].built.value;
    LedgerFrame(s, CopyPayloadStep(s, t, s.ops[t]), b, s.tags[b].id);
  }

  lemma ClearPayloadLedger(s: State, t: nat)
    requires Ledger(s.tags, s.ops, s.past) && Named(s) && t in s.ops && OpOk(s, t) && s.ops[t].at.ClearPayload?
    ensures var s' := ClearPayloadStep(s, t, s.ops[t]); Ledger(s'.tags, s'.ops, s'.past)
  {
    hide HeaderOk, PayloadOk, CountOk, Mask, Readable;
    var b := s.ops[t].built.value;
    LedgerFrame(s, ClearPayloadStep(s, t, s.ops[t]), b, s.tags[b].id);
  }

  lemma DecrementLastLedger(s: State, t: nat)
    requires Ledger(s.tags, s.ops, s.past) && Named(s) && t in s.ops && OpOk(s, t) && s.ops[t].at.Decrement?
    ensures var s' := DecrementLastStep(s, t, s.ops[t]); Ledger(s'.tags, s'.ops, s'.past)
  {
    hide HeaderOk, PayloadOk, CountOk, Mask, Readable;
    var b := Counted(s, t);
    LedgerFrame(s, DecrementLastStep(s, t, s.ops[t]), b, s.tags[b].id);
  }

  lemma DecrementOtherLedger(s: State, t: nat)
    requires Ledger(s.tags, s.ops, s.past) && Named(s) && t in s.ops && OpOk(s, t) && s.ops[t].at.Decrement?
    ensures var s' := DecrementOtherStep(s, t, s.ops[t]); Ledger(s'.tags, s'.ops, s'.past)
  {
    hide HeaderOk, PayloadOk, CountOk, Mask, Readable;
    var b := Counted(s, t);
    LedgerFrame(s, DecrementOtherStep(s, t, s.ops[t]), b, s.tags[b].id);
  }

  lemma ReleasePayloadLedger(s: State, t: nat)
    requires Ledger(s.tags, s.ops, s.past) && Named(s) && t in s.ops && OpOk(s, t) && s.ops[t].at.ReleasePayload?
    requires PoolsOk(s)
    ensures var s' := ReleasePayloadStep(s, t, s.ops[t]); Ledger(s'.tags, s'.ops, s'.past)
  {
    hide HeaderOk, CountOk, Mask, Readable;
    var b := s.ops[t].last.value;
    PayloadIsOut(s, t);
    LedgerFrame(s, ReleasePayloadStep(s, t, s.ops[t]), b, s.tags[b].id);
  }

  lemma ReleaseMessageLedger(s: State, t: nat)
    requires Ledger(s.tags, s.ops, s.past) && Named(s) && t in s.ops && OpOk(s, t) && s.ops[t].at.ReleaseMessage?
    requires PoolsOk(s)
    ensures var s' := ReleaseMessageStep(s, t, s.ops[t]); Ledger(s'.tags, s'.ops, s'.past)
  {
    hide HeaderOk, PayloadOk, CountOk, Mask, Readable;
    var b := s.ops[t].last.value;
    LedgerFrame(s, ReleaseMessageStep(s, t, s.ops[t]), b, s.tags[b].id);
  }

  lemma PublishLedger(s: State, t: nat, b: nat)
    requires Ledger(s.tags, s.ops, s.past) && Named(s) && t in s.ops && OpOk(s, t) && s.ops[t].at.Return?
    requires s.ops[t].built == Some(b)
    ensures var s' := ReturnStep(s, t, s.ops[t]); Ledger(s'.tags, s'.ops, s'.past)
  {
    hide HeaderOk, PayloadOk, CountOk, Mask, Readable, FreeOk;
    LedgerFrame(s, ReturnStep(s, t, s.ops[t]), b, s.tags[b].id);
  }

  lemma ReturnLedger(s: State, t: nat)
    requires Ledger(s.tags, s.ops, s.past) && Named(s) && t in s.ops && OpOk(s, t) && s.ops[t].at.Return?
    ensures var s' := ReturnStep(s, t, s.ops[t]); Ledger(s'.tags, s'.ops, s'.past)
  {
    if s.ops[t].built.Some? {
      PublishLedger(s, t, s.ops[t].built.value);
    } else {
      hide Ledger, BuildOk, Named;
      LedgerSame(s, ReturnStep(s, t, s.ops[t]), t);
    }
  }

  // ---------------------------------------------------------------- whole steps and whole runs

  lemma ReadRequestLedger(s: State, t: nat)
    requires Ledger(s.tags, s.ops, s.past) && Named(s) && t in s.ops && CallOk(s.ops[t]) && s.ops[t].at.ReadRequest?
    ensures var s' := ReadRequestStep(s, t, s.ops[t]); Ledger(s'.tags, s'.ops, s'.past)
  {
    hide Ledger, Named;
    LedgerSame(s, ReadRequestStep(s, t, s.ops[t]), t);
  }

  lemma FillHeaderLedger(s: State, t: nat)
    requires Ledger(s.tags, s.ops, s.past) && Named(s) && t in s.ops && CallOk(s.ops[t]) && s.ops[t].at.FillHeader?
    ensures var s' := FillHeaderStep(s, t, s.ops[t]); Ledger(s'.tags, s'.ops, s'.past)
  {
    hide Ledger, Named;
    LedgerSame(s, FillHeaderStep(s, t, s.ops[t]), t);
  }

  lemma SetCountLedger(s: State, t: nat)
    requires Ledger(s.tags, s.ops, s.past) && Named(s) && t in s.ops && CallOk(s.ops[t]) && s.ops[t].at.SetCount?
    ensures var s' := SetCountStep(s, t, s.ops[t]); Ledger(s'.tags, s'.ops, s'.past)
  {
    hide Ledger, Named;
    LedgerSame(s, SetCountStep(s, t, s.ops[t]), t);
  }

  lemma ForgetPayloadLedger(s: State, t: nat)
    requires Ledger(s.tags, s.ops, s.past) && Named(s) && t in s.ops && CallOk(s.ops[t]) && s.ops[t].at.ForgetPayload?
    ensures var s' := ForgetPayloadStep(s, t, s.ops[t]); Ledger(s'.tags, s'.ops, s'.past)
  {
    hide Ledger, Named;
    LedgerSame(s, ForgetPayloadStep(s, t, s.ops[t]), t);
  }

  lemma RefuseMessageLedger(s: State, t: nat, choice: nat)
    requires Ledger(s.tags, s.ops, s.past) && Named(s) && t in s.ops && CallOk(s.ops[t]) && s.ops[t].at.AllocateMessage?
    requires s.ops[t].draft.size > MAX_PAYLOAD || s.messages.free == {}
    ensures var s' := AllocateMessageStep(s, t, s.ops[t], choice); Ledger(s'.tags, s'.ops, s'.past)
  {
    hide Ledger, Named;
    LedgerSame(s, AllocateMessageStep(s, t, s.ops[t], choice), t);
  }

  lemma RefusePayloadLedger(s: State, t: nat, choice: nat)
    requires Ledger(s.tags, s.ops, s.past) && Named(s) && t in s.ops && CallOk(s.ops[t]) && s.ops[t].at.AllocatePayload?
    requires s.payloads.free == {}
    ensures var s' := AllocatePayloadStep(s, t, s.ops[t], choice); Ledger(s'.tags, s'.ops, s'.past)
  {
    hide Ledger, Named;
    LedgerSame(s, AllocatePayloadStep(s, t, s.ops[t], choice), t);
  }

  lemma TryMessageLedger(s: State, t: nat, choice: nat)
    requires Ledger(s.tags, s.ops, s.past) && Named(s) && t in s.ops && OpOk(s, t) && s.ops[t].at.AllocateMessage?
    requires PoolsOk(s) && Enabled(s, Step(t, choice))
    ensures var s' := AllocateMessageStep(s, t, s.ops[t], choice); Ledger(s'.tags, s'.ops, s'.past)
  {
    hide Ledger, Named, AllocateMessageStep;
    if s.ops[t].draft.size > MAX_PAYLOAD || s.messages.free == {} {
      RefuseMessageLedger(s, t, choice);
    } else {
      AllocateMessageLedger(s, t, choice);
    }
  }

  lemma TryPayloadLedger(s: State, t: nat, choice: nat)
    requires Ledger(s.tags, s.ops, s.past) && Named(s) && t in s.ops && OpOk(s, t) && s.ops[t].at.AllocatePayload?
    ensures var s' := AllocatePayloadStep(s, t, s.ops[t], choice); Ledger(s'.tags, s'.ops, s'.past)
  {
    hide Ledger, Named, AllocatePayloadStep;
    if s.payloads.free == {} {
      RefusePayloadLedger(s, t, choice);
    } else {
      AllocatePayloadLedger(s, t, choice);
    }
  }

  lemma DecrementLedger(s: State, t: nat)
    requires Ledger(s.tags, s.ops, s.past) && Named(s) && t in s.ops && OpOk(s, t) && s.ops[t].at.Decrement?
    ensures var s' := DecrementStep(s, t, s.ops[t]); Ledger(s'.tags, s'.ops, s'.past)
  {
    hide Ledger, Named, DecrementLastStep, DecrementOtherStep;
    if MessageAt(s, Counted(s, t)).count == 1 {
      DecrementLastLedger(s, t);
    } else {
      DecrementOtherLedger(s, t);
    }
  }

  lemma CreateLedger(s: State, t: nat, choice: nat)
    requires Ledger(s.tags, s.ops, s.past) && Named(s) && PoolsOk(s) && Enabled(s, Step(t, choice)) && OpOk(s, t)
    requires CallOk(s.ops[t]) && !s.ops[t].at.Created()
    ensures var s' := CreateOp(s, t, s.ops[t], choice); Ledger(s'.tags, s'.ops, s'.past)
  {
    hide PoolsOk, OpOk, CallOk, Ledger, Named, ReadRequestStep, AllocateMessageStep, FillHeaderStep, AllocatePayloadStep,
         UndoStep, CopyPayloadStep, ClearPayloadStep, SetCountStep;
    match s.ops[t].at
    case ReadRequest => ReadRequestLedger(s, t);
    case AllocateMessage => TryMessageLedger(s, t, choice);
    case FillHeader => FillHeaderLedger(s, t);
    case AllocatePayload => TryPayloadLedger(s, t, choice);
    case Undo => UndoLedger(s, t);
    case CopyPayload => CopyPayloadLedger(s, t);
    case ClearPayload => ClearPayloadLedger(s, t);
    case SetCount => SetCountLedger(s, t);
  }

  lemma ConsumeLedger(s: State, t: nat)
    requires Ledger(s.tags, s.ops, s.past) && Named(s) && PoolsOk(s) && t in s.ops && OpOk(s, t)
    requires CallOk(s.ops[t]) && s.ops[t].at.Created()
    ensures var s' := ConsumeOp(s, t, s.ops[t]); Ledger(s'.tags, s'.ops, s'.past)
  {
    hide PoolsOk, OpOk, CallOk, Ledger, Named, DecrementStep, ReleasePayloadStep, ForgetPayloadStep, ReleaseMessageStep, ReturnStep;
    match s.ops[t].at
    case Decrement => DecrementLedger(s, t);
    case ReleasePayload => ReleasePayloadLedger(s, t);
    case ForgetPayload => ForgetPayloadLedger(s, t);
    case ReleaseMessage => ReleaseMessageLedger(s, t);
    case Return => ReturnLedger(s, t);
  }

  lemma StepLedger(s: State, t: nat, choice: nat)
    requires Inv(s) && Ledger(s.tags, s.ops, s.past) && Enabled(s, Step(t, choice))
    ensures var s' := StepOp(s, t, choice); Ledger(s'.tags, s'.ops, s'.past)
  {
    InvNames(s);
    assert PoolsOk(s) && OpOk(s, t);
    assert CallOk(s.ops[t]);
    hide Inv, PoolsOk, OpOk, CallOk, Ledger, Named, CreateOp, ConsumeOp;
    if s.ops[t].at.Created() {
      ConsumeLedger(s, t);
    } else {
      CreateLedger(s, t, choice);
    }
  }

  lemma ApplyLedger(s: State, e: Event)
    requires Inv(s) && Ledger(s.tags, s.ops, s.past) && Enabled(s, e)
    ensures var s' := Apply(s, e); Ledger(s'.tags, s'.ops, s'.past)
  {
    InvNames(s);
    hide Inv, Ledger;
    match e
    case Send(t, _) => LedgerSame(s, Apply(s, e), t);
    case Consume(t, share) => ClaimLedger(s, t, share, ConsumeCall(share));
    case Respond(t, share, info, buffer, size) => ClaimLedger(s, t, share, RespondCall(share, info, buffer, size));
    case Step(t, choice) => StepLedger(s, t, choice);
    case Peek(_) =>
    case Scribble(_, _) =>
  }

  lemma InitialLedger(s: State)
    requires Initial(s)
    ensures Ledger(s.tags, s.ops, s.past)
  {
  }
}
