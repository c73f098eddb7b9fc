/** Every step of every call keeps the fabric's invariant. For each step: it is confined to the blocks
    it is about, and it leaves those in order. */
module FabricPreservation {
  import opened FabricTypes
  import opened FabricSteps
  import opened FabricInvariant
  import opened Masks
  import opened Wrappers

  lemma InitialInv(s: State)
    requires Initial(s)
    ensures Inv(s)
  {
  }

  lemma SendKeeps(s: State, t: nat, draft: Draft)
    requires Inv(s) && Enabled(s, Send(t, draft))
    ensures Inv(Apply(s, Send(t, draft)))
  {
    SendInOrder(s, t, draft);
    Frame(s, Goto(s, t, SendCall(draft)), Some(t), None, None);
  }

  lemma SendInOrder(s: State, t: nat, draft: Draft)
    requires PoolsOk(s) && Enabled(s, Send(t, draft))
    ensures LocalStep(s, Goto(s, t, SendCall(draft)), Some(t), None, None)
  {
  }

  lemma ScribbleKeeps(s: State, x: nat, bytes: seq<Byte>)
    requires Inv(s) && Enabled(s, Scribble(x, bytes))
    ensures Inv(Apply(s, Scribble(x, bytes)))
  {
    ScribbleInOrder(s, x, bytes);
    Frame(s, Apply(s, Scribble(x, bytes)), None, None, None);
  }

  lemma ScribbleInOrder(s: State, x: nat, bytes: seq<Byte>)
    requires PoolsOk(s) && Enabled(s, Scribble(x, bytes))
    ensures LocalStep(s, Apply(s, Scribble(x, bytes)), None, None, None)
  {
  }

  lemma ClaimElsewhere(s: State, t: nat, share: Share, call: Call)
    requires t !in s.ops && Owed(s, share)
    ensures Elsewhere(s, ClaimStep(s, t, share, call), Some(t), Some(share.block), Payload(s, Some(share.block)))
  {
  }

  lemma ClaimPrivate(s: State, t: nat, share: Share, call: Call)
    requires t !in s.ops && Owed(s, share) && OwnsOnly(s, Some(share.block), Payload(s, Some(share.block)))
    requires TagOk(s, share.block)
    ensures Private(s, ClaimStep(s, t, share, call), Some(t), Some(share.block), Payload(s, Some(share.block)))
  {
    hide Bits, BitList, PayloadOk, HeaderOk, CountOk;
  }

  lemma ClaimMoves(owed: set<nat>, claims: map<nat, nat>, mask: nat, count: nat, d: nat, t: nat)
    requires PendingOk(owed, claims.Keys, mask, count) && d in owed
    ensures PendingOk(owed - {d}, claims[d := t].Keys, mask, count)
  {
    hide Bits, BitList, CountOk;
    assert claims[d := t].Keys == claims.Keys + {d};
    assert (owed - {d}) + (claims.Keys + {d}) == owed + claims.Keys;
  }

  lemma ClaimAdds(b: nat, claims: map<nat, nat>, ops: map<nat, Call>, d: nat, t: nat, call: Call)
    requires ClaimsOk(b, claims, ops) && t !in ops && call.share == Some(Share(b, d))
    ensures ClaimsOk(b, claims[d := t], ops[t := call])
  {
  }

  lemma ClaimTag(s: State, t: nat, share: Share, call: Call)
    requires t !in s.ops && Owed(s, share) && TagOk(s, share.block)
    requires call.share == Some(share)
    ensures TagOk(ClaimStep(s, t, share, call), share.block)
  {
    var tag := s.tags[share.block];
    ClaimMoves(tag.phase.owed, tag.phase.claims, tag.draft.dest, MessageAt(s, share.block).count, share.bit, t);
    ClaimAdds(share.block, tag.phase.claims, s.ops, share.bit, t, call);
    hide Bits, BitList, PayloadOk, HeaderOk, PendingOk, ClaimsOk;
  }

  /** What a recipient may pass back, it has a share of. */
  lemma OwedLends(s: State, share: Share, buffer: Option<Memory>, size: nat)
    requires Inv(s) && Owed(s, share) && CanPassBack(s, share, buffer, size)
    ensures Lends(s.tags, Some(share), buffer, size)
  {
    assert TagOk(s, share.block);
  }

  lemma ClaimInOrder(s: State, t: nat, share: Share, call: Call)
    requires var b := Some(share.block); LocalOk(s, None, b, Payload(s, b))
    requires t !in s.ops && Owed(s, share)
    requires CallOk(call) && call.share == Some(share) && call.built == None && call.last == None
    requires call.at.Decrement? || (call.at.ReadRequest? && Readable(s, call.draft.buffer, call.draft.size))
    requires Lends(s.tags, call.share, call.draft.buffer, call.draft.size)
    ensures LocalOk(ClaimStep(s, t, share, call), Some(t), Some(share.block), Payload(s, Some(share.block)))
  {
    hide Bits, BitList, PayloadOk, HeaderOk, PendingOk, ClaimsOk;
    ClaimTag(s, t, share, call);
  }

  lemma ClaimKeeps(s: State, t: nat, share: Share, call: Call)
    requires Inv(s) && t !in s.ops && Owed(s, share)
    requires CallOk(call) && call.share == Some(share) && call.built == None && call.last == None
    requires call.at.Decrement? || (call.at.ReadRequest? && Readable(s, call.draft.buffer, call.draft.size))
    requires CanPassBack(s, share, call.draft.buffer, call.draft.size)
    ensures Inv(ClaimStep(s, t, share, call))
  {
    OwedLends(s, share, call.draft.buffer, call.draft.size);
    OwnsItsPayload(s, Some(share.block));
    ClaimElsewhere(s, t, share, call);
    ClaimPrivate(s, t, share, call);
    ClaimInOrder(s, t, share, call);
    Frame(s, ClaimStep(s, t, share, call), Some(t), Some(share.block), Payload(s, Some(share.block)));
  }

  /** The message block whose count the call reads or decrements. */
  ghost function Counted(s: State, t: nat): nat
    requires t in s.ops
  {
    GetShare(s.ops[t].share).block
  }

  lemma ReadRequestConfined(s: State, t: nat)
    requires t in s.ops && s.ops[t].at.ReadRequest? && OpOk(s, t)
    requires OwnsOnly(s, Some(Counted(s, t)), Payload(s, Some(Counted(s, t))))
    ensures Confined(s, ReadRequestStep(s, t, s.ops[t]), Some(t), Some(Counted(s, t)), Payload(s, Some(Counted(s, t))))
  {
    hide Bits, BitList, HeaderOk, PayloadOk, CountOk, BytesAt, Prefix, Readable, Mask;
  }

  lemma ReadRequestInOrder(s: State, t: nat)
    requires t in s.ops && s.ops[t].at.ReadRequest?
    requires LocalOk(s, Some(t), Some(Counted(s, t)), Payload(s, Some(Counted(s, t))))
    ensures LocalOk(ReadRequestStep(s, t, s.ops[t]), Some(t), Some(Counted(s, t)), Payload(s, Some(Counted(s, t))))
  {
    hide Bits, BitList, BytesAt, Prefix;
  }

  lemma ReadRequestKeeps(s: State, t: nat)
    requires Inv(s) && t in s.ops && s.ops[t].at.ReadRequest?
    ensures Inv(ReadRequestStep(s, t, s.ops[t]))
  {
    OwnsItsPayload(s, Some(Counted(s, t)));
    ReadRequestConfined(s, t);
    ReadRequestInOrder(s, t);
    Frame(s, ReadRequestStep(s, t, s.ops[t]), Some(t), Some(Counted(s, t)), Payload(s, Some(Counted(s, t))));
  }

  lemma AllocateMessageElsewhere(s: State, t: nat, choice: nat)
    requires t in s.ops && s.ops[t].at.AllocateMessage? && OpOk(s, t) && PoolsOk(s) && Enabled(s, Step(t, choice))
    requires s.ops[t].draft.size <= MAX_PAYLOAD && s.messages.free != {}
    ensures Elsewhere(s, AllocateMessageStep(s, t, s.ops[t], choice), Some(t), Some(choice), None)
  {
    hide Bits, BitList, HeaderOk, PayloadOk, CountOk, BytesAt, Prefix, Readable, Mask;
  }

  lemma AllocateMessagePrivate(s: State, t: nat, choice: nat)
    requires t in s.ops && s.ops[t].at.AllocateMessage? && OpOk(s, t) && PoolsOk(s) && Enabled(s, Step(t, choice))
    requires s.ops[t].draft.size <= MAX_PAYLOAD && s.messages.free != {}
    requires OwnsOnly(s, Some(choice), None)
    ensures Private(s, AllocateMessageStep(s, t, s.ops[t], choice), Some(t), Some(choice), None)
    ensures KeepsOthers(s, AllocateMessageStep(s, t, s.ops[t], choice), Some(t), Some(choice))
  {
    hide Bits, BitList, HeaderOk, PayloadOk, CountOk, BytesAt, Prefix, Readable, Mask;
  }

  lemma AllocateMessageInOrder(s: State, t: nat, choice: nat)
    requires t in s.ops && s.ops[t].at.AllocateMessage? && Enabled(s, Step(t, choice))
    requires s.ops[t].draft.size <= MAX_PAYLOAD && s.messages.free != {}
    requires LocalOk(s, Some(t), Some(choice), None)
    ensures LocalOk(AllocateMessageStep(s, t, s.ops[t], choice), Some(t), Some(choice), None)
  {
    hide Bits, BitList, BytesAt, Prefix;
  }

  lemma AllocateMessageKeeps(s: State, t: nat, choice: nat)
    requires Inv(s) && t in s.ops && s.ops[t].at.AllocateMessage? && Enabled(s, Step(t, choice))
    requires s.ops[t].draft.size <= MAX_PAYLOAD && s.messages.free != {}
    ensures Inv(AllocateMessageStep(s, t, s.ops[t], choice))
  {
    OwnsNothing(s, t, Some(choice));
    AllocateMessageElsewhere(s, t, choice);
    AllocateMessagePrivate(s, t, choice);
    AllocateMessageInOrder(s, t, choice);
    Frame(s, AllocateMessageStep(s, t, s.ops[t], choice), Some(t), Some(choice), None);
  }

  lemma RefuseMessageConfined(s: State, t: nat, choice: nat)
    requires t in s.ops && s.ops[t].at.AllocateMessage? && OpOk(s, t) && Enabled(s, Step(t, choice))
    requires (s.ops[t].draft.size > MAX_PAYLOAD || s.messages.free == {})
    requires OwnsOnly(s, None, None)
    ensures Confined(s, AllocateMessageStep(s, t, s.ops[t], choice), Some(t), None, None)
  {
    hide Bits, BitList, HeaderOk, PayloadOk, CountOk, BytesAt, Prefix, Readable, Mask;
  }

  lemma RefuseMessageInOrder(s: State, t: nat, choice: nat)
    requires t in s.ops && s.ops[t].at.AllocateMessage? && Enabled(s, Step(t, choice))
    requires (s.ops[t].draft.size > MAX_PAYLOAD || s.messages.free == {})
    requires LocalOk(s, Some(t), None, None)
    ensures LocalOk(AllocateMessageStep(s, t, s.ops[t], choice), Some(t), None, None)
  {
    hide Bits, BitList, BytesAt, Prefix;
  }

  lemma RefuseMessageKeeps(s: State, t: nat, choice: nat)
    requires Inv(s) && t in s.ops && s.ops[t].at.AllocateMessage? && Enabled(s, Step(t, choice))
    requires (s.ops[t].draft.size > MAX_PAYLOAD || s.messages.free == {})
    ensures Inv(AllocateMessageStep(s, t, s.ops[t], choice))
  {
    RefuseMessageConfined(s, t, choice);
    RefuseMessageInOrder(s, t, choice);
    Frame(s, AllocateMessageStep(s, t, s.ops[t], choice), Some(t), None, None);
  }

  lemma FillHeaderConfined(s: State, t: nat)
    requires t in s.ops && s.ops[t].at.FillHeader? && OpOk(s, t)
    requires OwnsOnly(s, s.ops[t].built, None)
    ensures Confined(s, FillHeaderStep(s, t, s.ops[t]), Some(t), s.ops[t].built, None)
  {
    hide Bits, BitList, HeaderOk, PayloadOk, CountOk, BytesAt, Prefix, Readable, Mask;
  }

  lemma FillHeaderInOrder(s: State, t: nat)
    requires t in s.ops && s.ops[t].at.FillHeader?
    requires LocalOk(s, Some(t), s.ops[t].built, None)
    ensures LocalOk(FillHeaderStep(s, t, s.ops[t]), Some(t), s.ops[t].built, None)
  {
    hide Bits, BitList, BytesAt, Prefix;
  }

  lemma FillHeaderKeeps(s: State, t: nat)
    requires Inv(s) && t in s.ops && s.ops[t].at.FillHeader?
    ensures Inv(FillHeaderStep(s, t, s.ops[t]))
  {
    OwnsNothing(s, t, s.ops[t].built);
    FillHeaderConfined(s, t);
    FillHeaderInOrder(s, t);
    Frame(s, FillHeaderStep(s, t, s.ops[t]), Some(t), s.ops[t].built, None);
  }

  lemma AllocatePayloadElsewhere(s: State, t: nat, choice: nat)
    requires t in s.ops && s.ops[t].at.AllocatePayload? && OpOk(s, t) && Enabled(s, Step(t, choice))
    requires s.payloads.free != {}
    ensures Elsewhere(s, AllocatePayloadStep(s, t, s.ops[t], choice), Some(t), s.ops[t].built, Some(choice))
  {
    hide Bits, BitList, HeaderOk, PayloadOk, CountOk, BytesAt, Prefix, Readable, Mask;
  }

  lemma AllocatePayloadPrivate(s: State, t: nat, choice: nat)
    requires t in s.ops && s.ops[t].at.AllocatePayload? && OpOk(s, t) && Enabled(s, Step(t, choice))
    requires s.payloads.free != {}
    requires OwnsOnly(s, s.ops[t].built, Some(choice))
    ensures Private(s, AllocatePayloadStep(s, t, s.ops[t], choice), Some(t), s.ops[t].built, Some(choice))
    ensures KeepsOthers(s, AllocatePayloadStep(s, t, s.ops[t], choice), Some(t), s.ops[t].built)
  {
    hide Bits, BitList, HeaderOk, PayloadOk, CountOk, BytesAt, Prefix, Readable, Mask;
  }

  lemma AllocatePayloadInOrder(s: State, t: nat, choice: nat)
    requires t in s.ops && s.ops[t].at.AllocatePayload? && Enabled(s, Step(t, choice))
    requires s.payloads.free != {}
    requires LocalOk(s, Some(t), s.ops[t].built, Some(choice))
    ensures LocalOk(AllocatePayloadStep(s, t, s.ops[t], choice), Some(t), s.ops[t].built, Some(choice))
  {
    hide Bits, BitList, BytesAt, Prefix;
  }

  lemma AllocatePayloadKeeps(s: State, t: nat, choice: nat)
    requires Inv(s) && t in s.ops && s.ops[t].at.AllocatePayload? && Enabled(s, Step(t, choice))
    requires s.payloads.free != {}
    ensures Inv(AllocatePayloadStep(s, t, s.ops[t], choice))
  {
    OwnsNothing(s, t, s.ops[t].built);
    AllocatePayloadElsewhere(s, t, choice);
    AllocatePayloadPrivate(s, t, choice);
    AllocatePayloadInOrder(s, t, choice);
    Frame(s, AllocatePayloadStep(s, t, s.ops[t], choice), Some(t), s.ops[t].built, Some(choice));
  }

  lemma RefusePayloadConfined(s: State, t: nat, choice: nat)
    requires t in s.ops && s.ops[t].at.AllocatePayload? && OpOk(s, t) && Enabled(s, Step(t, choice))
    requires s.payloads.free == {}
    requires OwnsOnly(s, s.ops[t].built, None)
    ensures Confined(s, AllocatePayloadStep(s, t, s.ops[t], choice), Some(t), s.ops[t].built, None)
  {
    hide Bits, BitList, HeaderOk, PayloadOk, CountOk, BytesAt, Prefix, Readable, Mask;
  }

  lemma RefusePayloadInOrder(s: State, t: nat, choice: nat)
    requires t in s.ops && s.ops[t].at.AllocatePayload? && Enabled(s, Step(t, choice))
    requires s.payloads.free == {}
    requires LocalOk(s, Some(t), s.ops[t].built, None)
    ensures LocalOk(AllocatePayloadStep(s, t, s.ops[t], choice), Some(t), s.ops[t].built, None)
  {
    hide Bits, BitList, BytesAt, Prefix;
  }

  lemma RefusePayloadKeeps(s: State, t: nat, choice: nat)
    requires Inv(s) && t in s.ops && s.ops[t].at.AllocatePayload? && Enabled(s, Step(t, choice))
    requires s.payloads.free == {}
    ensures Inv(AllocatePayloadStep(s, t, s.ops[t], choice))
  {
    OwnsNothing(s, t, s.ops[t].built);
    RefusePayloadConfined(s, t, choice);
    RefusePayloadInOrder(s, t, choice);
    Frame(s, AllocatePayloadStep(s, t, s.ops[t], choice), Some(t), s.ops[t].built, None);
  }

  lemma UndoConfined(s: State, t: nat)
    requires t in s.ops && s.ops[t].at.Undo? && OpOk(s, t)
    requires OwnsOnly(s, s.ops[t].built, None)
    ensures Confined(s, UndoStep(s, t, s.ops[t]), Some(t), s.ops[t].built, None)
  {
    hide Bits, BitList, HeaderOk, PayloadOk, CountOk, BytesAt, Prefix, Readable, Mask;
  }

  lemma UndoInOrder(s: State, t: nat)
    requires t in s.ops && s.ops[t].at.Undo?
    requires LocalOk(s, Some(t), s.ops[t].built, None)
    ensures LocalOk(UndoStep(s, t, s.ops[t]), Some(t), s.ops[t].built, None)
  {
    hide Bits, BitList, BytesAt, Prefix;
  }

  lemma UndoKeeps(s: State, t: nat)
    requires Inv(s) && t in s.ops && s.ops[t].at.Undo?
    ensures Inv(UndoStep(s, t, s.ops[t]))
  {
    OwnsNothing(s, t, s.ops[t].built);
    UndoConfined(s, t);
    UndoInOrder(s, t);
    Frame(s, UndoStep(s, t, s.ops[t]), Some(t), s.ops[t].built, None);
  }

  lemma CopyPayloadElsewhere(s: State, t: nat)
    requires t in s.ops && s.ops[t].at.CopyPayload? && OpOk(s, t)
    ensures Elsewhere(s, CopyPayloadStep(s, t, s.ops[t]), Some(t), s.ops[t].built, Payload(s, s.ops[t].built))
  {
    hide Bits, BitList, HeaderOk, PayloadOk, CountOk, BytesAt, Prefix, Readable, Mask;
  }

  lemma CopyPayloadPrivate(s: State, t: nat)
    requires t in s.ops && s.ops[t].at.CopyPayload? && OpOk(s, t)
    requires OwnsOnly(s, s.ops[t].built, Payload(s, s.ops[t].built))
    ensures Private(s, CopyPayloadStep(s, t, s.ops[t]), Some(t), s.ops[t].built, Payload(s, s.ops[t].built))
    ensures KeepsOthers(s, CopyPayloadStep(s, t, s.ops[t]), Some(t), s.ops[t].built)
  {
    hide Bits, BitList, HeaderOk, PayloadOk, CountOk, BytesAt, Prefix, Readable, Mask;
  }

  /** What call `t` copies. */
  function Source(s: State, t: nat): seq<Byte>
    requires t in s.ops
  {
    SourceBytes(s, s.ops[t].draft.buffer, s.ops[t].draft.size, s.ops[t].share)
  }

  /** The bytes a call copies are all there: in the sender's memory, or in the payload block of the message
      it answers, which is in use and holds what that message was created with. */
  ghost predicate SourceReady(s: State, call: Call, bytes: seq<Byte>) {
    && call.draft.buffer.Some? && |bytes| == call.draft.size
    && match call.draft.buffer.value
       case Sender(name) =>
         name in s.buffers && call.draft.size <= |s.buffers[name]| && bytes == s.buffers[name][..call.draft.size]
       case Held =>
         call.share.Some? && HoldsBytes(s, call.share.value.block, call.draft.size, bytes)
  }

  /** `bytes` are the first ones that the live message in block `b` was created with. */
  ghost predicate HoldsBytes(s: State, b: nat, size: nat, bytes: seq<Byte>) {
    && b in s.tags && s.tags[b].phase.Live? && Get(MessageAt(s, b).payload) in s.payloads.used
    && size <= |s.tags[b].bytes| && bytes == s.tags[b].bytes[..size]
  }

  lemma PayloadPrefix(b: nat, payload: Option<nat>, psize: nat, draft: Draft, bytes: seq<Byte>,
                      data: map<nat, seq<Byte>>, owner: map<nat, nat>, size: nat)
    requires PayloadOk(b, payload, psize, draft, bytes, data, owner) && draft.CarriesPayload() && size <= draft.size
    requires draft.size <= MAX_PAYLOAD && owner.Keys <= data.Keys && forall p :: p in data ==> |data[p]| == MAX_PAYLOAD
    ensures payload.Some? && payload.value in owner && size <= |bytes|
    ensures Prefix(data[payload.value], size) == bytes[..size]
  {
  }

  /** What a live message was created with is in its payload block. */
  lemma HeldIsThere(s: State, b: nat, size: nat)
    requires Inv(s) && b in s.tags && s.tags[b].phase.Live?
    requires s.tags[b].draft.CarriesPayload() && size <= s.tags[b].draft.size
    ensures HoldsBytes(s, b, size, Prefix(DataAt(s, Get(MessageAt(s, b).payload)), size))
  {
    assert TagOk(s, b);
    assert PoolsOk(s);
    hide Inv, TagOk, PayloadOk, Prefix, MessageAt, OpOk;
    PayloadPrefix(b, MessageAt(s, b).payload, MessageAt(s, b).payloadSize, s.tags[b].draft, s.tags[b].bytes, s.data, s.owner, size);
  }

  lemma SenderIsThere(s: State, t: nat, name: nat)
    requires t in s.ops && s.ops[t].draft.buffer == Some(Sender(name)) && s.ops[t].draft.size <= MAX_PAYLOAD
    requires Readable(s, s.ops[t].draft.buffer, s.ops[t].draft.size)
    ensures SourceReady(s, s.ops[t], Source(s, t))
  {
    hide HoldsBytes;
  }

  lemma SourceIsThere(s: State, t: nat)
    requires Inv(s) && t in s.ops && s.ops[t].at.CopyPayload?
    ensures SourceReady(s, s.ops[t], Source(s, t))
  {
    CopyingCall(s, t);
    var call := s.ops[t];
    hide Inv, Readable;
    match call.draft.buffer.value
    case Sender(name) => SenderIsThere(s, t, name);
    case Held =>
      HeldIsThere(s, call.share.value.block, call.draft.size);
      hide MessageAt, DataAt;
  }

  lemma CopyingCall(s: State, t: nat)
    requires Inv(s) && t in s.ops && s.ops[t].at.CopyPayload?
    ensures var call := s.ops[t];
            && call.draft.buffer.Some? && call.draft.size <= MAX_PAYLOAD
            && Readable(s, call.draft.buffer, call.draft.size)
            && (call.draft.buffer == Some(Held) ==>
                && call.share.Some? && Claimed(s, t, call.share.value)
                && Lends(s.tags, call.share, call.draft.buffer, call.draft.size))
  {
    assert OpOk(s, t);
    assert TagOk(s, s.ops[t].built.value);
    hide Inv, Carries, HeaderOk, Readable, Lends, Claimed;
  }

  lemma CopyPayloadInOrder(s: State, t: nat)
    requires t in s.ops && s.ops[t].at.CopyPayload? && |Source(s, t)| == s.ops[t].draft.size
    requires LocalOk(s, Some(t), s.ops[t].built, Payload(s, s.ops[t].built))
    ensures LocalOk(CopyPayloadStep(s, t, s.ops[t]), Some(t), s.ops[t].built, Payload(s, s.ops[t].built))
  {
    hide Bits, BitList;
  }

  lemma CopyPayloadKeeps(s: State, t: nat)
    requires Inv(s) && t in s.ops && s.ops[t].at.CopyPayload?
    ensures Inv(CopyPayloadStep(s, t, s.ops[t]))
  {
    OwnsItsPayload(s, s.ops[t].built);
    CopyPayloadElsewhere(s, t);
    CopyPayloadPrivate(s, t);
    SourceIsThere(s, t);
    CopyPayloadInOrder(s, t);
    Frame(s, CopyPayloadStep(s, t, s.ops[t]), Some(t), s.ops[t].built, Payload(s, s.ops[t].built));
  }

  lemma ClearPayloadConfined(s: State, t: nat)
    requires t in s.ops && s.ops[t].at.ClearPayload? && OpOk(s, t)
    requires OwnsOnly(s, s.ops[t].built, None)
    ensures Confined(s, ClearPayloadStep(s, t, s.ops[t]), Some(t), s.ops[t].built, None)
  {
    hide Bits, BitList, HeaderOk, PayloadOk, CountOk, BytesAt, Prefix, Readable, Mask;
  }

  lemma ClearPayloadInOrder(s: State, t: nat)
    requires t in s.ops && s.ops[t].at.ClearPayload?
    requires LocalOk(s, Some(t), s.ops[t].built, None)
    ensures LocalOk(ClearPayloadStep(s, t, s.ops[t]), Some(t), s.ops[t].built, None)
  {
    hide Bits, BitList;
  }

  lemma ClearPayloadKeeps(s: State, t: nat)
    requires Inv(s) && t in s.ops && s.ops[t].at.ClearPayload?
    ensures Inv(ClearPayloadStep(s, t, s.ops[t]))
  {
    OwnsNothing(s, t, s.ops[t].built);
    ClearPayloadConfined(s, t);
    ClearPayloadInOrder(s, t);
    Frame(s, ClearPayloadStep(s, t, s.ops[t]), Some(t), s.ops[t].built, None);
  }

  lemma SetCountConfined(s: State, t: nat)
    requires t in s.ops && s.ops[t].at.SetCount? && OpOk(s, t)
    requires OwnsOnly(s, s.ops[t].built, Payload(s, s.ops[t].built))
    ensures Confined(s, SetCountStep(s, t, s.ops[t]), Some(t), s.ops[t].built, Payload(s, s.ops[t].built))
  {
    hide Bits, BitList, HeaderOk, PayloadOk, CountOk, BytesAt, Prefix, Readable, Mask;
  }

  lemma SetCountInOrder(s: State, t: nat)
    requires t in s.ops && s.ops[t].at.SetCount?
    requires LocalOk(s, Some(t), s.ops[t].built, Payload(s, s.ops[t].built))
    ensures LocalOk(SetCountStep(s, t, s.ops[t]), Some(t), s.ops[t].built, Payload(s, s.ops[t].built))
  {
    hide Bits, BitList, PayloadOk;
    BitsAreTheSetBits(s.ops[t].draft.dest);
  }

  lemma SetCountKeeps(s: State, t: nat)
    requires Inv(s) && t in s.ops && s.ops[t].at.SetCount?
    ensures Inv(SetCountStep(s, t, s.ops[t]))
  {
    OwnsItsPayload(s, s.ops[t].built);
    SetCountConfined(s, t);
    SetCountInOrder(s, t);
    Frame(s, SetCountStep(s, t, s.ops[t]), Some(t), s.ops[t].built, Payload(s, s.ops[t].built));
  }

  /** Counting down takes exactly the caller's own share out of the pending ones. */
  lemma PendingShrinks(owed: set<nat>, claimed: set<nat>, mask: nat, count: nat, bit: nat)
    requires PendingOk(owed, claimed, mask, count) && bit in claimed
    ensures count == 1 ==> owed == {} && claimed == {bit}
    ensures count != 1 ==> PendingOk(owed, claimed - {bit}, mask, CountMinusOne(count))
  {
    hide Bits, BitList;
    var rest := owed + (claimed - {bit});
    assert owed + claimed == rest + {bit};
    if count == 1 {
      assert rest == {};
    } else {
      assert |rest| == count - 1;
      assert CountMinusOne(count) == count - 1;
    }
  }

  lemma ClaimLeaves(b: nat, claims: map<nat, nat>, ops: map<nat, Call>, d: nat, t: nat, call: Call)
    requires ClaimsOk(b, claims, ops) && d in claims && claims[d] == t
    ensures ClaimsOk(b, claims - {d}, ops[t := call])
    ensures forall e :: e in claims && claims[e] == t ==> e == d
  {
  }

  lemma DecrementLastElsewhere(s: State, t: nat)
    requires t in s.ops
    ensures Elsewhere(s, DecrementLastStep(s, t, s.ops[t]), Some(t), Some(Counted(s, t)), Payload(s, Some(Counted(s, t))))
  {
    hide Bits, BitList, CountMinusOne;
  }

  lemma DecrementOtherElsewhere(s: State, t: nat)
    requires t in s.ops
    ensures Elsewhere(s, DecrementOtherStep(s, t, s.ops[t]), Some(t), Some(Counted(s, t)), Payload(s, Some(Counted(s, t))))
  {
    hide Bits, BitList, CountMinusOne;
  }

  /** What the bookkeeping of a message says once call `t` has counted down and become `call`. */
  lemma ShareSpent(s: State, t: nat, call: Call)
    requires t in s.ops && OpOk(s, t) && s.ops[t].share.Some? && Counted(s, t) in s.tags && TagOk(s, Counted(s, t))
    ensures var tag, b, bit := s.tags[Counted(s, t)], Counted(s, t), s.ops[t].share.value.bit;
            && tag.phase.Live? && bit in tag.phase.claims && tag.phase.claims[bit] == t && Carries(s, b)
            && (forall e :: e in tag.phase.claims && tag.phase.claims[e] == t ==> e == bit)
            && ClaimsOk(b, tag.phase.claims - {bit}, s.ops[t := call])
            && (MessageAt(s, b).count == 1 ==> tag.phase.owed == {} && tag.phase.claims.Keys == {bit})
            && (MessageAt(s, b).count != 1 ==>
                PendingOk(tag.phase.owed, (tag.phase.claims - {bit}).Keys, tag.draft.dest, CountMinusOne(MessageAt(s, b).count)))
  {
    hide PendingOk, ClaimsOk, PayloadOk, HeaderOk, Bits, BitList, CountMinusOne;
    var tag, b, bit := s.tags[Counted(s, t)], Counted(s, t), s.ops[t].share.value.bit;
    PendingShrinks(tag.phase.owed, tag.phase.claims.Keys, tag.draft.dest, MessageAt(s, b).count, bit);
    ClaimLeaves(b, tag.phase.claims, s.ops, bit, t, call);
    assert (tag.phase.claims - {bit}).Keys == tag.phase.claims.Keys - {bit};
  }

  lemma DecrementLastPrivate(s: State, t: nat)
    requires t in s.ops && s.ops[t].at.Decrement? && OpOk(s, t) && MessageAt(s, Counted(s, t)).count == 1
    requires Counted(s, t) in s.tags && TagOk(s, Counted(s, t))
    requires OwnsOnly(s, Some(Counted(s, t)), Payload(s, Some(Counted(s, t))))
    ensures Private(s, DecrementLastStep(s, t, s.ops[t]), Some(t), Some(Counted(s, t)), Payload(s, Some(Counted(s, t))))
  {
    ShareSpent(s, t, DecrementLastStep(s, t, s.ops[t]).ops[t]);
    hide OpOk, TagOk;
    hide Bits, BitList, PayloadOk, HeaderOk, CountOk, PendingOk, ClaimsOk;
  }

  lemma DecrementLastKeepsOthers(s: State, t: nat)
    requires t in s.ops && s.ops[t].at.Decrement? && CallOk(s.ops[t])
    ensures KeepsOthers(s, DecrementLastStep(s, t, s.ops[t]), Some(t), Some(Counted(s, t)))
  {
  }

  lemma DecrementLastTag(s: State, t: nat)
    requires t in s.ops && s.ops[t].at.Decrement? && MessageAt(s, Counted(s, t)).count == 1 && OpOk(s, t)
    requires Counted(s, t) in s.tags && TagOk(s, Counted(s, t))
    ensures Counted(s, t) in DecrementLastStep(s, t, s.ops[t]).tags && TagOk(DecrementLastStep(s, t, s.ops[t]), Counted(s, t))
  {
    ShareSpent(s, t, DecrementLastStep(s, t, s.ops[t]).ops[t]);
    hide BuildOk, FreeOk;
    hide Bits, BitList, PayloadOk, HeaderOk, CountOk, PendingOk, ClaimsOk;
  }

  lemma DecrementLastOp(s: State, t: nat)
    requires t in s.ops && s.ops[t].at.Decrement? && MessageAt(s, Counted(s, t)).count == 1 && OpOk(s, t)
    requires Counted(s, t) in s.tags && Carries(s, Counted(s, t))
    ensures OpOk(DecrementLastStep(s, t, s.ops[t]), t)
  {
    hide Bits, BitList, PayloadOk, HeaderOk, CountOk, PendingOk, ClaimsOk;
  }

  lemma DecrementLastInOrder(s: State, t: nat)
    requires t in s.ops && s.ops[t].at.Decrement? && MessageAt(s, Counted(s, t)).count == 1
    requires LocalOk(s, Some(t), Some(Counted(s, t)), Payload(s, Some(Counted(s, t))))
    requires OwnsOnly(s, Some(Counted(s, t)), Payload(s, Some(Counted(s, t))))
    ensures LocalOk(DecrementLastStep(s, t, s.ops[t]), Some(t), Some(Counted(s, t)), Payload(s, Some(Counted(s, t))))
  {
    DecrementLastTag(s, t);
    DecrementLastOp(s, t);
    hide OpOk, TagOk;
    hide Bits, BitList, PayloadOk, HeaderOk, CountOk, PendingOk, ClaimsOk;
  }

  lemma DecrementLastKeeps(s: State, t: nat)
    requires Inv(s) && t in s.ops && s.ops[t].at.Decrement? && MessageAt(s, Counted(s, t)).count == 1
    ensures Inv(DecrementLastStep(s, t, s.ops[t]))
  {
    OwnsItsPayload(s, Some(Counted(s, t)));
    DecrementLastElsewhere(s, t);
    DecrementLastPrivate(s, t);
    DecrementLastKeepsOthers(s, t);
    DecrementLastInOrder(s, t);
    Frame(s, DecrementLastStep(s, t, s.ops[t]), Some(t), Some(Counted(s, t)), Payload(s, Some(Counted(s, t))));
  }

  lemma DecrementOtherClaims(s: State, t: nat, tag: Tag)
    requires t in s.ops && s.ops[t].at.Decrement? && s.ops[t].share.Some? && Counted(s, t) in s.tags
    requires tag == s.tags[Counted(s, t)] && tag.phase.Live?
    requires var bit := s.ops[t].share.value.bit; bit in tag.phase.claims && tag.phase.claims[bit] == t
    requires forall e :: e in tag.phase.claims && tag.phase.claims[e] == t ==> e == s.ops[t].share.value.bit
    ensures OthersKeepClaims(DecrementOtherStep(s, t, s.ops[t]), Some(t), Counted(s, t), tag.phase.claims, tag.draft)
  {
    hide CountMinusOne, MessageAt;
  }

  lemma DecrementOtherPrivate(s: State, t: nat)
    requires t in s.ops && s.ops[t].at.Decrement? && OpOk(s, t) && MessageAt(s, Counted(s, t)).count != 1
    requires Counted(s, t) in s.tags && TagOk(s, Counted(s, t))
    requires OwnsOnly(s, Some(Counted(s, t)), Payload(s, Some(Counted(s, t))))
    ensures Private(s, DecrementOtherStep(s, t, s.ops[t]), Some(t), Some(Counted(s, t)), Payload(s, Some(Counted(s, t))))
  {
    ShareSpent(s, t, DecrementOtherStep(s, t, s.ops[t]).ops[t]);
    DecrementOtherClaims(s, t, s.tags[Counted(s, t)]);
    hide OpOk, TagOk, Carries, OthersKeepClaims, DecrementOtherStep, Payload, PendingOk, ClaimsOk;
  }

  lemma DecrementOtherKeepsOthers(s: State, t: nat)
    requires t in s.ops && s.ops[t].at.Decrement? && CallOk(s.ops[t])
    ensures KeepsOthers(s, DecrementOtherStep(s, t, s.ops[t]), Some(t), Some(Counted(s, t)))
  {
  }

  lemma DecrementOtherTag(s: State, t: nat)
    requires t in s.ops && s.ops[t].at.Decrement? && MessageAt(s, Counted(s, t)).count != 1 && OpOk(s, t)
    requires Counted(s, t) in s.tags && TagOk(s, Counted(s, t))
    ensures Counted(s, t) in DecrementOtherStep(s, t, s.ops[t]).tags && TagOk(DecrementOtherStep(s, t, s.ops[t]), Counted(s, t))
  {
    ShareSpent(s, t, DecrementOtherStep(s, t, s.ops[t]).ops[t]);
    hide BuildOk, FreeOk;
    hide Bits, BitList, PayloadOk, HeaderOk, CountOk, PendingOk, ClaimsOk;
  }

  lemma DecrementOtherOp(s: State, t: nat)
    requires t in s.ops && s.ops[t].at.Decrement? && MessageAt(s, Counted(s, t)).count != 1 && OpOk(s, t)
    requires Counted(s, t) in s.tags && Carries(s, Counted(s, t))
    ensures OpOk(DecrementOtherStep(s, t, s.ops[t]), t)
  {
    hide Bits, BitList, PayloadOk, HeaderOk, CountOk, PendingOk, ClaimsOk;
  }

  lemma DecrementOtherPools(s: State, t: nat)
    requires t in s.ops && s.ops[t].at.Decrement?
    requires PoolsOk(s) && Counted(s, t) in s.tags
    ensures PoolsOk(DecrementOtherStep(s, t, s.ops[t]))
  {
    hide Spend, CountMinusOne, MessageAt;
  }

  lemma DecrementOtherOwner(s: State, t: nat, p: nat)
    requires t in s.ops && s.ops[t].at.Decrement? && Counted(s, t) in s.tags && s.tags[Counted(s, t)].phase.Live?
    requires p in s.owner && s.owner[p] == Counted(s, t) && OwnerOk(s, p)
    ensures p in DecrementOtherStep(s, t, s.ops[t]).owner && OwnerOk(DecrementOtherStep(s, t, s.ops[t]), p)
  {
    hide CountMinusOne;
  }

  lemma DecrementOtherInOrder(s: State, t: nat)
    requires t in s.ops && s.ops[t].at.Decrement? && MessageAt(s, Counted(s, t)).count != 1
    requires LocalOk(s, Some(t), Some(Counted(s, t)), Payload(s, Some(Counted(s, t))))
    requires OwnsOnly(s, Some(Counted(s, t)), Payload(s, Some(Counted(s, t))))
    ensures LocalOk(DecrementOtherStep(s, t, s.ops[t]), Some(t), Some(Counted(s, t)), Payload(s, Some(Counted(s, t))))
  {
    DecrementOtherTag(s, t);
    DecrementOtherOp(s, t);
    DecrementOtherPools(s, t);
    var p := Payload(s, Some(Counted(s, t)));
    if p.Some? && p.value in s.owner {
      DecrementOtherOwner(s, t, p.value);
    }
    assert DecrementOtherStep(s, t, s.ops[t]).owner == s.owner;
    hide OpOk, TagOk, PoolsOk, OwnerOk, Payload, DecrementOtherStep;
  }

  lemma DecrementOtherKeeps(s: State, t: nat)
    requires Inv(s) && t in s.ops && s.ops[t].at.Decrement? && MessageAt(s, Counted(s, t)).count != 1
    ensures Inv(DecrementOtherStep(s, t, s.ops[t]))
  {
    OwnsItsPayload(s, Some(Counted(s, t)));
    DecrementOtherElsewhere(s, t);
    DecrementOtherPrivate(s, t);
    DecrementOtherKeepsOthers(s, t);
    DecrementOtherInOrder(s, t);
    Frame(s, DecrementOtherStep(s, t, s.ops[t]), Some(t), Some(Counted(s, t)), Payload(s, Some(Counted(s, t))));
  }

  /** Releasing the payload finds either no payload or a block that is out and belongs to the message. */
  lemma PayloadIsOut(s: State, t: nat)
    requires t in s.ops && s.ops[t].at.ReleasePayload? && OpOk(s, t) && PoolsOk(s)
    ensures MessageAt(s, Get(s.ops[t].last)).payload == Payload(s, s.ops[t].last)
    ensures MessageAt(s, Get(s.ops[t].last)).payload.Some? ==> MessageAt(s, Get(s.ops[t].last)).payload.value in s.payloads.used
  {
  }

  lemma SkipPayloadConfined(s: State, t: nat)
    requires t in s.ops && s.ops[t].at.ReleasePayload? && OpOk(s, t)
    requires MessageAt(s, Get(s.ops[t].last)).payload.None?
    requires OwnsOnly(s, s.ops[t].last, Payload(s, s.ops[t].last))
    ensures Confined(s, Goto(s, t, s.ops[t].(at := ReleaseMessage)), Some(t), s.ops[t].last, Payload(s, s.ops[t].last))
  {
    hide Bits, BitList, HeaderOk, PayloadOk, CountOk, BytesAt, Prefix, Readable, Mask;
  }

  lemma SkipPayloadInOrder(s: State, t: nat)
    requires t in s.ops && s.ops[t].at.ReleasePayload?
    requires MessageAt(s, Get(s.ops[t].last)).payload.None?
    requires LocalOk(s, Some(t), s.ops[t].last, Payload(s, s.ops[t].last))
    ensures LocalOk(Goto(s, t, s.ops[t].(at := ReleaseMessage)), Some(t), s.ops[t].last, Payload(s, s.ops[t].last))
  {
    hide Bits, BitList, HeaderOk, BytesAt;
  }

  lemma SkipPayloadKeeps(s: State, t: nat)
    requires Inv(s) && t in s.ops && s.ops[t].at.ReleasePayload?
    requires MessageAt(s, Get(s.ops[t].last)).payload.None?
    ensures Inv(Goto(s, t, s.ops[t].(at := ReleaseMessage)))
  {
    OwnsItsPayload(s, s.ops[t].last);
    SkipPayloadConfined(s, t);
    SkipPayloadInOrder(s, t);
    Frame(s, Goto(s, t, s.ops[t].(at := ReleaseMessage)), Some(t), s.ops[t].last, Payload(s, s.ops[t].last));
  }

  lemma GivePayloadConfined(s: State, t: nat)
    requires t in s.ops && s.ops[t].at.ReleasePayload? && OpOk(s, t) && PoolsOk(s)
    requires MessageAt(s, Get(s.ops[t].last)).payload.Some?
    requires OwnsOnly(s, s.ops[t].last, Payload(s, s.ops[t].last))
    ensures Confined(s, GivePayloadStep(s, t, s.ops[t], MessageAt(s, Get(s.ops[t].last)).payload.value),
                     Some(t), s.ops[t].last, Payload(s, s.ops[t].last))
  {
    PayloadIsOut(s, t);
    hide Bits, BitList, HeaderOk, PayloadOk, CountOk, BytesAt, Prefix, Readable, Mask;
    hide PoolsOk;
  }

  lemma GivePayloadInOrder(s: State, t: nat)
    requires t in s.ops && s.ops[t].at.ReleasePayload?
    requires MessageAt(s, Get(s.ops[t].last)).payload.Some?
    requires LocalOk(s, Some(t), s.ops[t].last, Payload(s, s.ops[t].last))
    ensures LocalOk(GivePayloadStep(s, t, s.ops[t], MessageAt(s, Get(s.ops[t].last)).payload.value),
                    Some(t), s.ops[t].last, Payload(s, s.ops[t].last))
  {
    PayloadIsOut(s, t);
    hide Bits, BitList, HeaderOk, PayloadOk, BytesAt;
  }

  lemma GivePayloadKeeps(s: State, t: nat)
    requires Inv(s) && t in s.ops && s.ops[t].at.ReleasePayload?
    requires MessageAt(s, Get(s.ops[t].last)).payload.Some?
    ensures Inv(GivePayloadStep(s, t, s.ops[t], MessageAt(s, Get(s.ops[t].last)).payload.value))
  {
    OwnsItsPayload(s, s.ops[t].last);
    GivePayloadConfined(s, t);
    GivePayloadInOrder(s, t);
    Frame(s, GivePayloadStep(s, t, s.ops[t], MessageAt(s, Get(s.ops[t].last)).payload.value),
          Some(t), s.ops[t].last, Payload(s, s.ops[t].last));
  }

  lemma ForgetPayloadConfined(s: State, t: nat)
    requires t in s.ops && s.ops[t].at.ForgetPayload? && OpOk(s, t)
    requires OwnsOnly(s, s.ops[t].last, None)
    ensures Confined(s, ForgetPayloadStep(s, t, s.ops[t]), Some(t), s.ops[t].last, None)
  {
    hide Bits, BitList, HeaderOk, PayloadOk, CountOk, BytesAt, Prefix, Readable, Mask;
  }

  lemma ForgetPayloadInOrder(s: State, t: nat)
    requires t in s.ops && s.ops[t].at.ForgetPayload?
    requires LocalOk(s, Some(t), s.ops[t].last, None)
    ensures LocalOk(ForgetPayloadStep(s, t, s.ops[t]), Some(t), s.ops[t].last, None)
  {
    hide Bits, BitList, PayloadOk;
  }

  lemma ForgetPayloadKeeps(s: State, t: nat)
    requires Inv(s) && t in s.ops && s.ops[t].at.ForgetPayload?
    ensures Inv(ForgetPayloadStep(s, t, s.ops[t]))
  {
    OwnsNothing(s, t, s.ops[t].last);
    ForgetPayloadConfined(s, t);
    ForgetPayloadInOrder(s, t);
    Frame(s, ForgetPayloadStep(s, t, s.ops[t]), Some(t), s.ops[t].last, None);
  }

  lemma ReleaseMessageConfined(s: State, t: nat)
    requires t in s.ops && s.ops[t].at.ReleaseMessage? && OpOk(s, t) && PoolsOk(s)
    requires OwnsOnly(s, s.ops[t].last, None)
    ensures Confined(s, ReleaseMessageStep(s, t, s.ops[t]), Some(t), s.ops[t].last, None)
  {
    hide Bits, BitList, HeaderOk, PayloadOk, CountOk, BytesAt, Prefix, Readable, Mask;
  }

  lemma ReleaseMessageInOrder(s: State, t: nat)
    requires t in s.ops && s.ops[t].at.ReleaseMessage?
    requires LocalOk(s, Some(t), s.ops[t].last, None)
    ensures LocalOk(ReleaseMessageStep(s, t, s.ops[t]), Some(t), s.ops[t].last, None)
  {
    hide Bits, BitList, HeaderOk, PayloadOk;
  }

  lemma ReleaseMessageKeeps(s: State, t: nat)
    requires Inv(s) && t in s.ops && s.ops[t].at.ReleaseMessage?
    ensures Inv(ReleaseMessageStep(s, t, s.ops[t]))
  {
    OwnsNothing(s, t, s.ops[t].last);
    ReleaseMessageConfined(s, t);
    ReleaseMessageInOrder(s, t);
    Frame(s, ReleaseMessageStep(s, t, s.ops[t]), Some(t), s.ops[t].last, None);
  }

  const NO_CLAIMS: map<nat, nat> := map[]

  /** A message that is passed on is owed to every recipient its mask names. */
  lemma AllOwed(mask: nat, count: nat)
    requires Mask(mask) && CountOk(count, Bits(mask))
    ensures PendingOk(Bits(mask), NO_CLAIMS.Keys, mask, count)
  {
    BitsAreTheSetBits(mask);
    assert Bits(mask) + NO_CLAIMS.Keys == Bits(mask);
  }

  lemma ReturnTag(s: State, t: nat, b: nat)
    requires t in s.ops && s.ops[t].at.Return? && s.ops[t].built == Some(b) && OpOk(s, t) && TagOk(s, b)
    ensures b in ReturnStep(s, t, s.ops[t]).tags && TagOk(ReturnStep(s, t, s.ops[t]), b)
  {
    AllOwed(s.tags[b].draft.dest, MessageAt(s, b).count);
    hide Bits, BitList, HeaderOk, PayloadOk, PendingOk, CountOk;
  }

  lemma PublishConfined(s: State, t: nat)
    requires t in s.ops && s.ops[t].at.Return? && OpOk(s, t)
    requires s.ops[t].built.Some?
    requires OwnsOnly(s, s.ops[t].built, Payload(s, s.ops[t].built))
    ensures Confined(s, ReturnStep(s, t, s.ops[t]), Some(t), s.ops[t].built, Payload(s, s.ops[t].built))
  {
    hide Bits, BitList, HeaderOk, PayloadOk, CountOk, BytesAt, Prefix, Readable, Mask;
  }

  lemma PublishInOrder(s: State, t: nat)
    requires t in s.ops && s.ops[t].at.Return?
    requires s.ops[t].built.Some?
    requires LocalOk(s, Some(t), s.ops[t].built, Payload(s, s.ops[t].built))
    ensures LocalOk(ReturnStep(s, t, s.ops[t]), Some(t), s.ops[t].built, Payload(s, s.ops[t].built))
  {
    ReturnTag(s, t, s.ops[t].built.value);
    hide Bits, BitList, HeaderOk, PayloadOk, PendingOk, CountOk, TagOk;
  }

  lemma PublishKeeps(s: State, t: nat)
    requires Inv(s) && t in s.ops && s.ops[t].at.Return?
    requires s.ops[t].built.Some?
    ensures Inv(ReturnStep(s, t, s.ops[t]))
  {
    OwnsItsPayload(s, s.ops[t].built);
    PublishConfined(s, t);
    PublishInOrder(s, t);
    Frame(s, ReturnStep(s, t, s.ops[t]), Some(t), s.ops[t].built, Payload(s, s.ops[t].built));
  }

  lemma ReturnConfined(s: State, t: nat)
    requires t in s.ops && s.ops[t].at.Return? && OpOk(s, t)
    requires s.ops[t].built.None?
    requires OwnsOnly(s, None, None)
    ensures Confined(s, ReturnStep(s, t, s.ops[t]), Some(t), None, None)
  {
    hide Bits, BitList, HeaderOk, PayloadOk, CountOk, BytesAt, Prefix, Readable, Mask;
  }

  lemma ReturnInOrder(s: State, t: nat)
    requires t in s.ops && s.ops[t].at.Return?
    requires s.ops[t].built.None?
    requires LocalOk(s, Some(t), None, None)
    ensures LocalOk(ReturnStep(s, t, s.ops[t]), Some(t), None, None)
  {
    hide Bits, BitList, HeaderOk, PayloadOk, PendingOk, CountOk;
  }

  lemma ReturnKeeps(s: State, t: nat)
    requires Inv(s) && t in s.ops && s.ops[t].at.Return?
    requires s.ops[t].built.None?
    ensures Inv(ReturnStep(s, t, s.ops[t]))
  {
    ReturnConfined(s, t);
    ReturnInOrder(s, t);
    Frame(s, ReturnStep(s, t, s.ops[t]), Some(t), None, None);
  }

  // ---------------------------------------------------------------- whole steps and whole runs

  lemma TryMessageKeeps(s: State, t: nat, choice: nat)
    requires Inv(s) && Enabled(s, Step(t, choice)) && s.ops[t].at.AllocateMessage?
    ensures Inv(AllocateMessageStep(s, t, s.ops[t], choice))
  {
    if s.ops[t].draft.size > MAX_PAYLOAD || s.messages.free == {} {
      RefuseMessageKeeps(s, t, choice);
    } else {
      AllocateMessageKeeps(s, t, choice);
    }
    hide Inv, AllocateMessageStep;
  }

  lemma TryPayloadKeeps(s: State, t: nat, choice: nat)
    requires Inv(s) && Enabled(s, Step(t, choice)) && s.ops[t].at.AllocatePayload?
    ensures Inv(AllocatePayloadStep(s, t, s.ops[t], choice))
  {
    if s.payloads.free == {} {
      RefusePayloadKeeps(s, t, choice);
    } else {
      AllocatePayloadKeeps(s, t, choice);
    }
    hide Inv, AllocatePayloadStep;
  }

  lemma DecrementKeeps(s: State, t: nat)
    requires Inv(s) && t in s.ops && s.ops[t].at.Decrement?
    ensures Inv(DecrementStep(s, t, s.ops[t]))
  {
    if MessageAt(s, Counted(s, t)).count == 1 {
      DecrementLastKeeps(s, t);
    } else {
      DecrementOtherKeeps(s, t);
    }
    hide Inv, DecrementLastStep, DecrementOtherStep;
  }

  lemma ReleasePayloadKeeps(s: State, t: nat)
    requires Inv(s) && t in s.ops && s.ops[t].at.ReleasePayload?
    ensures Inv(ReleasePayloadStep(s, t, s.ops[t]))
  {
    assert OpOk(s, t);
    PayloadIsOut(s, t);
    if MessageAt(s, Get(s.ops[t].last)).payload.None? {
      SkipPayloadKeeps(s, t);
    } else {
      GivePayloadKeeps(s, t);
    }
    hide Inv, GivePayloadStep, Goto, Payload, OpOk;
  }

  lemma ReturnsKeep(s: State, t: nat)
    requires Inv(s) && t in s.ops && s.ops[t].at.Return?
    ensures Inv(ReturnStep(s, t, s.ops[t]))
  {
    hide Inv, ReturnStep;
    if s.ops[t].built.Some? {
      PublishKeeps(s, t);
    } else {
      ReturnKeeps(s, t);
    }
  }

  lemma StepKeeps(s: State, t: nat, choice: nat)
    requires Inv(s) && Enabled(s, Step(t, choice))
    ensures Inv(StepOp(s, t, choice))
  {
    hide Inv, ReadRequestStep, AllocateMessageStep, FillHeaderStep, AllocatePayloadStep, UndoStep, CopyPayloadStep,
         ClearPayloadStep, SetCountStep, DecrementStep, ReleasePayloadStep, ForgetPayloadStep, ReleaseMessageStep, ReturnStep;
    match s.ops[t].at
    case ReadRequest => ReadRequestKeeps(s, t);
    case AllocateMessage => TryMessageKeeps(s, t, choice);
    case FillHeader => FillHeaderKeeps(s, t);
    case AllocatePayload => TryPayloadKeeps(s, t, choice);
    case Undo => UndoKeeps(s, t);
    case CopyPayload => CopyPayloadKeeps(s, t);
    case ClearPayload => ClearPayloadKeeps(s, t);
    case SetCount => SetCountKeeps(s, t);
    case Decrement => DecrementKeeps(s, t);
    case ReleasePayload => ReleasePayloadKeeps(s, t);
    case ForgetPayload => ForgetPayloadKeeps(s, t);
    case ReleaseMessage => ReleaseMessageKeeps(s, t);
    case Return => ReturnsKeep(s, t);
  }

  lemma ApplyKeeps(s: State, e: Event)
    requires Inv(s) && Enabled(s, e)
    ensures Inv(Apply(s, e))
  {
    hide Inv, ClaimStep, StepOp, Goto;
    match e
    case Send(t, draft) => SendKeeps(s, t, draft);
    case Consume(t, share) => ClaimKeeps(s, t, share, ConsumeCall(share));
    case Respond(t, share, info, buffer, size) => ClaimKeeps(s, t, share, RespondCall(share, info, buffer, size));
    case Step(t, choice) => StepKeeps(s, t, choice);
    case Peek(_) =>
    case Scribble(x, bytes) => ScribbleKeeps(s, x, bytes);
  }

  /** The invariant holds in every state that any interleaving of any calls can reach. */
  lemma {:induction false} RunKeeps(s: State, es: seq<Event>)
    requires Inv(s) && Runs(s, es)
    ensures Inv(After(s, es))
    decreases |es|
  {
    hide Inv, Enabled, Apply;
    if es != [] {
      ApplyKeeps(s, es[0]);
      RunKeeps(Apply(s, es[0]), es[1..]);
    }
  }
}
