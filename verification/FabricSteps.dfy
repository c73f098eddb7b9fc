/** The message fabric as a step system. Any number of calls of create_message, consume_message and
    create_response_message are in flight at once, and they interleave between any two of their
    accesses to shared memory or to the pools. */
module FabricSteps {
  import opened FabricTypes
  import opened Masks
  import opened Wrappers

  /** Where a payload pointer leads: to memory of the sender's, or into the payload block of the message that
      the call answers, which is passed back. */
  datatype Memory = Sender(name: nat) | Held

  /** The arguments of create_message. `buffer` is the payload pointer; None is a null pointer. */
  datatype Draft = Draft(dest: nat, src: nat, kind: Kind, info: bv16, buffer: Option<Memory>, size: nat) {
    predicate CarriesPayload() {
      size != 0 && buffer.Some?
    }
  }

  /** One recipient's right to read a message, and its duty to consume it once. */
  datatype Share = Share(block: nat, bit: nat)

  /** The next access a call in flight makes to shared memory or to a pool. */
  datatype Line =
    | ReadRequest | AllocateMessage | FillHeader | AllocatePayload | Undo | CopyPayload | ClearPayload | SetCount
    | Decrement | ReleasePayload | ForgetPayload | ReleaseMessage | Return
  {
    /** Inside create_message, with a block allocated. */
    predicate Creating() {
      FillHeader? || AllocatePayload? || Undo? || CopyPayload? || ClearPayload? || SetCount?
    }

    /** Past create_message. */
    predicate Created() {
      Decrement? || Freeing() || Return?
    }

    /** Inside consume_message, as the last recipient. */
    predicate Freeing() {
      ReleasePayload? || ForgetPayload? || ReleaseMessage?
    }
  }

  /** A call in flight, with its local variables: the arguments of create_message, the share of the
      message it has still to consume, the block it has allocated and will return, and the block it
      frees as the last recipient. */
  datatype Call = Call(at: Line, draft: Draft, share: Option<Share>, built: Option<nat>, last: Option<nat>)

  /** The share a reply answers: the serial number of the request, and the recipient's bit. */
  datatype Cause = Cause(id: nat, bit: nat)

  /** The life of an allocated message block. In `Live`, `owed` are the recipients that have not
      called back yet and `claims` those whose call has not decremented the count yet. */
  datatype Phase = Building(op: nat) | Live(owed: set<nat>, claims: map<nat, nat>) | Freeing(op: nat)

  /** Bookkeeping about an allocated message block, which no step of the code reads. */
  datatype Tag = Tag(id: nat, draft: Draft, bytes: seq<Byte>, phase: Phase)

  /** What has happened so far, by serial number of the message it happened to: what its creator
      asked for, which share it answers, whether it was passed on, whether it was given a payload
      block, and how often a call saw itself last on it, released its payload, or released it. */
  datatype History = History(
    nextId: nat,
    drafts: map<nat, Draft>,
    causes: map<nat, Cause>,
    published: set<nat>,
    withPayload: set<nat>,
    lasts: multiset<nat>,
    payloadFrees: multiset<nat>,
    messageFrees: multiset<nat>,
    errors: nat)

  datatype State = State(
    messages: Pool,
    payloads: Pool,
    mem: map<nat, Message>,
    data: map<nat, seq<Byte>>,
    buffers: map<nat, seq<Byte>>,
    ops: map<nat, Call>,
    tags: map<nat, Tag>,
    owner: map<nat, nat>,
    past: History)

  datatype Event =
    | Send(op: nat, draft: Draft)
    | Consume(op: nat, share: Share)
    | Respond(op: nat, share: Share, info: bv16, buffer: Option<Memory>, size: nat)
    | Step(op: nat, choice: nat)
    | Peek(share: Share)
    | Scribble(memory: nat, bytes: seq<Byte>)

  const BLANK := Message(0, 0, Command, 0, 0, None, 0)

  /** Reading a block outside the pool's memory yields an arbitrary value. */
  function MessageAt(s: State, b: nat): Message {
    if b in s.mem then s.mem[b] else BLANK
  }

  function DataAt(s: State, p: nat): seq<Byte> {
    if p in s.data then s.data[p] else []
  }

  function IdOf(s: State, b: nat): nat {
    if b in s.tags then s.tags[b].id else 0
  }

  function CauseOf(s: State, share: Share): Cause {
    Cause(IdOf(s, share.block), share.bit)
  }

  function Get(o: Option<nat>): nat {
    if o.Some? then o.value else 0
  }

  function GetShare(o: Option<Share>): Share {
    if o.Some? then o.value else Share(0, 0)
  }

  // ---------------------------------------------------------------- what one step does

  function Goto(s: State, t: nat, call: Call): State {
    s.(ops := s.ops[t := call])
  }

  /** create_message returns: to the caller, or to the second half of create_response_message. */
  function AfterCreate(call: Call): Call {
    call.(at := if call.share.Some? then Decrement else Return)
  }

  /** The call ends with a pool error; a response it had created is dropped. */
  function Fail(s: State, t: nat): State {
    s.(ops := s.ops - {t}, past := s.past.(errors := s.past.errors + 1))
  }

  function ReadRequestStep(s: State, t: nat, call: Call): State {
    var m := MessageAt(s, GetShare(call.share).block);
    Goto(s, t, call.(at := AllocateMessage,
                     draft := call.draft.(dest := m.source, src := m.destination, kind := m.kind)))
  }

  function AllocateMessageStep(s: State, t: nat, call: Call, choice: nat): State {
    if call.draft.size > MAX_PAYLOAD || s.messages.free == {} then
      Goto(s, t, AfterCreate(call))
    else
      var id := s.past.nextId;
      Goto(s, t, call.(at := FillHeader, built := Some(choice)))
      .(messages := s.messages.Take(choice),
        tags := s.tags[choice := Tag(id, call.draft, [], Building(t))],
        past := s.past.(
          nextId := id + 1,
          drafts := s.past.drafts[id := call.draft],
          causes := if call.share.Some? then s.past.causes[id := CauseOf(s, call.share.value)] else s.past.causes))
  }

  function FillHeaderStep(s: State, t: nat, call: Call): State {
    var b, draft := Get(call.built), call.draft;
    var m := MessageAt(s, b).(destination := draft.dest, source := draft.src, kind := draft.kind, info := draft.info);
    Goto(s, t, call.(at := if draft.CarriesPayload() then AllocatePayload else ClearPayload)).(mem := s.mem[b := m])
  }

  function AllocatePayloadStep(s: State, t: nat, call: Call, choice: nat): State {
    var b := Get(call.built);
    if s.payloads.free == {} then
      Goto(s, t, call.(at := Undo))
    else
      Goto(s, t, call.(at := CopyPayload))
      .(payloads := s.payloads.Take(choice),
        mem := s.mem[b := MessageAt(s, b).(payload := Some(choice))],
        owner := s.owner[choice := b],
        past := s.past.(withPayload := s.past.withPayload + {IdOf(s, b)}))
  }

  function UndoStep(s: State, t: nat, call: Call): State {
    var b := Get(call.built);
    Goto(s, t, AfterCreate(call.(built := None)))
    .(messages := s.messages.Give(b), tags := s.tags - {b},
      past := s.past.(messageFrees := s.past.messageFrees + multiset{IdOf(s, b)}))
  }

  /** The bytes memcpy finds where the payload pointer leads. */
  function SourceBytes(s: State, buffer: Option<Memory>, size: nat, share: Option<Share>): seq<Byte> {
    match buffer
    case None => []
    case Some(Sender(name)) => if name in s.buffers then Prefix(s.buffers[name], size) else []
    case Some(Held) => Prefix(DataAt(s, Get(MessageAt(s, GetShare(share).block).payload)), size)
  }

  function CopyPayloadStep(s: State, t: nat, call: Call): State {
    var b := Get(call.built);
    var m, bytes := MessageAt(s, b), SourceBytes(s, call.draft.buffer, call.draft.size, call.share);
    var p := Get(m.payload);
    Goto(s, t, call.(at := SetCount))
    .(data := s.data[p := Overwrite(DataAt(s, p), bytes)],
      mem := s.mem[b := m.(payloadSize := call.draft.size)],
      tags := if b in s.tags then s.tags[b := s.tags[b].(bytes := bytes)] else s.tags)
  }

  function ClearPayloadStep(s: State, t: nat, call: Call): State {
    var b := Get(call.built);
    Goto(s, t, call.(at := SetCount)).(mem := s.mem[b := MessageAt(s, b).(payload := None, payloadSize := 0)])
  }

  function SetCountStep(s: State, t: nat, call: Call): State {
    var b := Get(call.built);
    Goto(s, t, AfterCreate(call))
    .(mem := s.mem[b := MessageAt(s, b).(count := PopCount(call.draft.dest) % COUNT_RANGE)])
  }

  /** What the bookkeeping says of a share that has been counted down. */
  function Spend(tag: Tag, bit: nat): Tag {
    if tag.phase.Live? then tag.(phase := Live(tag.phase.owed, tag.phase.claims - {bit})) else tag
  }

  function CountDown(s: State, b: nat): State {
    s.(mem := s.mem[b := MessageAt(s, b).(count := CountMinusOne(MessageAt(s, b).count))])
  }

  function DecrementLastStep(s: State, t: nat, call: Call): State {
    var b := GetShare(call.share).block;
    Goto(CountDown(s, b), t, call.(at := ReleasePayload, share := None, last := Some(b)))
    .(tags := if b in s.tags then s.tags[b := s.tags[b].(phase := Freeing(t))] else s.tags,
      past := s.past.(lasts := s.past.lasts + multiset{IdOf(s, b)}))
  }

  function DecrementOtherStep(s: State, t: nat, call: Call): State {
    var share := GetShare(call.share);
    var b := share.block;
    Goto(CountDown(s, b), t, call.(at := Return, share := None))
    .(tags := if b in s.tags then s.tags[b := Spend(s.tags[b], share.bit)] else s.tags)
  }

  /** The atomic fetch-and-subtract. The call that sees 1 is the last recipient. */
  function DecrementStep(s: State, t: nat, call: Call): State {
    if MessageAt(s, GetShare(call.share).block).count == 1 then DecrementLastStep(s, t, call)
    else DecrementOtherStep(s, t, call)
  }

  function GivePayloadStep(s: State, t: nat, call: Call, p: nat): State {
    Goto(s, t, call.(at := ForgetPayload))
    .(payloads := s.payloads.Give(p),
      owner := s.owner - {p},
      past := s.past.(payloadFrees := s.past.payloadFrees + multiset{IdOf(s, Get(call.last))}))
  }

  function ReleasePayloadStep(s: State, t: nat, call: Call): State {
    match MessageAt(s, Get(call.last)).payload
    case None => Goto(s, t, call.(at := ReleaseMessage))
    case Some(p) => if p in s.payloads.used then GivePayloadStep(s, t, call, p) else Fail(s, t)
  }

  function ForgetPayloadStep(s: State, t: nat, call: Call): State {
    var b := Get(call.last);
    Goto(s, t, call.(at := ReleaseMessage)).(mem := s.mem[b := MessageAt(s, b).(payload := None, payloadSize := 0)])
  }

  function ReleaseMessageStep(s: State, t: nat, call: Call): State {
    var b := Get(call.last);
    if b !in s.messages.used then Fail(s, t) else
    Goto(s, t, call.(at := Return, last := None))
    .(messages := s.messages.Give(b), tags := s.tags - {b},
      past := s.past.(messageFrees := s.past.messageFrees + multiset{IdOf(s, b)}))
  }

  /** The call returns, and its caller passes a returned message on to the recipients. */
  function ReturnStep(s: State, t: nat, call: Call): State {
    var s' := s.(ops := s.ops - {t});
    if call.built.Some? && call.built.value in s.tags then
      var tag := s.tags[call.built.value];
      s'.(tags := s.tags[call.built.value := tag.(phase := Live(Bits(tag.draft.dest), map[]))],
          past := s.past.(published := s.past.published + {tag.id}))
    else s'
  }

  /** A step of create_message, or of the reads create_response_message makes before calling it. */
  function CreateOp(s: State, t: nat, call: Call, choice: nat): State {
    match call.at
    case ReadRequest => ReadRequestStep(s, t, call)
    case AllocateMessage => AllocateMessageStep(s, t, call, choice)
    case FillHeader => FillHeaderStep(s, t, call)
    case AllocatePayload => AllocatePayloadStep(s, t, call, choice)
    case Undo => UndoStep(s, t, call)
    case CopyPayload => CopyPayloadStep(s, t, call)
    case ClearPayload => ClearPayloadStep(s, t, call)
    case _ => SetCountStep(s, t, call)
  }

  /** A step of consume_message, or of the return to the caller. */
  function ConsumeOp(s: State, t: nat, call: Call): State {
    match call.at
    case Decrement => DecrementStep(s, t, call)
    case ReleasePayload => ReleasePayloadStep(s, t, call)
    case ForgetPayload => ForgetPayloadStep(s, t, call)
    case ReleaseMessage => ReleaseMessageStep(s, t, call)
    case _ => ReturnStep(s, t, call)
  }

  function StepOp(s: State, t: nat, choice: nat): State
    requires t in s.ops
  {
    if s.ops[t].at.Created() then ConsumeOp(s, t, s.ops[t]) else CreateOp(s, t, s.ops[t], choice)
  }

  /** A recipient takes up its share: it was owed the message and now one of its calls has it. */
  function ClaimStep(s: State, t: nat, share: Share, call: Call): State
    requires Owed(s, share)
  {
    var tag := s.tags[share.block];
    Goto(s, t, call)
    .(tags := s.tags[share.block := tag.(phase := Live(tag.phase.owed - {share.bit}, tag.phase.claims[share.bit := t]))])
  }

  // ---------------------------------------------------------------- runs

  predicate Owed(s: State, share: Share) {
    share.block in s.tags && s.tags[share.block].phase.Live? && share.bit in s.tags[share.block].phase.owed
  }

  /** The memory a sender passes holds at least the bytes it announces. */
  predicate Readable(s: State, buffer: Option<Memory>, size: nat) {
    buffer.Some? && buffer.value.Sender? && size <= MAX_PAYLOAD ==>
      buffer.value.name in s.buffers && size <= |s.buffers[buffer.value.name]|
  }

  /** The message a recipient passes the payload of has one, of at least the bytes it announces. */
  predicate CanPassBack(s: State, share: Share, buffer: Option<Memory>, size: nat) {
    buffer == Some(Held) ==>
      MessageAt(s, share.block).payload.Some? && size <= MessageAt(s, share.block).payloadSize
  }

  predicate Mask(m: nat) {
    0 < m < COUNT_RANGE
  }

  /** What the environment may do, and which block an allocation may hand out. Recipients call back
      once for each share they were given; senders name at least one destination and themselves. */
  predicate Enabled(s: State, e: Event) {
    match e
    case Send(t, draft) =>
      && t !in s.ops && Mask(draft.dest) && Mask(draft.src)
      && draft.buffer != Some(Held) && Readable(s, draft.buffer, draft.size)
    case Consume(t, share) => t !in s.ops && Owed(s, share)
    case Respond(t, share, _, buffer, size) =>
      t !in s.ops && Owed(s, share) && Readable(s, buffer, size) && CanPassBack(s, share, buffer, size)
    case Step(t, choice) =>
      && t in s.ops
      && (s.ops[t].at.AllocateMessage? && s.messages.free != {} ==> choice in s.messages.free)
      && (s.ops[t].at.AllocatePayload? && s.payloads.free != {} ==> choice in s.payloads.free)
    case Peek(share) => Owed(s, share)
    case Scribble(buffer, bytes) => buffer in s.buffers && |bytes| == |s.buffers[buffer]|
  }

  const NO_DRAFT := Draft(0, 0, Command, 0, None, 0)

  function SendCall(draft: Draft): Call {
    Call(AllocateMessage, draft, None, None, None)
  }

  function ConsumeCall(share: Share): Call {
    Call(Decrement, NO_DRAFT, Some(share), None, None)
  }

  function RespondCall(share: Share, info: bv16, buffer: Option<Memory>, size: nat): Call {
    Call(ReadRequest, NO_DRAFT.(info := info, buffer := buffer, size := size), Some(share), None, None)
  }

  function Apply(s: State, e: Event): State
    requires Enabled(s, e)
  {
    match e
    case Send(t, draft) => Goto(s, t, SendCall(draft))
    case Consume(t, share) => ClaimStep(s, t, share, ConsumeCall(share))
    case Respond(t, share, info, buffer, size) => ClaimStep(s, t, share, RespondCall(share, info, buffer, size))
    case Step(t, choice) => StepOp(s, t, choice)
    case Peek(_) => s
    case Scribble(buffer, bytes) => s.(buffers := s.buffers[buffer := bytes])
  }

  predicate Runs(s: State, es: seq<Event>)
    decreases |es|
  {
    es == [] || (Enabled(s, es[0]) && Runs(Apply(s, es[0]), es[1..]))
  }

  function After(s: State, es: seq<Event>): State
    requires Runs(s, es)
    decreases |es|
  {
    if es == [] then s else After(Apply(s, es[0]), es[1..])
  }

  const NO_PAST := History(0, map[], map[], {}, {}, multiset{}, multiset{}, multiset{}, 0)

  /** Nothing allocated and nothing in flight; memory holds anything. */
  predicate Initial(s: State) {
    && s.messages.used == {} && s.payloads.used == {}
    && s.mem.Keys == s.messages.free && s.data.Keys == s.payloads.free
    && (forall p :: p in s.data ==> |s.data[p]| == MAX_PAYLOAD)
    && s.ops == map[] && s.tags == map[] && s.owner == map[] && s.past == NO_PAST
  }
}
