/** The steps and the calls agree: a call that nothing interrupts does, step by step, what the whole
    call is specified to do. */
module FabricRefinement {
  import opened FabricCalls
  import opened FabricInvariant
  import opened FabricPreservation
  import opened FabricSteps
  import opened FabricTypes
  import opened Masks
  import opened Wrappers

  function HeapOf(s: State): Heap {
    Heap(s.messages, s.payloads, s.mem, s.data)
  }

  /** The bytes a payload pointer leads to in heap `h`. */
  function BytesIn(h: Heap, buffers: map<nat, seq<Byte>>, buffer: Option<Memory>, size: nat, share: Option<Share>)
    : Option<seq<Byte>>
  {
    match buffer
    case None => None
    case Some(Sender(name)) => Some(if name in buffers then Prefix(buffers[name], size) else [])
    case Some(Held) =>
      var b := GetShare(share).block;
      var p := if b in h.mem then Get(h.mem[b].payload) else 0;
      Some(Prefix(if p in h.data then h.data[p] else [], size))
  }

  /** What a draft asks for, with the bytes its pointer leads to. */
  function OrderOf(h: Heap, buffers: map<nat, seq<Byte>>, draft: Draft, share: Option<Share>): Order {
    Order(draft.dest, draft.src, draft.kind, draft.info, BytesIn(h, buffers, draft.buffer, draft.size, share), draft.size)
  }

  /** The block a call has a share of is not free, so nobody can build a message in it. */
  ghost predicate Lent(h: Heap, share: Option<Share>) {
    share.Some? ==> share.value.block in h.mem && share.value.block !in h.messages.free
  }

  /** Every block has contents. */
  ghost predicate Backed(h: Heap) {
    && h.messages.Valid() && h.payloads.Valid()
    && h.mem.Keys == h.messages.Blocks() && h.data.Keys == h.payloads.Blocks()
  }

  // ---------------------------------------------------------------- create_message, line by line

  ghost predicate Begins(h: Heap, order: Order, b: Option<nat>) {
    b.Some? && b.value in h.messages.free && b.value in h.mem && order.size <= MAX_PAYLOAD
  }

  /** A payload block is taken and hung on block `b`, and not filled yet. */
  ghost predicate Hung(h: Heap, h': Heap, b: nat, payload: Option<nat>) {
    && b in h.mem && payload.Some? && payload.value in h.payloads.free && payload.value in h.data
    && h' == h.(payloads := h.payloads.Take(payload.value), mem := h.mem[b := h.mem[b].(payload := payload)])
  }

  /** How far a creation that began in heap `h0` has come. */
  ghost predicate Halfway(h0: Heap, order: Order, call: Call, h: Heap) {
    if call.at.AllocateMessage? then h == h0 && call.built.None?
    else if !call.at.Creating() then Creates(h0, h, order, call.built)
    else
      && Begins(h0, order, call.built)
      && var b, h1 := call.built.value, Begun(h0, call.built.value, order);
         match call.at
         case FillHeader => h == h0.(messages := h0.messages.Take(b))
         case AllocatePayload => order.CarriesPayload() && h == h1
         case Undo => order.CarriesPayload() && h0.payloads.free == {} && h == h1
         case CopyPayload => order.CarriesPayload() && b in h.mem && Hung(h1, h, b, h.mem[b].payload)
         case ClearPayload => !order.CarriesPayload() && h == h1
         case _ => (order.CarriesPayload() ==> h0.payloads.free != {}) && Loaded(h1, h, b, order.bytes, order.size)
  }

  /** Call `t` is at a line of create_message, and all went by the specification so far. */
  ghost predicate Creating(h0: Heap, order: Order, s: State, t: nat, call: Call) {
    && t in s.ops && s.ops[t] == call
    && order == OrderOf(h0, s.buffers, call.draft, call.share)
    && Lent(h0, call.share) && (call.draft.buffer == Some(Held) ==> call.share.Some?)
    && Halfway(h0, order, call, HeapOf(s))
  }

  ghost predicate CreateFollows(h0: Heap, order: Order, t: nat, call: Call, s': State) {
    && t in s'.ops && Creating(h0, order, s', t, s'.ops[t])
    && s'.ops[t].share == call.share
    && (s'.ops[t].at.Creating() || s'.ops[t].at == AfterCreate(call).at)
  }

  lemma AllocateMessageFollows(h0: Heap, order: Order, s: State, t: nat, call: Call, choice: nat)
    requires Backed(h0) && Creating(h0, order, s, t, call) && call.at.AllocateMessage?
    requires s.messages.free != {} ==> choice in s.messages.free
    ensures CreateFollows(h0, order, t, call, AllocateMessageStep(s, t, call, choice))
  {
  }

  lemma FillHeaderFollows(h0: Heap, order: Order, s: State, t: nat, call: Call)
    requires Creating(h0, order, s, t, call) && call.at.FillHeader?
    ensures CreateFollows(h0, order, t, call, FillHeaderStep(s, t, call))
  {
  }

  lemma AllocatePayloadFollows(h0: Heap, order: Order, s: State, t: nat, call: Call, choice: nat)
    requires Backed(h0) && Creating(h0, order, s, t, call) && call.at.AllocatePayload?
    requires s.payloads.free != {} ==> choice in s.payloads.free
    ensures CreateFollows(h0, order, t, call, AllocatePayloadStep(s, t, call, choice))
  {
  }

  lemma UndoFollows(h0: Heap, order: Order, s: State, t: nat, call: Call)
    requires Backed(h0) && Creating(h0, order, s, t, call) && call.at.Undo?
    ensures CreateFollows(h0, order, t, call, UndoStep(s, t, call))
  {
    NotCreated(h0, call.built.value, order);
  }

  lemma CopyPayloadFollows(h0: Heap, order: Order, s: State, t: nat, call: Call)
    requires Creating(h0, order, s, t, call) && call.at.CopyPayload?
    ensures CreateFollows(h0, order, t, call, CopyPayloadStep(s, t, call))
  {
    CopiesWhatWasThere(h0, order, s, t, call);
    hide SourceBytes, BytesIn;
  }

  /** Nothing a creation does before it copies changes what its payload pointer leads to. */
  lemma CopiesWhatWasThere(h0: Heap, order: Order, s: State, t: nat, call: Call)
    requires Creating(h0, order, s, t, call) && call.at.CopyPayload?
    ensures order.bytes == Some(SourceBytes(s, call.draft.buffer, call.draft.size, call.share))
    ensures order.dest == call.draft.dest && order.size == call.draft.size
  {
  }

  lemma ClearPayloadFollows(h0: Heap, order: Order, s: State, t: nat, call: Call)
    requires Creating(h0, order, s, t, call) && call.at.ClearPayload?
    ensures CreateFollows(h0, order, t, call, ClearPayloadStep(s, t, call))
  {
  }

  lemma SetCountFollows(h0: Heap, order: Order, s: State, t: nat, call: Call)
    requires Creating(h0, order, s, t, call) && call.at.SetCount?
    ensures CreateFollows(h0, order, t, call, SetCountStep(s, t, call))
  {
    Created(h0, HeapOf(s), call.built.value, order);
  }

  lemma CreateStepFollows(h0: Heap, order: Order, s: State, t: nat, choice: nat)
    requires Backed(h0) && t in s.ops && Creating(h0, order, s, t, s.ops[t])
    requires s.ops[t].at.AllocateMessage? || s.ops[t].at.Creating()
    requires Enabled(s, Step(t, choice))
    ensures CreateFollows(h0, order, t, s.ops[t], StepOp(s, t, choice))
  {
    hide CreateFollows, Backed, AllocateMessageStep, FillHeaderStep, AllocatePayloadStep, UndoStep, CopyPayloadStep,
         ClearPayloadStep, SetCountStep;
    var call := s.ops[t];
    match call.at
    case AllocateMessage => AllocateMessageFollows(h0, order, s, t, call, choice);
    case FillHeader => FillHeaderFollows(h0, order, s, t, call);
    case AllocatePayload => AllocatePayloadFollows(h0, order, s, t, call, choice);
    case Undo => UndoFollows(h0, order, s, t, call);
    case CopyPayload => CopyPayloadFollows(h0, order, s, t, call);
    case ClearPayload => ClearPayloadFollows(h0, order, s, t, call);
    case SetCount => SetCountFollows(h0, order, s, t, call);
    case _ => assert false;
  }

  // ---------------------------------------------------------------- consume_message, line by line

  /** How far a call has come that began to consume block `b` in heap `h0`. */
  ghost predicate Consuming(h0: Heap, b: nat, call: Call, h: Heap)
    requires b in h0.mem
  {
    match call.at
    case Decrement => h == h0 && call.share.Some? && call.share.value.block == b
    case ReleasePayload => h0.mem[b].count == 1 && h == CountedDown(h0, b) && call.last == Some(b)
    case ForgetPayload =>
      && h0.mem[b].count == 1 && call.last == Some(b)
      && h0.mem[b].payload.Some? && h0.mem[b].payload.value in h0.payloads.used
      && h == CountedDown(h0, b).(payloads := h0.payloads.Give(h0.mem[b].payload.value))
    case ReleaseMessage => FreeMessage(h, b) == Consumed(h0, b) && call.last == Some(b)
    case _ => Consumed(h0, b) == (h, true)
  }

  /** A step of consume_message went on as specified, or ended the call with the error it should. */
  ghost predicate ConsumeFollows(h0: Heap, b: nat, s: State, t: nat, s': State)
    requires b in h0.mem && t in s.ops
  {
    if t in s'.ops then
      && Consuming(h0, b, s'.ops[t], HeapOf(s')) && s'.ops[t].at.Created() && s'.ops[t].built == s.ops[t].built
    else Consumed(h0, b) == (HeapOf(s'), false)
  }

  lemma DecrementFollows(h0: Heap, b: nat, s: State, t: nat)
    requires b in h0.mem && t in s.ops && Consuming(h0, b, s.ops[t], HeapOf(s)) && s.ops[t].at.Decrement?
    ensures ConsumeFollows(h0, b, s, t, DecrementStep(s, t, s.ops[t]))
  {
  }

  lemma ReleasePayloadFollows(h0: Heap, b: nat, s: State, t: nat)
    requires b in h0.mem && t in s.ops && Consuming(h0, b, s.ops[t], HeapOf(s)) && s.ops[t].at.ReleasePayload?
    ensures ConsumeFollows(h0, b, s, t, ReleasePayloadStep(s, t, s.ops[t]))
  {
    hide GivePayloadStep;
    match MessageAt(s, b).payload
    case None => {}
    case Some(p) =>
      if p in s.payloads.used {
        GivePayloadFollows(h0, b, s, t, p);
      }
  }

  lemma GivePayloadFollows(h0: Heap, b: nat, s: State, t: nat, p: nat)
    requires b in h0.mem && t in s.ops && Consuming(h0, b, s.ops[t], HeapOf(s)) && s.ops[t].at.ReleasePayload?
    requires h0.mem[b].payload == Some(p) && p in s.payloads.used
    ensures ConsumeFollows(h0, b, s, t, GivePayloadStep(s, t, s.ops[t], p))
  {
    hide Pool.Give, IdOf, CountMinusOne, Consumed;
  }

  lemma ForgetPayloadFollows(h0: Heap, b: nat, s: State, t: nat)
    requires b in h0.mem && t in s.ops && Consuming(h0, b, s.ops[t], HeapOf(s)) && s.ops[t].at.ForgetPayload?
    ensures ConsumeFollows(h0, b, s, t, ForgetPayloadStep(s, t, s.ops[t]))
  {
    assert HeapOf(ForgetPayloadStep(s, t, s.ops[t])) == PayloadFreed(CountedDown(h0, b), b, h0.mem[b].payload.value);
  }

  lemma ReleaseMessageFollows(h0: Heap, b: nat, s: State, t: nat)
    requires b in h0.mem && t in s.ops && Consuming(h0, b, s.ops[t], HeapOf(s)) && s.ops[t].at.ReleaseMessage?
    ensures ConsumeFollows(h0, b, s, t, ReleaseMessageStep(s, t, s.ops[t]))
  {
  }

  lemma ConsumeStepFollows(h0: Heap, b: nat, s: State, t: nat)
    requires b in h0.mem && t in s.ops && Consuming(h0, b, s.ops[t], HeapOf(s))
    requires s.ops[t].at.Created() && !s.ops[t].at.Return?
    ensures ConsumeFollows(h0, b, s, t, ConsumeOp(s, t, s.ops[t]))
  {
    hide Consuming, ConsumeFollows, Consumed;
    match s.ops[t].at
    case Decrement => DecrementFollows(h0, b, s, t);
    case ReleasePayload => ReleasePayloadFollows(h0, b, s, t);
    case ForgetPayload => ForgetPayloadFollows(h0, b, s, t);
    case _ => ReleaseMessageFollows(h0, b, s, t);
  }

  // ---------------------------------------------------------------- whole calls

  /** Only call `t` moves. */
  predicate Alone(t: nat, es: seq<Event>) {
    forall e :: e in es ==> e.Step? && e.op == t
  }

  /** Left alone, call `t` goes from `s` to the point of returning in `s'`. */
  ghost predicate Finishes(s: State, t: nat, es: seq<Event>, s': State) {
    Alone(t, es) && Runs(s, es) && s' == After(s, es) && t in s'.ops && s'.ops[t].at.Return?
  }

  lemma AloneAfter(t: nat, es: seq<Event>)
    requires Alone(t, es) && es != []
    ensures Alone(t, es[1..])
  {
    forall e | e in es[1..] ensures e in es {}
  }

  lemma StuckWithout(s: State, t: nat, es: seq<Event>)
    requires t !in s.ops && Alone(t, es)
    ensures es != [] ==> !Runs(s, es)
  {
    if es != [] {
      assert es[0] in es;
    }
  }

  lemma ReturnEnds(s: State, t: nat, es: seq<Event>)
    requires Alone(t, es) && Runs(s, es) && es != [] && t in s.ops && s.ops[t].at.Return?
    ensures t !in After(s, es).ops
  {
    assert es[0] in es;
    AloneAfter(t, es);
    StuckWithout(Apply(s, es[0]), t, es[1..]);
  }

  lemma {:induction false} FinishesOnce(s: State, t: nat, es: seq<Event>, s': State)
    requires Finishes(s, t, es, s')
    ensures t in s.ops
    ensures s.ops[t].at.Return? ==> s' == s
    ensures !s.ops[t].at.Return? ==>
      es != [] && es[0].Step? && es[0].op == t && Enabled(s, es[0]) && Finishes(Apply(s, es[0]), t, es[1..], s')
  {
    hide StepOp, Enabled;
    if es != [] {
      assert es[0] in es;
      assert Enabled(s, es[0]);
      StepsOwnCall(s, t, es[0]);
      if s.ops[t].at.Return? {
        ReturnEnds(s, t, es);
      }
      AloneAfter(t, es);
    }
  }

  lemma StepsOwnCall(s: State, t: nat, e: Event)
    requires Enabled(s, e) && e.Step? && e.op == t
    ensures t in s.ops
  {
  }

  lemma {:induction false} ConsumeRun(h0: Heap, b: nat, s: State, t: nat, es: seq<Event>, s': State)
    requires b in h0.mem && Finishes(s, t, es, s')
    requires t in s.ops && s.ops[t].at.Created() && Consuming(h0, b, s.ops[t], HeapOf(s))
    ensures Consumed(h0, b) == (HeapOf(s'), true) && s'.ops[t].built == s.ops[t].built
    decreases |es|
  {
    FinishesOnce(s, t, es, s');
    if !s.ops[t].at.Return? {
      ConsumeStepFollows(h0, b, s, t);
      FinishesOnce(Apply(s, es[0]), t, es[1..], s');
      ConsumeRun(h0, b, Apply(s, es[0]), t, es[1..], s');
    }
  }

  /** What call `t` has done when it is about to return: it has created what was asked, and if it
      answers a message it has then consumed its share of it, without error. */
  ghost predicate Did(h0: Heap, order: Order, share: Option<Share>, result: Option<nat>, h: Heap) {
    if share.None? then Creates(h0, h, order, result)
    else exists between :: RespondsBy(h0, between, h, share.value.block, order, result, result)
  }

  lemma {:induction false} CreateRun(h0: Heap, order: Order, s: State, t: nat, es: seq<Event>, s': State)
    requires Backed(h0) && Finishes(s, t, es, s')
    requires t in s.ops && Creating(h0, order, s, t, s.ops[t])
    requires s.ops[t].at.AllocateMessage? || s.ops[t].at.Creating() || s.ops[t].at == AfterCreate(s.ops[t]).at
    ensures Did(h0, order, s.ops[t].share, s'.ops[t].built, HeapOf(s'))
    decreases |es|
  {
    var call := s.ops[t];
    FinishesOnce(s, t, es, s');
    if call.at.AllocateMessage? || call.at.Creating() {
      CreateStepFollows(h0, order, s, t, es[0].choice);
      CreateRun(h0, order, Apply(s, es[0]), t, es[1..], s');
    } else if call.share.Some? {
      var between, b := HeapOf(s), call.share.value.block;
      CreatesKeepsBlocks(h0, between, order, call.built);
      ConsumeRun(between, b, s, t, es, s');
      assert RespondsBy(h0, between, HeapOf(s'), b, order, call.built, call.built);
    }
  }

  lemma CreatesKeepsBlocks(h: Heap, h': Heap, order: Order, result: Option<nat>)
    requires Creates(h, h', order, result)
    ensures h'.mem.Keys >= h.mem.Keys
  {
  }

  /** create_message, left alone from its call to its return, does what the whole call is specified to do. */
  lemma CreateRefines(s: State, t: nat, draft: Draft, es: seq<Event>, s': State)
    requires Inv(s) && Enabled(s, Send(t, draft)) && Finishes(Apply(s, Send(t, draft)), t, es, s')
    ensures Creates(HeapOf(s), HeapOf(s'), OrderOf(HeapOf(s), s.buffers, draft, None), s'.ops[t].built)
  {
    CreateRun(HeapOf(s), OrderOf(HeapOf(s), s.buffers, draft, None), Apply(s, Send(t, draft)), t, es, s');
  }

  /** consume_message, left alone, does what the whole call is specified to do, and succeeds. */
  lemma ConsumeRefines(s: State, t: nat, share: Share, es: seq<Event>, s': State)
    requires Inv(s) && Enabled(s, Consume(t, share)) && Finishes(Apply(s, Consume(t, share)), t, es, s')
    ensures share.block in s.mem && Consumed(HeapOf(s), share.block) == (HeapOf(s'), true)
  {
    ConsumeRun(HeapOf(s), share.block, Apply(s, Consume(t, share)), t, es, s');
  }

  /** The bytes the payload pointer of an answer leads to. */
  function PassedBytes(s: State, share: Share, buffer: Option<Memory>, size: nat): Option<seq<Byte>> {
    BytesIn(HeapOf(s), s.buffers, buffer, size, Some(share))
  }

  /** The arguments create_response_message passes on, for a request in block `share.block`. */
  function Reply(s: State, share: Share, info: bv16, buffer: Option<Memory>, size: nat): Order
    requires share.block in s.mem
  {
    ReplyTo(s.mem[share.block], info, PassedBytes(s, share, buffer, size), size)
  }

  lemma ReadRequestFollows(s: State, t: nat, share: Share, info: bv16, buffer: Option<Memory>, size: nat)
    requires Lent(HeapOf(s), Some(share)) && t in s.ops && s.ops[t] == RespondCall(share, info, buffer, size)
    ensures var s' := ReadRequestStep(s, t, s.ops[t]);
            && t in s'.ops && s'.ops[t].at.AllocateMessage? && s'.ops[t].share == Some(share)
            && Creating(HeapOf(s), Reply(s, share, info, buffer, size), s', t, s'.ops[t])
  {
    hide BytesIn;
  }

  lemma RespondRun(s: State, t: nat, share: Share, info: bv16, buffer: Option<Memory>, size: nat, es: seq<Event>, s': State)
    requires Backed(HeapOf(s)) && Lent(HeapOf(s), Some(share))
    requires t in s.ops && s.ops[t] == RespondCall(share, info, buffer, size)
    requires Finishes(s, t, es, s')
    ensures Responds(HeapOf(s), HeapOf(s'), share.block, info, PassedBytes(s, share, buffer, size), size, s'.ops[t].built)
  {
    FinishesOnce(s, t, es, s');
    ReadRequestFollows(s, t, share, info, buffer, size);
    CreateRun(HeapOf(s), Reply(s, share, info, buffer, size), Apply(s, es[0]), t, es[1..], s');
  }

  /** create_response_message, left alone, does what the whole call is specified to do, and keeps the
      reply it creates. */
  lemma RespondRefines(s: State, t: nat, share: Share, info: bv16, buffer: Option<Memory>, size: nat, es: seq<Event>, s': State)
    requires Inv(s)
    requires Enabled(s, Respond(t, share, info, buffer, size))
    requires Finishes(Apply(s, Respond(t, share, info, buffer, size)), t, es, s')
    ensures Responds(HeapOf(s), HeapOf(s'), share.block, info, PassedBytes(s, share, buffer, size), size, s'.ops[t].built)
  {
    var s1 := Apply(s, Respond(t, share, info, buffer, size));
    assert HeapOf(s1) == HeapOf(s) && s1.buffers == s.buffers;
    RespondRun(s1, t, share, info, buffer, size, es, s');
  }

  /** Wherever the fabric is, interrupted calls included, consuming a share that is owed succeeds: the
      pool-error returns cannot be reached. */
  lemma OwedIsConsumable(s: State, share: Share)
    requires Inv(s) && Owed(s, share)
    ensures share.block in s.mem && Consumed(HeapOf(s), share.block).1
  {
    assert TagOk(s, share.block);
  }

  /** A reply is never dropped: creating it leaves the request consumable. */
  lemma ReplyIsKept(s: State, share: Share, order: Order, between: Heap, reply: Option<nat>)
    requires Inv(s) && Owed(s, share)
    requires Creates(HeapOf(s), between, order, reply)
    ensures share.block in between.mem && Consumed(between, share.block).1
  {
    OwedIsConsumable(s, share);
    hide Inv;
  }
}
