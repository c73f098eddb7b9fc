/** What one whole call of the fabric does to the pools and the memory when nothing comes between. */
module FabricCalls {
  import opened FabricTypes
  import opened Masks
  import opened Wrappers

  /** The two pools, and the contents of every message block and payload block, in use or not. */
  datatype Heap = Heap(messages: Pool, payloads: Pool, mem: map<nat, Message>, data: map<nat, seq<Byte>>)

  /** The arguments of create_message. `bytes` is what the payload pointer leads to; None is a null pointer. */
  datatype Order = Order(dest: nat, src: nat, kind: Kind, info: bv16, bytes: Option<seq<Byte>>, size: nat) {
    predicate CarriesPayload() {
      size != 0 && bytes.Some?
    }
  }

  /** create_message has no block to give: the payload is too long, or a pool it needs is empty. */
  predicate Refused(h: Heap, order: Order) {
    || order.size > MAX_PAYLOAD
    || h.messages.free == {}
    || (order.CarriesPayload() && h.payloads.free == {})
  }

  /** create_message takes `h` to `h'` and returns `result`. It is all or nothing: either it returns null,
      exactly when it has no block to give, and both pools and every block in use are as before; or it
      returns a block that was free, filled as asked, with a payload block of its own if one was needed. */
  ghost predicate Creates(h: Heap, h': Heap, order: Order, result: Option<nat>) {
    match result
    case None =>
      && Refused(h, order)
      && h'.messages == h.messages && h'.payloads == h.payloads && h'.data == h.data
      && h'.mem.Keys == h.mem.Keys && (forall b :: b in h.mem && b !in h.messages.free ==> h'.mem[b] == h.mem[b])
    case Some(b) =>
      && !Refused(h, order)
      && b in h.messages.free && h'.messages == h.messages.Take(b)
      && b in h'.mem && h'.mem == h.mem[b := Filled(order, h'.mem[b].payload)]
      && if order.CarriesPayload() then
           && h'.mem[b].payload.Some?
           && var p := h'.mem[b].payload.value;
              && p in h.payloads.free && h'.payloads == h.payloads.Take(p)
              && p in h.data && h'.data == h.data[p := Overwrite(h.data[p], order.bytes.value)]
         else
           h'.mem[b].payload.None? && h'.payloads == h.payloads && h'.data == h.data
  }

  /** The header create_message writes. */
  function Filled(order: Order, payload: Option<nat>): Message {
    Message(order.src, order.dest, order.kind, order.info, PopCount(order.dest) % COUNT_RANGE, payload,
            if order.CarriesPayload() then order.size else 0)
  }

  function CountedDown(h: Heap, b: nat): Heap
    requires b in h.mem
  {
    h.(mem := h.mem[b := h.mem[b].(count := CountMinusOne(h.mem[b].count))])
  }

  function PayloadFreed(h: Heap, b: nat, p: nat): Heap
    requires b in h.mem
  {
    h.(payloads := h.payloads.Give(p), mem := h.mem[b := h.mem[b].(payload := None, payloadSize := 0)])
  }

  function FreeMessage(h: Heap, b: nat): (Heap, bool) {
    if b in h.messages.used then (h.(messages := h.messages.Give(b)), true) else (h, false)
  }

  /** What the last recipient does: it gives back the payload block and then the message block, and
      stops at the first of them that is not out. */
  function FreeBlocks(h: Heap, b: nat): (Heap, bool)
    requires b in h.mem
  {
    match h.mem[b].payload
    case None => FreeMessage(h, b)
    case Some(p) => if p in h.payloads.used then FreeMessage(PayloadFreed(h, b, p), b) else (h, false)
  }

  /** consume_message on block `b`: the heap it leaves, and whether it reports success. */
  function Consumed(h: Heap, b: nat): (Heap, bool)
    requires b in h.mem
  {
    if h.mem[b].count == 1 then FreeBlocks(CountedDown(h, b), b) else (CountedDown(h, b), true)
  }

  /** The arguments create_response_message passes to create_message. */
  function ReplyTo(m: Message, info: bv16, bytes: Option<seq<Byte>>, size: nat): Order {
    Order(m.source, m.destination, m.kind, info, bytes, size)
  }

  /** create_response_message on block `b`: it creates the reply first, which takes `h` to `between`, and
      then always consumes the caller's share of the request; a failed consume drops the reply. */
  ghost predicate RespondsBy(h: Heap, between: Heap, h': Heap, b: nat, order: Order, reply: Option<nat>, result: Option<nat>) {
    && Creates(h, between, order, reply)
    && b in between.mem
    && h' == Consumed(between, b).0
    && result == (if Consumed(between, b).1 then reply else None)
  }

  ghost predicate Responds(h: Heap, h': Heap, b: nat, info: bv16, bytes: Option<seq<Byte>>, size: nat, result: Option<nat>) {
    && b in h.mem
    && exists between, reply :: RespondsBy(h, between, h', b, ReplyTo(h.mem[b], info, bytes, size), reply, result)
  }

  lemma Responded(h: Heap, between: Heap, h': Heap, b: nat, info: bv16, bytes: Option<seq<Byte>>, size: nat, reply: Option<nat>)
    requires b in h.mem && b in between.mem
    requires Creates(h, between, ReplyTo(h.mem[b], info, bytes, size), reply)
    requires h' == Consumed(between, b).0
    ensures Responds(h, h', b, info, bytes, size, if Consumed(between, b).1 then reply else None)
  {
    hide Creates, Consumed;
    assert RespondsBy(h, between, h', b, ReplyTo(h.mem[b], info, bytes, size), reply,
                      if Consumed(between, b).1 then reply else None);
  }

  // ---------------------------------------------------------------- what the calls are for

  /** A message in block `b` that was asked for: its header, and the first bytes of a payload block of its own, if
      it was asked to have one. */
  ghost predicate IsAsAsked(h: Heap, b: nat, dest: nat, src: nat, kind: Kind, info: bv16, bytes: Option<seq<Byte>>, size: nat) {
    && b in h.mem
    && h.mem[b].destination == dest && h.mem[b].source == src && h.mem[b].kind == kind && h.mem[b].info == info
    && if size != 0 && bytes.Some? then
         && h.mem[b].payloadSize == size
         && h.mem[b].payload.Some? && h.mem[b].payload.value in h.data
         && bytes.value <= h.data[h.mem[b].payload.value]
       else h.mem[b].payload == None && h.mem[b].payloadSize == 0
  }

  /** create_message: null exactly without a block to give, and otherwise the message that was asked for. */
  lemma CreatesMeans(h: Heap, h': Heap, order: Order, result: Option<nat>)
    requires Creates(h, h', order, result)
    ensures result.None? <==>
      order.size > 512 || h.messages.free == {} || (order.size != 0 && order.bytes.Some? && h.payloads.free == {})
    ensures result.Some? ==>
      && result.value in h.messages.free
      && IsAsAsked(h', result.value, order.dest, order.src, order.kind, order.info, order.bytes, order.size)
      && (h'.mem[result.value].payload.Some? ==> h'.mem[result.value].payload.value in h.payloads.free)
  {
    hide Pool.Take, PopCount;
  }

  /** Consuming touches one header, and no payload. */
  lemma ConsumedKeeps(h: Heap, b: nat, c: nat)
    requires b in h.mem && c in h.mem && c != b
    ensures c in Consumed(h, b).0.mem && Consumed(h, b).0.mem[c] == h.mem[c] && Consumed(h, b).0.data == h.data
  {
    hide Pool.Give;
  }

  /** Consuming leaves every header but for its count and its payload. */
  lemma ConsumedKeepsHeaders(h: Heap, b: nat, c: nat)
    requires b in h.mem && c in h.mem
    ensures c in Consumed(h, b).0.mem
    ensures var (m, m') := (h.mem[c], Consumed(h, b).0.mem[c]);
            m'.source == m.source && m'.destination == m.destination && m'.kind == m.kind && m'.info == m.info
  {
    hide Pool.Give;
  }

  /** What consume_message does, case by case: unless it was 1 the count goes down by one, round the corner from 0,
      and nothing else happens; from 1 on, payload and message go back, as long as they are out. */
  lemma ConsumedMeans(h: Heap, b: nat)
    requires b in h.mem && h.mem[b].count < 65536
    ensures var (h', ok) := Consumed(h, b);
            var m := h.mem[b];
            && b in h'.mem && h'.mem[b].count == (if m.count == 0 then 65535 else m.count - 1)
            && (m.count != 1 ==> ok && h'.messages == h.messages && h'.payloads == h.payloads && h'.mem[b].payload == m.payload)
            && (m.count == 1 ==>
                  && (ok <==> b in h.messages.used && (m.payload.Some? ==> m.payload.value in h.payloads.used))
                  && (!ok ==> h'.messages == h.messages)
                  && (m.payload.Some? && m.payload.value !in h.payloads.used ==> h'.payloads == h.payloads)
                  && (m.payload.None? ==> h'.payloads == h.payloads)
                  && (ok ==> h'.mem[b].payload == None && h'.messages.used == h.messages.used - {b} && b in h'.messages.free)
                  && (ok && m.payload.Some? ==>
                        h'.payloads.used == h.payloads.used - {m.payload.value} && m.payload.value in h'.payloads.free))
  {
  }

  /** create_response_message: the reply goes where the request came from and comes from where it went, and has its
      kind and the caller's info. On a request that is in use, it also has the caller's payload, and there is none
      exactly without a block to give, if the request's own payload is in use too. */
  lemma RespondsMeans(h: Heap, h': Heap, b: nat, info: bv16, bytes: Option<seq<Byte>>, size: nat, result: Option<nat>)
    requires Responds(h, h', b, info, bytes, size, result)
    ensures b in h.mem
    ensures result.Some? ==>
      && result.value in h.messages.free && result.value in h'.mem
      && h'.mem[result.value].source == h.mem[b].destination && h'.mem[result.value].destination == h.mem[b].source
      && h'.mem[result.value].kind == h.mem[b].kind && h'.mem[result.value].info == info
    ensures h.messages.Valid() && b in h.messages.used ==>
      && (result.Some? ==> IsAsAsked(h', result.value, h.mem[b].source, h.mem[b].destination, h.mem[b].kind, info, bytes, size))
      && ((h.mem[b].payload.Some? ==> h.mem[b].payload.value in h.payloads.used) ==>
          (result.None? <==> size > 512 || h.messages.free == {} || (size != 0 && bytes.Some? && h.payloads.free == {})))
  {
    var order := ReplyTo(h.mem[b], info, bytes, size);
    var between, reply :| RespondsBy(h, between, h', b, order, reply, result);
    CreatesMeans(h, between, order, reply);
    if h.messages.Valid() && b in h.messages.used {
      KeepsRequest(h, between, b, order, reply);
    }
    hide Creates, Consumed;
    if reply.Some? {
      ConsumedKeepsHeaders(between, b, reply.value);
      if reply.value != b {
        ConsumedKeeps(between, b, reply.value);
      }
    }
  }

  /** A creation leaves a block in use as it was, and consumable if it was. */
  lemma KeepsRequest(h: Heap, between: Heap, b: nat, order: Order, reply: Option<nat>)
    requires Creates(h, between, order, reply)
    requires h.messages.Valid() && b in h.messages.used && b in h.mem
    ensures reply != Some(b) && b in between.mem && between.mem[b] == h.mem[b]
    ensures (h.mem[b].payload.Some? ==> h.mem[b].payload.value in h.payloads.used) ==> Consumed(between, b).1
  {
  }

  // ---------------------------------------------------------------- create_message in three parts

  function Addressed(h: Heap, b: nat, dest: nat, src: nat, kind: Kind, info: bv16): Heap
    requires b in h.mem
  {
    h.(mem := h.mem[b := h.mem[b].(destination := dest, source := src, kind := kind, info := info)])
  }

  /** Block `b` is taken and its first fields are filled in. */
  function Begun(h: Heap, b: nat, order: Order): Heap
    requires b in h.mem
  {
    Addressed(h.(messages := h.messages.Take(b)), b, order.dest, order.src, order.kind, order.info)
  }

  /** A free payload block is taken, filled with `bytes`, and hung on block `b`. */
  ghost predicate Attached(h: Heap, h': Heap, b: nat, payload: Option<nat>, bytes: seq<Byte>, size: nat) {
    && b in h.mem && payload.Some? && payload.value in h.data
    && payload.value in h.payloads.free
    && h' == h.(payloads := h.payloads.Take(payload.value),
                mem := h.mem[b := h.mem[b].(payload := payload, payloadSize := size)],
                data := h.data[payload.value := Overwrite(h.data[payload.value], bytes)])
  }

  /** Block `b` has the payload it was asked to have. */
  ghost predicate Loaded(h: Heap, h': Heap, b: nat, bytes: Option<seq<Byte>>, size: nat) {
    && b in h.mem && b in h'.mem
    && if size != 0 && bytes.Some? then Attached(h, h', b, h'.mem[b].payload, bytes.value, size)
       else h' == Unattached(h, b)
  }

  function Unattached(h: Heap, b: nat): Heap
    requires b in h.mem
  {
    h.(mem := h.mem[b := h.mem[b].(payload := None, payloadSize := 0)])
  }

  function Counted(h: Heap, b: nat, dest: nat): Heap
    requires b in h.mem
  {
    h.(mem := h.mem[b := h.mem[b].(count := PopCount(dest) % COUNT_RANGE)])
  }

  lemma Created(h: Heap, h': Heap, b: nat, order: Order)
    requires b in h.mem && b in h.messages.free && order.size <= MAX_PAYLOAD
    requires order.CarriesPayload() ==> h.payloads.free != {}
    requires Loaded(Begun(h, b, order), h', b, order.bytes, order.size)
    ensures b in h'.mem && Creates(h, Counted(h', b, order.dest), order, Some(b))
  {
    hide Pool.Take, PopCount;
  }

  lemma NothingTaken(h: Heap, order: Order)
    requires order.size > MAX_PAYLOAD || h.messages.free == {}
    ensures Creates(h, h, order, None)
  {
  }

  lemma NotCreated(h: Heap, b: nat, order: Order)
    requires b in h.mem && b in h.messages.free && order.CarriesPayload() && h.payloads.free == {}
    requires h.messages.Valid()
    ensures Creates(h, Begun(h, b, order).(messages := h.messages.Take(b).Give(b)), order, None)
  {
    assert h.messages.Take(b).Give(b) == h.messages;
  }

  // ---------------------------------------------------------------- the count and the mask

  /** The stored count is the number of targets the router's loop visits, and the number of recipients. */
  lemma CountIsTargets(order: Order, payload: Option<nat>)
    requires order.dest < COUNT_RANGE
    ensures Filled(order, payload).count == |BitList(order.dest, 0)| == |Bits(order.dest)|
  {
    BitListIsSorted(order.dest, 0);
    BitsAreTheSetBits(order.dest);
  }

  /** `k` recipients consume block `b`, one after another. */
  function ConsumedBy(h: Heap, b: nat, k: nat): Heap
    requires b in h.mem
    decreases k
  {
    if k == 0 then h else ConsumedBy(Consumed(h, b).0, b, k - 1)
  }

  /** A block that is not out stays so, however often it is consumed. */
  lemma {:induction false} StaysFreed(h: Heap, b: nat, k: nat)
    requires b in h.mem && b !in h.messages.used
    ensures b !in ConsumedBy(h, b, k).messages.used
    decreases k
  {
    if k > 0 {
      StaysFreed(Consumed(h, b).0, b, k - 1);
    }
  }

  /** How many consumes it takes to free a block: its count, and the whole range of the count if that is 0. */
  function ConsumesToFree(count: nat): nat {
    if count == 0 then COUNT_RANGE else count
  }

  /** For every number of consumes: the block is out until its count has come down to 0, or all the way
      round to 0, and is free from then on. */
  lemma {:induction false} FreedByLast(h: Heap, b: nat, k: nat)
    requires b in h.mem && b in h.messages.used && h.mem[b].count < COUNT_RANGE
    requires h.mem[b].payload.Some? ==> h.mem[b].payload.value in h.payloads.used
    ensures b in ConsumedBy(h, b, k).messages.used <==> k < ConsumesToFree(h.mem[b].count)
    decreases k
  {
    if k > 0 {
      var h' := Consumed(h, b).0;
      if h.mem[b].count == 1 {
        StaysFreed(h', b, k - 1);
      } else {
        assert ConsumesToFree(h'.mem[b].count) == ConsumesToFree(h.mem[b].count) - 1;
        FreedByLast(h', b, k - 1);
      }
    }
  }

  /** A message whose mask names somebody is out until as many recipients have consumed it as the mask names,
      and is free from then on. One with a mask of 0 has no recipients, and is out until it has been consumed
      65536 times: its count goes round. */
  lemma FreedIffAddressed(h: Heap, b: nat, dest: nat, k: nat)
    requires b in h.mem && b in h.messages.used && dest < COUNT_RANGE && h.mem[b].count == PopCount(dest) % COUNT_RANGE
    requires h.mem[b].payload.Some? ==> h.mem[b].payload.value in h.payloads.used
    ensures dest != 0 ==> (b in ConsumedBy(h, b, k).messages.used <==> k < |Bits(dest)|)
    ensures dest == 0 ==> (b in ConsumedBy(h, b, k).messages.used <==> k < 65536)
    ensures k == |Bits(dest)| ==> (b !in ConsumedBy(h, b, k).messages.used <==> dest != 0)
  {
    BitsAreTheSetBits(dest);
    FreedByLast(h, b, k);
  }
}
