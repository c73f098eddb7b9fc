/** The message fabric as the program lays it out: two block pools over two arrays of blocks, and the
    functions that create, consume and answer messages by updating those blocks in place. */
module FabricHeap {
  import opened FabricCalls
  import opened FabricTypes
  import opened Masks
  import opened Wrappers

  function Below(n: nat): (s: set<nat>)
    ensures forall i: nat :: i in s <==> i < n
  {
    if n == 0 then {} else Below(n - 1) + {n - 1}
  }

  /** One message block of the router pool. `slot` is its position there. */
  class MuxerInput {
    const slot: nat
    var source: nat
    var destination: nat
    var kind: Kind
    var info: bv16
    var count: nat
    var payload: Option<nat>
    var payloadSize: nat

    constructor (slot: nat)
      ensures this.slot == slot
    {
      this.slot := slot;
      payload := None;
    }

    function Contents(): Message
      reads this
    {
      Message(source, destination, kind, info, count, payload, payloadSize)
    }
  }

  /** A block pool that never waits. */
  class BlockPool {
    const blocks: set<nat>
    var free: set<nat>
    var used: set<nat>

    ghost predicate Valid()
      reads this
    {
      free !! used && free + used == blocks
    }

    constructor (blocks: set<nat>)
      ensures Valid() && this.blocks == blocks && State() == Pool(blocks, {})
    {
      this.blocks := blocks;
      free, used := blocks, {};
    }

    function State(): Pool
      reads this
    {
      Pool(free, used)
    }

    /** Allocation fails exactly when nothing is free. */
    method Allocate() returns (block: Option<nat>)
      requires Valid()
      modifies this
      ensures Valid()
      ensures block.None? <==> old(free) == {}
      ensures block.None? ==> State() == old(State())
      ensures block.Some? ==> block.value in old(free) && State() == old(State()).Take(block.value)
    {
      if free == {} {
        return None;
      }
      var b :| b in free;
      free, used := free - {b}, used + {b};
      return Some(b);
    }

    /** Release succeeds exactly on a block that is out. */
    method Release(block: nat) returns (ok: bool)
      requires Valid()
      modifies this
      ensures Valid()
      ensures ok <==> block in old(used)
      ensures State() == old(State()).Give(block)
    {
      ok := block in used;
      if ok {
        free, used := free + {block}, used - {block};
      }
    }
  }

  class Fabric {
    const messages: BlockPool
    const payloads: BlockPool
    const blocks: seq<MuxerInput>
    const rows: seq<array<Byte>>

    /** Both pools are created with every block free. */
    constructor (blockCount: nat, rowCount: nat)
      ensures Valid() && fresh(Repr())
      ensures |blocks| == blockCount && |rows| == rowCount
      ensures messages.used == {} && payloads.used == {}
    {
      var pool: seq<MuxerInput> := [];
      for i := 0 to blockCount
        invariant |pool| == i && (forall j :: 0 <= j < i ==> pool[j].slot == j && fresh(pool[j]))
      {
        var block := new MuxerInput(i);
        pool := pool + [block];
      }
      var memory: seq<array<Byte>> := [];
      for i := 0 to rowCount
        invariant |memory| == i && (forall j :: 0 <= j < i ==> memory[j].Length == MAX_PAYLOAD && fresh(memory[j]))
        invariant forall j, k :: 0 <= j < k < i ==> memory[j] != memory[k]
      {
        var row := new Byte[MAX_PAYLOAD];
        memory := memory + [row];
      }
      blocks, rows := pool, memory;
      messages := new BlockPool(Below(blockCount));
      payloads := new BlockPool(Below(rowCount));
    }

    /** The objects the fabric is made of. */
    ghost function Repr(): set<object> {
      {messages, payloads} + (set b: object | b in blocks) + (set r: object | r in rows)
    }

    /** The fabric's layout: which never changes. */
    ghost predicate Layout() {
      && messages != payloads && messages.blocks == Below(|blocks|) && payloads.blocks == Below(|rows|)
      && (forall i :: 0 <= i < |blocks| ==> blocks[i].slot == i)
      && (forall i :: 0 <= i < |rows| ==> rows[i].Length == MAX_PAYLOAD)
      && (forall i, j :: 0 <= i < j < |rows| ==> rows[i] != rows[j])
    }

    ghost predicate Valid()
      reads Repr()
    {
      Layout() && messages.Valid() && payloads.Valid()
    }

    ghost function State(): Heap
      reads Repr()
    {
      Heap(messages.State(), payloads.State(), Headers(), Rows())
    }

    ghost function Headers(): map<nat, Message>
      reads blocks
    {
      map i | i in Below(|blocks|) :: blocks[i].Contents()
    }

    ghost function Rows(): map<nat, seq<Byte>>
      reads rows
    {
      map i | i in Below(|rows|) :: rows[i][..]
    }

    lemma Located(msg: MuxerInput)
      requires Layout() && msg in blocks
      ensures msg.slot in Headers() && blocks[msg.slot] == msg && Headers()[msg.slot] == msg.Contents()
    {
    }

    /** Writing one block changes one header. */
    twostate lemma OnlyBlock(msg: MuxerInput)
      requires Layout() && msg in blocks
      requires forall b :: b in blocks && b != msg ==> unchanged(b)
      ensures msg.slot in Headers() && blocks[msg.slot] == msg
      ensures Headers() == old(Headers())[msg.slot := msg.Contents()]
    {
      forall i | i in Below(|blocks|) && i != msg.slot ensures Headers()[i] == old(Headers())[i] {
        assert blocks[i] in blocks;
      }
    }

    /** Writing one row changes one payload. */
    twostate lemma OnlyRow(p: nat)
      requires Layout() && p < |rows|
      requires forall r :: r in rows && r != rows[p] ==> unchanged(r)
      ensures Rows() == old(Rows())[p := rows[p][..]]
    {
      forall i | i in Below(|rows|) && i != p ensures Rows()[i] == old(Rows())[i] {
        assert rows[i] in rows;
      }
    }

    /** The bytes a payload pointer leads to. A sender may pass memory of its own, or the payload of a
        message it still holds, but not a block nobody owns. */
    ghost predicate Readable(payload: array?<Byte>, size: nat)
      reads payloads
    {
      && (payload != null && size <= MAX_PAYLOAD ==> size <= payload.Length)
      && (forall p :: p in payloads.free && p < |rows| ==> rows[p] != payload)
    }

    /** What the caller asked for, with the bytes its pointer leads to now. */
    ghost function Bytes(payload: array?<Byte>, size: nat): Option<seq<Byte>>
      reads payload
    {
      if payload == null then None else Some(Prefix(payload[..], size))
    }

    ghost function Asked(dest: nat, src: nat, kind: Kind, info: bv16, payload: array?<Byte>, size: nat): Order
      reads payload
    {
      Order(dest, src, kind, info, Bytes(payload, size), size)
    }

    ghost function SlotOf(msg: MuxerInput?): Option<nat> {
      if msg == null then None else Some(msg.slot)
    }

    /** memcpy */
    method Copy(to: array<Byte>, from: array<Byte>, n: nat)
      requires to != from && n <= from.Length && n <= to.Length
      modifies to
      ensures to[..] == Overwrite(old(to[..]), from[..n])
    {
      for i := 0 to n
        invariant to[..] == from[..i] + old(to[..])[i..]
      {
        to[i] := from[i];
      }
    }

    /** create_message */
    method CreateMessage(dest: nat, src: nat, kind: Kind, info: bv16, payload: array?<Byte>, payloadSize: nat)
      returns (msg: MuxerInput?)
      requires Valid() && Readable(payload, payloadSize)
      modifies Repr()
      ensures Valid()
      ensures msg != null ==> msg in blocks
      ensures Creates(old(State()), State(), old(Asked(dest, src, kind, info, payload, payloadSize)), SlotOf(msg))
    {
      hide Creates, Loaded, Counted;
      ghost var order := Asked(dest, src, kind, info, payload, payloadSize);
      if payloadSize > MAX_PAYLOAD {
        NothingTaken(State(), order);
        return null;
      }
      var block := messages.Allocate();
      if block.None? {
        NothingTaken(State(), order);
        return null;
      }
      msg := blocks[block.value];
      assert State() == old(State()).(messages := old(messages.State()).Take(msg.slot));
      FillHeader(msg, dest, src, kind, info);
      assert State() == Begun(old(State()), msg.slot, order);
      var ok := AddPayload(msg, payload, payloadSize);
      if !ok {
        var _ := ReleaseMessage(msg);
        NotCreated(old(State()), msg.slot, order);
        return null;
      }
      Created(old(State()), State(), msg.slot, order);
      SetCount(msg, dest);
    }

    /** The start of create_message. */
    method FillHeader(msg: MuxerInput, dest: nat, src: nat, kind: Kind, info: bv16)
      requires Valid() && msg in blocks
      modifies msg
      ensures Valid()
      ensures msg.slot in old(Headers()) && State() == Addressed(old(State()), msg.slot, dest, src, kind, info)
    {
      Located(msg);
      msg.destination := dest;
      msg.source := src;
      msg.kind := kind;
      msg.info := info;
      OnlyBlock(msg);
    }

    /** The payload part of create_message. A block that is handed out may hold anything, so a message
        without payload says so. */
    method AddPayload(msg: MuxerInput, payload: array?<Byte>, size: nat) returns (ok: bool)
      requires Valid() && msg in blocks && Readable(payload, size) && size <= MAX_PAYLOAD
      modifies payloads, msg, rows
      ensures Valid()
      ensures ok <==> size == 0 || payload == null || old(payloads.free) != {}
      ensures !ok ==> State() == old(State())
      ensures ok ==> Loaded(old(State()), State(), msg.slot, old(Bytes(payload, size)), size)
    {
      Located(msg);
      if size != 0 && payload != null {
        ok := AttachPayload(msg, payload, size);
      } else {
        msg.payload := None;
        msg.payloadSize := 0;
        OnlyBlock(msg);
        ok := true;
      }
    }

    method AttachPayload(msg: MuxerInput, payload: array<Byte>, size: nat) returns (ok: bool)
      requires Valid() && msg in blocks && Readable(payload, size) && size <= MAX_PAYLOAD
      modifies payloads, msg, rows
      ensures Valid()
      ensures ok <==> old(payloads.free) != {}
      ensures !ok ==> State() == old(State())
      ensures ok ==> Attached(old(State()), State(), msg.slot, msg.payload, old(Prefix(payload[..], size)), size)
    {
      Located(msg);
      var row := payloads.Allocate();
      if row.None? {
        return false;
      }
      assert State() == old(State()).(payloads := old(payloads.State()).Take(row.value));
      msg.payload := row;
      Copy(rows[row.value], payload, size);
      msg.payloadSize := size;
      OnlyBlock(msg);
      OnlyRow(row.value);
      return true;
    }

    method ReleaseMessage(msg: MuxerInput) returns (ok: bool)
      requires Valid()
      modifies messages
      ensures Valid()
      ensures ok <==> msg.slot in old(messages.used)
      ensures State() == old(State()).(messages := old(messages.State()).Give(msg.slot))
    {
      ok := messages.Release(msg.slot);
    }

    /** The end of create_message. */
    method SetCount(msg: MuxerInput, dest: nat)
      requires Valid() && msg in blocks
      modifies msg
      ensures Valid()
      ensures msg.slot in old(Headers()) && State() == Counted(old(State()), msg.slot, dest)
    {
      Located(msg);
      msg.count := PopCount(dest) % COUNT_RANGE;
      OnlyBlock(msg);
    }

    /** consume_message. A null message counts as already freed. */
    method ConsumeMessage(msg: MuxerInput?) returns (ok: bool)
      requires Valid() && (msg != null ==> msg in blocks)
      modifies Repr()
      ensures Valid()
      ensures if msg == null then ok && State() == old(State()) else (State(), ok) == Consumed(old(State()), msg.slot)
    {
      if msg == null {
        return true;
      }
      var count := msg.count;
      msg.count := CountMinusOne(count);
      OnlyBlock(msg);
      assert State() == CountedDown(old(State()), msg.slot);
      if count == 1 {
        ok := Free(msg);
        return ok;
      }
      return true;
    }

    /** The rest of consume_message, for the last recipient. */
    method Free(msg: MuxerInput) returns (ok: bool)
      requires Valid() && msg in blocks
      modifies Repr()
      ensures Valid()
      ensures msg.slot in old(Headers()) && (State(), ok) == FreeBlocks(old(State()), msg.slot)
    {
      Located(msg);
      if msg.payload.Some? {
        var freed := FreePayload(msg, msg.payload.value);
        if !freed {
          return false;
        }
      }
      ok := ReleaseMessage(msg);
    }

    method FreePayload(msg: MuxerInput, row: nat) returns (ok: bool)
      requires Valid() && msg in blocks
      modifies payloads, msg
      ensures Valid()
      ensures ok <==> row in old(payloads.used)
      ensures msg.slot in old(Headers())
      ensures State() == if ok then PayloadFreed(old(State()), msg.slot, row) else old(State())
    {
      Located(msg);
      ok := payloads.Release(row);
      if ok {
        msg.payload := None;
        msg.payloadSize := 0;
      }
      OnlyBlock(msg);
    }

    /** What an answer to message `m` in block `b` of heap `h` is. The reply goes where the request came from, comes
        from where it went, and has its kind and the caller's info. If the request is in use, the reply carries the
        caller's payload, and there is none exactly if the payload is too long or a pool it needs is empty. */
    ghost predicate Answered(h: Heap, b: nat, m: Message, info: bv16, bytes: Option<seq<Byte>>, size: nat, reply: MuxerInput?)
      reads reply, rows
    {
      && (reply != null ==>
            && reply.slot in h.messages.free
            && reply.source == m.destination && reply.destination == m.source
            && reply.kind == m.kind && reply.info == info)
      && (b in h.messages.used && reply != null ==>
            if size != 0 && bytes.Some? then
              && reply.payloadSize == size
              && reply.payload.Some? && reply.payload.value < |rows|
              && bytes.value <= rows[reply.payload.value][..]
            else reply.payload == None && reply.payloadSize == 0)
      && (b in h.messages.used && (m.payload.None? || m.payload.value in h.payloads.used) ==>
            (reply == null <==>
              || size > 512 || h.messages.free == {}
              || (size != 0 && bytes.Some? && h.payloads.free == {})))
    }

    lemma AnswerMeans(h: Heap, b: nat, info: bv16, bytes: Option<seq<Byte>>, size: nat, reply: MuxerInput?)
      requires Layout() && (reply != null ==> reply in blocks)
      requires Responds(h, State(), b, info, bytes, size, SlotOf(reply))
      requires h.messages.Valid() && b in h.mem
      ensures Answered(h, b, h.mem[b], info, bytes, size, reply)
    {
      RespondsMeans(h, State(), b, info, bytes, size, SlotOf(reply));
      hide Responds;
      if reply != null {
        Located(reply);
      }
    }

    /** create_response_message */
    method CreateResponseMessage(msg: MuxerInput?, info: bv16, payload: array?<Byte>, payloadSize: nat)
      returns (reply: MuxerInput?)
      requires Valid() && (msg != null ==> msg in blocks) && Readable(payload, payloadSize)
      modifies Repr()
      ensures Valid()
      ensures reply != null ==> reply in blocks
      ensures msg == null ==> reply == null && State() == old(State())
      ensures msg != null ==>
        Responds(old(State()), State(), msg.slot, info, old(Bytes(payload, payloadSize)), payloadSize, SlotOf(reply))
      ensures msg != null ==>
        Answered(old(State()), msg.slot, old(msg.Contents()), info, old(Bytes(payload, payloadSize)), payloadSize, reply)
    {
      if msg == null {
        return null;
      }
      reply := Answer(msg, info, payload, payloadSize);
    }

    /** create_response_message on a message that is there. */
    method Answer(msg: MuxerInput, info: bv16, payload: array?<Byte>, payloadSize: nat) returns (reply: MuxerInput?)
      requires Valid() && msg in blocks && Readable(payload, payloadSize)
      modifies Repr()
      ensures Valid()
      ensures reply != null ==> reply in blocks
      ensures Responds(old(State()), State(), msg.slot, info, old(Bytes(payload, payloadSize)), payloadSize, SlotOf(reply))
      ensures Answered(old(State()), msg.slot, old(msg.Contents()), info, old(Bytes(payload, payloadSize)), payloadSize, reply)
    {
      hide Creates, Consumed, Responds, Answered;
      Located(msg);
      var created := CreateMessage(msg.source, msg.destination, msg.kind, info, payload, payloadSize);
      Located(msg);
      ghost var between := State();
      var ok := ConsumeMessage(msg);
      reply := if ok then created else null;
      Responded(old(State()), between, State(), msg.slot, info, old(Bytes(payload, payloadSize)), payloadSize, SlotOf(created));
      AnswerMeans(old(State()), msg.slot, info, old(Bytes(payload, payloadSize)), payloadSize, reply);
    }
  }
}
