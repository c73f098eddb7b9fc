/** The values the message fabric works on: message headers, block pools, and the arguments of a
    message creation. Blocks are named by their slot in the pool's memory. */
module FabricTypes {
  import opened Wrappers

  type Byte = bv8

  /** Largest payload a message can carry, which is also the size of a payload block. */
  const MAX_PAYLOAD: nat := 512

  /** The recipient count is a 16-bit field. */
  const COUNT_RANGE: nat := 65536

  datatype Kind = Command | Buffer | Request

  /** The contents of one message block. */
  datatype Message = Message(
    source: nat,
    destination: nat,
    kind: Kind,
    info: bv16,
    count: nat,
    payload: Option<nat>,
    payloadSize: nat)

  /** A bounded block pool: the blocks it can still hand out, and the blocks it has handed out. */
  datatype Pool = Pool(free: set<nat>, used: set<nat>) {
    ghost predicate Valid() {
      free !! used
    }

    function Blocks(): set<nat> {
      free + used
    }

    function Take(b: nat): Pool {
      Pool(free - {b}, used + {b})
    }

    /** Handing a block back succeeds exactly on a block that is out. */
    function Give(b: nat): Pool {
      if b in used then Pool(free + {b}, used - {b}) else this
    }
  }

  /** What atomically subtracting one leaves in the 16-bit count. */
  function CountMinusOne(count: nat): nat {
    (count + COUNT_RANGE - 1) % COUNT_RANGE
  }

  /** Copying `bytes` to the start of a block leaves the rest of the block as it was. */
  function Overwrite(block: seq<Byte>, bytes: seq<Byte>): seq<Byte> {
    if |bytes| <= |block| then bytes + block[|bytes|..] else bytes
  }

  function Prefix(bytes: seq<Byte>, size: nat): seq<Byte> {
    if size <= |bytes| then bytes[..size] else bytes
  }
}
