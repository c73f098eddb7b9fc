/** The dispatch loop of the router task: it walks the destination mask of a received message
    and looks up one queue for every set bit. */
module Router {
  import opened Masks
  import opened Wrappers

  /** The queues the router can reach. */
  datatype Queue = Parser | Sequencer | Board | Hardware | RouterInput | Programmer | Argb

  /** The router's output table, in slot order; `None` is a null entry. */
  const OUTPUTS: seq<Option<Queue>> :=
    [None, Some(Parser), None, None, Some(Sequencer), None, Some(Board), Some(Hardware),
     Some(RouterInput), Some(Programmer), Some(Argb)]

  const SLOTS: nat := 11

  function Slot(target: nat): Option<Queue>
    requires target < SLOTS
  {
    OUTPUTS[target]
  }

  /** One pass of the loop takes the head off the list of targets still to visit. */
  lemma LowestBit(mask: nat)
    requires mask != 0
    ensures var rest := ClearBit(mask, TrailingZeros(mask));
            BitList(mask, 0) == [TrailingZeros(mask)] + BitList(rest, 0) && PopCount(mask) == 1 + PopCount(rest)
  {
    LowestBitIsHead(mask, 0);
    BitListIsSorted(mask, 0);
    BitListIsSorted(ClearBit(mask, TrailingZeros(mask)), 0);
  }

  /** The targets of a mask are its set bits, each once and in ascending order. */
  lemma TargetsAreTheSetBits(mask: nat)
    ensures forall i: nat :: i in BitList(mask, 0) <==> Bit(mask, i)
    ensures forall j, k :: 0 <= j < k < |BitList(mask, 0)| ==> BitList(mask, 0)[j] < BitList(mask, 0)[k]
    ensures |BitList(mask, 0)| == PopCount(mask)
  {
    BitListIsSorted(mask, 0);
    forall i: nat ensures i in BitList(mask, 0) <==> Bit(mask, i) {
      BitListMembers(mask, 0, i);
    }
  }

  ghost predicate AllInside(targets: seq<nat>) {
    forall k :: 0 <= k < |targets| ==> targets[k] < SLOTS
  }

  lemma OneMoreInside(targets: seq<nat>, target: nat)
    ensures AllInside(targets + [target]) <==> AllInside(targets) && target < SLOTS
  {
    if AllInside(targets + [target]) {
      assert (targets + [target])[|targets|] == target;
      forall k | 0 <= k < |targets| ensures targets[k] < SLOTS {
        assert (targets + [target])[k] == targets[k];
      }
    }
  }

  /** Every lookup stays inside the eleven slots exactly for the masks below 2048, so the bit of the
      ARGB task and the broadcast mask run past the end. */
  lemma TableCovers(mask: nat)
    ensures AllInside(BitList(mask, 0)) <==> mask < 2048
  {
    TargetsAreTheSetBits(mask);
    BoundedMask(mask, SLOTS);
    assert Power(SLOTS) == 2048 by {
      assert Power(4) == 16;
      assert Power(8) == 256;
    }
    if AllInside(BitList(mask, 0)) {
      forall i: nat | Bit(mask, i) ensures i < SLOTS {
        assert i in BitList(mask, 0);
      }
    } else {
      var k :| 0 <= k < |BitList(mask, 0)| && BitList(mask, 0)[k] >= SLOTS;
      assert BitList(mask, 0)[k] in BitList(mask, 0);
    }
  }

  /** The clients are what the table holds at the targets. */
  ghost predicate LookedUp(targets: seq<nat>, clients: seq<Option<Queue>>) {
    && AllInside(targets) && |clients| == |targets|
    && forall k :: 0 <= k < |targets| ==> clients[k] == Slot(targets[k])
  }

  lemma NothingToVisit()
    ensures BitList(0, 0) == [] && PopCount(0) == 0 && AllInside([]) && LookedUp([], [])
  {
  }

  lemma OneMoreLookedUp(targets: seq<nat>, clients: seq<Option<Queue>>, target: nat)
    requires LookedUp(targets, clients) && target < SLOTS
    ensures LookedUp(targets + [target], clients + [Slot(target)])
  {
    hide Slot;
    OneMoreInside(targets, target);
  }

  /** The slots that hold a queue. */
  const QUEUED: set<nat> := {1, 4, 6, 7, 8, 9, 10}

  function Served(clients: seq<Option<Queue>>): nat {
    if clients == [] then 0
    else Served(clients[..|clients| - 1]) + if clients[|clients| - 1].Some? then 1 else 0
  }

  ghost predicate AllQueued(targets: seq<nat>) {
    forall k :: 0 <= k < |targets| ==> targets[k] in QUEUED
  }

  lemma SlotHoldsQueue(target: nat)
    requires target < SLOTS
    ensures Slot(target).Some? <==> target in QUEUED
  {
  }

  lemma {:induction false} ServedIffQueued(targets: seq<nat>, clients: seq<Option<Queue>>)
    requires AllInside(targets) && |clients| == |targets|
    requires forall k :: 0 <= k < |targets| ==> clients[k] == Slot(targets[k])
    ensures Served(clients) <= |targets|
    ensures Served(clients) == |targets| <==> AllQueued(targets)
    decreases |targets|
  {
    if targets != [] {
      var n := |targets| - 1;
      ServedIffQueued(targets[..n], clients[..n]);
      SlotHoldsQueue(targets[n]);
      hide Slot;
      if AllQueued(targets[..n]) && targets[n] in QUEUED {
        forall k | 0 <= k < |targets| ensures targets[k] in QUEUED {
          assert k < n ==> targets[k] == targets[..n][k];
        }
      }
    }
  }

  /** The loop finds a queue for every one of the recipients that the message counts exactly when each bit
      of the mask selects a slot with a queue. Any other bit counts a recipient that nothing can serve. */
  lemma EveryRecipientIsServed(mask: nat, targets: seq<nat>, clients: seq<Option<Queue>>)
    requires forall i: nat :: i in targets <==> Bit(mask, i)
    requires LookedUp(targets, clients) && |targets| == PopCount(mask)
    ensures Served(clients) == PopCount(mask) <==> forall i: nat :: Bit(mask, i) ==> i in QUEUED
  {
    ServedIffQueued(targets, clients);
    hide Slot, PopCount, Bit, Served;
    if AllQueued(targets) {
      forall i: nat | Bit(mask, i) ensures i in QUEUED {
        assert i in targets;
      }
    }
    if forall i: nat :: Bit(mask, i) ==> i in QUEUED {
      forall k | 0 <= k < |targets| ensures targets[k] in QUEUED {
        assert targets[k] in targets;
      }
    }
  }

  /** One pass over a message's destination mask. The original indexes the table without a bound
      check; the model records in `overrun` that a lookup fell past the end, and walks on. */
  method Dispatch(destination: nat) returns (targets: seq<nat>, clients: seq<Option<Queue>>, count: nat, overrun: bool)
    ensures forall i: nat :: i in targets <==> Bit(destination, i)
    ensures forall j, k :: 0 <= j < k < |targets| ==> targets[j] < targets[k]
    ensures count == |targets| == PopCount(destination)
    ensures overrun <==> destination >= 2048
    ensures !overrun ==> LookedUp(targets, clients)
    ensures !overrun ==> (Served(clients) == count <==> forall i: nat :: Bit(destination, i) ==> i in QUEUED)
  {
    hide BitList, PopCount, Bit, AllInside, LookedUp, Slot;
    var destMask := destination;
    targets, clients, count, overrun := [], [], 0, false;
    NothingToVisit();
    while destMask != 0
      invariant BitList(destination, 0) == targets + BitList(destMask, 0)
      invariant count == |targets|
      invariant PopCount(destination) == count + PopCount(destMask)
      invariant overrun <==> !AllInside(targets)
      invariant !overrun ==> LookedUp(targets, clients)
      decreases PopCount(destMask)
    {
      var target := TrailingZeros(destMask);
      LowestBit(destMask);
      OneMoreInside(targets, target);
      if target < SLOTS {
        if !overrun {
          OneMoreLookedUp(targets, clients, target);
        }
        clients := clients + [Slot(target)];
      } else {
        overrun := true;
      }
      targets := targets + [target];
      destMask := ClearBit(destMask, target);
      count := count + 1;
    }
    assert targets == BitList(destination, 0);
    TargetsAreTheSetBits(destination);
    TableCovers(destination);
    if !overrun {
      EveryRecipientIsServed(destination, targets, clients);
    }
  }

  /** The destinations a message can name, and the queue each of them owns, if any. */
  datatype Destination =
    Logger | ParserTask | Network | Usb | SequencerTask | File | BoardTask | HardwareTask | RouterTask |
    ProgrammerTask | ArgbTask

  function BitOf(d: Destination): nat {
    match d
    case Logger => 1
    case ParserTask => 2
    case Network => 3
    case Usb => 4
    case SequencerTask => 5
    case File => 6
    case BoardTask => 7
    case HardwareTask => 8
    case RouterTask => 9
    case ProgrammerTask => 10
    case ArgbTask => 11
  }

  function QueueOf(d: Destination): Option<Queue> {
    match d
    case ParserTask => Some(Parser)
    case SequencerTask => Some(Sequencer)
    case BoardTask => Some(Board)
    case HardwareTask => Some(Hardware)
    case RouterTask => Some(RouterInput)
    case ProgrammerTask => Some(Programmer)
    case ArgbTask => Some(Argb)
    case _ => None
  }

  /** The table is written one slot below the destination bits: every destination's own queue is in
      the slot before the one its bit selects. So a lookup that stays inside the table finds the
      destination's own entry only for the network task, which has no queue to find. */
  lemma TableIsOneSlotLow(d: Destination)
    ensures Slot(BitOf(d) - 1) == QueueOf(d)
    ensures BitOf(d) < SLOTS ==> (Slot(BitOf(d)) == QueueOf(d) <==> d == Network)
    ensures BitOf(d) < SLOTS <==> d != ArgbTask
  {
  }
}
