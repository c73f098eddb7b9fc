# Firmware core: message fabric, exclusive access, clock, PHY

This project models the four parts of the firmware that hold its real logic, and proves what they promise.

- **The message fabric** (`muxer`). Tasks exchange reference-counted messages that live in blocks of two bounded
  pools. It is modelled twice. `FabricHeap` is the program's own form: block objects and arrays updated in place by
  `create_message`, `consume_message` and `create_response_message`. `FabricSteps` is a step system in which any number of
  calls are in flight and interleave between any two accesses to shared memory or to a pool. `FabricCalls` says what one
  whole call does; the heap methods are proved against it, and `FabricRefinement` proves that the steps of a call that
  nothing interrupts add up to it. `FabricInvariant`, `FabricPreservation`, `FabricLedger` and `FabricReplies` carry the
  invariants (a few lemmas for each line of code), and `FabricTheorems`, `FabricFootprint` and `FabricExchange` state the
  results over all runs.
  `Router` is the dispatch loop; `Masks` are the bit operations they share.
- **Exclusive access** (`hal`). `Exclusive` is the load-exclusive and store-exclusive protocol for any number of agents and
  any register width, with spurious failures; `Registers` instantiates it for 32 and 16 bits; `RetryLoops` holds the six
  macros as loops; `RegisterMasks` is the bit arithmetic. `FetchAndSub` applies the protocol to the fabric's count, and
  `Exclusive.FetchIsAtomic` is why the fabric may treat its fetch-and-subtract as one step.
- **The clock** (`startup`). `Binary32` is binary32 rounding (section 4.3.1 of IEEE 754-2008), and `Clock` is
  `SystemCoreClockUpdate` on top of it.
- **The PHY driver** (`bsp/lan8742`). `PhyDevice` is the management bus with registers that keep what is written and a link
  status bit that latches low (section 22.2.4.2 of IEEE 802.3), where any access may fail; `PhyDriver` is the driver;
  `PhyTheorems` states what holds over whole runs of calls. `PhyBits` are the registers' bits.

How the outside world enters:

- A ThreadX block pool is a set of free and a set of used blocks. An allocation that does not wait fails exactly when no
  block is free, and may otherwise return any free one; a release succeeds exactly on a used block. Capacities are
  parameters. What a freshly allocated block holds is arbitrary.
- The fabric's recipients call back once for each share of a message they were given, as the header asks, and senders
  name at least one destination and themselves. These are the enabling conditions of the step system; the heap methods do
  not need them.
- A failing PHY access does not reach the device. Which accesses fail, and when the link is up or drops, is arbitrary.

Where the code and its documentation differ, the model follows the code:

- `LAN8742_Init` is documented to return a read error, but any failure of the scan ends as an address error
  (`PhyTheorems.InitSelects`).
- The router's table is written one slot below the destination bits, and the ARGB and broadcast destinations index past
  its end (`Router.TableIsOneSlotLow`, `Router.TableCovers`).
- `consume_message` is documented to return a general error and returns a pool error; that return cannot be reached
  (`FabricTheorems.NoUseAfterRelease`).
- A message created with an empty destination mask has no recipients, and would be freed only by a 65536th consume, when
  its count has gone all the way round (`FabricCalls.FreedIffAddressed`).

## Model

| member | source | states |
|---|---|---|
| `Router.Dispatch` | muxer/src/task_muxer.cpp:180-196 | The loop ends for every mask; its targets are exactly the set bits, each once, ascending; its count is their number; it runs past the table exactly for masks of 2048 and more; otherwise each target is looked up in its own slot, and all of them hold a queue exactly if each bit is one of 1, 4, 6, 7, 8, 9, 10 |
| `Router.TableCovers` | muxer/src/task_muxer.cpp:48-58 | Every lookup of a mask is in bounds if and only if the mask is below 2^11 |
| `Router.TableIsOneSlotLow` | muxer/src/task_muxer.cpp:48-58 | Each destination's queue sits in the slot below its bit, so only the network task, which has none, finds its own entry |
| `Router.EveryRecipientIsServed` | muxer/src/task_muxer.cpp:185-196 | The recipients a message counts all get a queue if and only if every bit of its mask selects a slot with one |
| `Masks.TrailingZeros` | muxer/src/task_muxer.cpp:186 | The lowest set bit: it is set, and none below it is |
| `Masks.ClearBit` | muxer/src/task_muxer.cpp:194 | Clears that bit and no other |
| `Masks.BitsAreTheSetBits` | muxer/src/task_muxer.cpp:107 | The population count of a mask is the number of destinations it names |
| `FabricCalls.CountIsTargets` | muxer/src/task_muxer.cpp:107 | The count stored in a message equals the number of targets the router's loop visits |
| `FabricHeap.BlockPool.Allocate` | muxer/src/task_muxer.cpp:76 | Fails exactly when nothing is free, and otherwise moves one free block to the used ones |
| `FabricHeap.BlockPool.Release` | muxer/src/task_muxer.cpp:124 | Succeeds exactly on a used block, which becomes free |
| `FabricHeap.Fabric.constructor` | launcher/src/launcher.c:185-191 | Both pools begin with every block free |
| `FabricHeap.Fabric.CreateMessage` | muxer/src/task_muxer.cpp:64-111 | All or nothing: null exactly when the payload is over 512 bytes or a pool it needs is empty, and then pools, payloads and used headers are as before; otherwise a free block filled as asked, with a payload block of its own that holds the caller's bytes |
| `FabricHeap.Fabric.ConsumeMessage` | muxer/src/task_muxer.cpp:113-138 | A null message changes nothing; otherwise the count goes down by one, the call that saw 1 gives back payload and message, and the result says whether both releases succeeded |
| `FabricHeap.Fabric.CreateResponseMessage` | muxer/src/task_muxer.cpp:140-159 | A null request changes nothing. Otherwise a reply goes to the request's source, comes from its destination, and has its kind and the caller's info; if the request is in use, it holds the caller's bytes exactly if there are any, and with the request's own payload in use too there is no reply exactly when the payload is over 512 bytes or a pool it needs is empty; and the caller's share of the request is consumed either way |
| `FabricCalls.RespondsMeans` | muxer/src/task_muxer.cpp:148-158 | The same of the specification: what a reply carries, in terms of the request's old header and the arguments, and exactly when there is none |
| `FabricCalls.CreatesMeans` | muxer/src/task_muxer.cpp:64-111 | Null exactly when the payload is over 512 bytes or a pool that is needed is empty; otherwise a free block with the header and the bytes that were asked for |
| `FabricCalls.ConsumedMeans` | muxer/src/task_muxer.cpp:120-137 | The count goes down by one, from 0 to 65535; from 1 on payload and message become free as far as they are in use, and the result says whether both were |
| `FabricHeap.Fabric.Copy` | muxer/src/task_muxer.cpp:95 | The first bytes of the block become the caller's bytes, and the rest stays |
| `FabricCalls.FreedIffAddressed` | muxer/src/task_muxer.cpp:107-138 | For every number of consumes: a message is out until as many as its mask names have consumed it and free from then on; one with mask 0 is out until the 65536th consume |
| `FabricCalls.FreedByLast` | muxer/src/task_muxer.cpp:120-135 | For every number of consumes: a block is out until its count has come down to 0, or all the way round if it was 0 |
| `FabricPreservation.InitialInv` | launcher/src/launcher.c:185-191 | The invariant holds when nothing is allocated |
| `FabricPreservation.ApplyKeeps` | muxer/src/task_muxer.cpp:64-159 | Every step of every call keeps the invariant: used blocks are the recorded ones, counts are the pending recipients, headers and payloads are as created, each payload block has one owner |
| `FabricPreservation.RunKeeps` | muxer/src/task_muxer.cpp:64-159 | So does every run of any interleaving |
| `FabricInvariant.Frame` | muxer/src/task_muxer.cpp:64-159 | A step that touches one message block, one payload block and its own call keeps the invariant everywhere else |
| `FabricPreservation.DecrementLastKeeps` | muxer/src/task_muxer.cpp:120 | The recipient that sees 1 becomes the only one with a right to the block |
| `FabricPreservation.DecrementOtherKeeps` | muxer/src/task_muxer.cpp:120 | A recipient that sees more than 1 gives up its share and leaves the count equal to the pending ones |
| `FabricPreservation.PayloadIsOut` | muxer/src/task_muxer.cpp:123-125 | The payload the last recipient releases is in use, and is the message's own |
| `FabricTheorems.NoUseAfterRelease` | muxer/src/task_muxer.cpp:113-159 | In every reachable state no step touches a released block, the reads before answering included, every release finds its block in use, and no pool error is returned |
| `FabricTheorems.ExactlyOnce` | muxer/src/task_muxer.cpp:113-138 | Over every run: a message that is gone was released exactly once, its payload exactly once if it had one, and exactly one call saw itself last if it had been passed on; one that is there was never released |
| `FabricTheorems.CountIsPending` | muxer/src/task_muxer.cpp:107-120 | In every reachable state the count of a message that was passed on is the number of recipients that have not counted down, and is above 0 |
| `FabricTheorems.QuietState` | muxer/src/task_muxer.cpp:64-159 | With no call in flight the used message blocks are exactly the live messages and each count is the number of its recipients still to come |
| `FabricTheorems.PayloadOwnership` | muxer/src/task_muxer.cpp:86-104 | In every reachable state used payload blocks are exactly those owned by a used message, and no two messages share one |
| `FabricTheorems.BlocksAreConserved` | muxer/src/task_muxer.cpp:76-133 | Free and used blocks stay disjoint and together stay the blocks each pool began with |
| `FabricTheorems.Drain` | muxer/src/task_muxer.cpp:107-138 | A run that ends with nothing in flight and nothing owed leaves both pools as they were at the start |
| `FabricTheorems.Isolation` | muxer/src/task_muxer.cpp:86-97 | From the copy of the payload, or from passing on, to the last consume every reader sees the header the sender asked for and the bytes that were copied, whatever the sender and the other calls do |
| `FabricTheorems.ReadersSeeSenderBytes` | muxer/include/task_muxer.h:151-153 | From end to end: every recipient reads the bytes the payload pointer led to when create_message copied them, also when an answer passes back the payload of its request |
| `FabricTheorems.CopyTakesSenderBytes` | muxer/src/task_muxer.cpp:94-98 | Those bytes are all there at that step: in the sender's memory, or in the request's payload block, which is in use and holds what the request was created with |
| `FabricTheorems.AnswerCarriesArguments` | muxer/src/task_muxer.cpp:150-151 | Over every run after a call starts to answer: it asks for a payload block exactly if the size is not 0 and the pointer not null, the message that it builds is to have the caller's info, pointer and size and has them once it is built, and whoever reads the reply later reads that info and a payload of that size, or none |
| `FabricTheorems.SendCarriesArguments` | muxer/src/task_muxer.cpp:64-108 | The same for a call that sends a message, which also keeps the destination, source and kind it was asked for |
| `FabricPreservation.SourceIsThere` | muxer/src/task_muxer.cpp:94-95 | A reply is created before its request is consumed, so the payload it passes back is still in use when it is copied |
| `FabricFootprint.StepWritesWhatItTouches` | muxer/src/task_muxer.cpp:64-159 | A step writes to no message block and no payload block but the ones the statement about released blocks says it touches |
| `FabricTheorems.CallsEnd` | muxer/src/task_muxer.cpp:64-159 | Every call ends after at most eleven steps of its own, however the others interleave |
| `FabricTheorems.NeverBlocked` | muxer/src/task_muxer.cpp:76-87 | No step of a call ever has to wait |
| `FabricLedger.ApplyLedger` | muxer/src/task_muxer.cpp:64-159 | Every step keeps the account of allocations, last recipients and releases of every message |
| `FabricReplies.ApplyReplies` | muxer/src/task_muxer.cpp:140-159 | Every step keeps the account of which reply answers which share, with source and destination swapped and at most one reply for a share |
| `FabricReplies.ReachableGood` | muxer/src/task_muxer.cpp:64-159 | The invariant and both accounts hold in every reachable state |
| `FabricExchange.ExchangeIsBounded` | muxer/src/task_muxer.cpp:140-159 | A request with k recipients and its replies never hold more than k + 1 messages |
| `FabricExchange.ExchangeLeavesReplies` | muxer/src/task_muxer.cpp:140-159 | Once the request is gone and nothing is in flight, what remains is exactly the created replies nobody has consumed, one for each answered share |
| `FabricExchange.ChainAlternates` | muxer/src/task_muxer.cpp:148-151 | Along a chain of answers of any length source and destination alternate, so answering an answer restores them |
| `FabricExchange.ConversationNeverFails` | muxer/src/task_muxer.cpp:140-159 | A one-to-one exchange of any length with two blocks in each pool and payloads of at most 512 bytes never fails to allocate and never has more than two messages |
| `FabricExchange.IdleIsAConversation` | muxer/src/task_muxer.cpp:140-159 | Idle pools are a start for such an exchange |
| `FabricRefinement.CreateRefines` | muxer/src/task_muxer.cpp:64-111 | The steps of create_message, uninterrupted, do what the whole call is specified to do |
| `FabricRefinement.ConsumeRefines` | muxer/src/task_muxer.cpp:113-138 | The same for consume_message, which then succeeds |
| `FabricRefinement.RespondRefines` | muxer/src/task_muxer.cpp:140-159 | The same for create_response_message, which then keeps its reply |
| `FabricRefinement.OwedIsConsumable` | muxer/src/task_muxer.cpp:124-134 | Wherever calls in flight have left the fabric, a whole consume of an owed share reports no error |
| `FabricRefinement.ReplyIsKept` | muxer/src/task_muxer.cpp:154-158 | Creating a reply leaves the request consumable, so a created reply is never dropped |
| `Exclusive.StepKeeps` | hal/hal/include/stm32h5xx.h:161-212 | After every step of any mix of operations the register is what the last one stored, every operation was computed from what the register held when it loaded, and a reservation means that nobody stored since |
| `Exclusive.RegisterIsLastStore` | hal/hal/include/stm32h5xx.h:157-166 | In every reachable state the register holds what the last operation made of the value it had loaded, or the value of the last plain write |
| `Exclusive.SequentialIffCurrent` | hal/hal/include/stm32h5xx.h:157-212 | For any mix of exclusive, plain and write operations and any interleaving, the completed operations are as good as carried out one after another if and only if every plain store found in the register what its agent had loaded |
| `Exclusive.UndisturbedIsCurrent` | hal/hal/include/stm32h5xx.h:157 | That is so if nobody stores between the load and the store of a plain operation |
| `Exclusive.NoPlainIsCurrent` | hal/hal/include/stm32h5xx.h:161-212 | And always so without plain operations: the retry loops need no condition |
| `Exclusive.Linearizable` | hal/hal/include/stm32h5xx.h:157-212 | Over every such run the register is the fold of the completed operations in the order of their stores, each computed from what the ones before left, and each agent's completed and remaining operations are its program |
| `Exclusive.RealTime` | hal/hal/include/stm32h5xx.h:161-212 | What took effect before a point of a run comes before everything still to be done there |
| `Exclusive.LockFree` | hal/hal/include/stm32h5xx.h:166-166 | Stores that fail because another agent stored are at most the completed operations times the number of other agents |
| `Exclusive.FetchIsAtomic` | muxer/src/task_muxer.cpp:120 | An agent that returns from a load-exclusive loop returns what the operations before its own had left |
| `FetchAndSub.LastIsUnique` | muxer/src/task_muxer.cpp:107-120 | Counting down through a retry loop, the recipients see their number, ..., 2, 1 in the order of their stores, so exactly one of them sees 1, and it is the last |
| `Exclusive.OrderIsIrrelevant` | hal/hal/include/stm32h5xx.h:161-212 | If operations of different agents commute, two interleavings with the same work per agent end alike |
| `Exclusive.EveryOrderAgrees` | hal/hal/include/stm32h5xx.h:161-212 | Then every complete run ends as carrying out the programs in any order does |
| `Exclusive.PlainAlone` | hal/hal/include/stm32h5xx.h:157 | A plain load, change and store that nothing interrupts does the same to the register |
| `Exclusive.PlainInTurn` | hal/hal/include/stm32h5xx.h:145-157 | The plain forms of operations that commute, run so that each store finds what was loaded, end as the operations themselves do in any order |
| `Exclusive.PlainLosesUpdate` | hal/hal/include/stm32h5xx.h:157 | Without that condition two plain operations, both loading before either stores, lose the first one's update, whatever they compute |
| `Registers.DisjointMasksAgree32` | hal/hal/include/stm32h5xx.h:161-185 | Agents with disjoint masks: every interleaving of the 32-bit atomic macros ends as running them one after another in any order |
| `Registers.DisjointMasksAgree16` | hal/hal/include/stm32h5xx.h:188-212 | The same for the 16-bit macros |
| `Registers.BitsAreTheirOwners32` | hal/hal/include/stm32h5xx.h:161-185 | At any moment of any run of agents with disjoint masks, each finds the bits of its own mask as its own completed 32-bit macros leave them when they run alone, and bits in no mask are as they were |
| `Registers.BitsAreTheirOwners16` | hal/hal/include/stm32h5xx.h:188-212 | The same for the 16-bit macros |
| `Registers.ModifyMeans32` | hal/hal/include/stm32h5xx.h:183 | The function a 32-bit operation applies sets the bits to set, clears the others to clear, and keeps every other bit |
| `Registers.ModifyMeans16` | hal/hal/include/stm32h5xx.h:210 | The same for 16 bits |
| `Registers.PlainMasksAgree32` | hal/hal/include/stm32h5xx.h:145-157 | Agents with disjoint masks: runs of the plain 32-bit forms in which each store finds what was loaded end as the atomic macros do |
| `Registers.PlainMasksAgree16` | hal/hal/include/stm32h5xx.h:145-157 | The same for 16-bit registers |
| `Registers.PlainLosesBit` | hal/hal/include/stm32h5xx.h:145-157 | Without that condition the plain forms can lose a bit even with disjoint one-bit masks |
| `RegisterMasks.MasksCommute32` | hal/hal/include/stm32h5xx.h:183 | Modifications through masks that do not meet commute |
| `RegisterMasks.MaskedModifies32` | hal/hal/include/stm32h5xx.h:157 | Exactly one value has the bits to set set, the others to clear clear, and every other bit as before, and it is the one the 32-bit macros compute |
| `RegisterMasks.MaskedModifies16` | hal/hal/include/stm32h5xx.h:157 | The same for 16 bits |
| `RetryLoops.AtomicSet32` | hal/hal/include/stm32h5xx.h:161-167 | Whatever others write between the attempts, the macro ends having set its bits in exactly the value they had left before the store that succeeded |
| `RetryLoops.AtomicClear32` | hal/hal/include/stm32h5xx.h:170-176 | The same, clearing bits |
| `RetryLoops.AtomicModify32` | hal/hal/include/stm32h5xx.h:179-185 | The same, clearing and setting bits |
| `RetryLoops.AtomicSet16` | hal/hal/include/stm32h5xx.h:188-194 | The 16-bit form of setting bits |
| `RetryLoops.AtomicClear16` | hal/hal/include/stm32h5xx.h:197-203 | The 16-bit form of clearing bits |
| `RetryLoops.AtomicModify16` | hal/hal/include/stm32h5xx.h:206-212 | The 16-bit form of clearing and setting bits |
| `RetryLoops.WinnerInRange` | hal/hal/include/stm32h5xx.h:163-166 | The attempt that succeeds is the first one that is left in peace |
| `RetryLoops.AtStoreIsLastWrite` | hal/hal/include/stm32h5xx.h:164-166 | The winning attempt loads the last value that anybody wrote before it, or the first value if nobody did |
| `RetryLoops.FailedAttempt` | hal/hal/include/stm32h5xx.h:163-166 | A failed attempt leaves the rest of the history to the next one |
| `Binary32.RoundIsNearest` | startup/system_stm32h5xx.c:344-376 | No binary32 value is nearer, and of two equally near the even one is taken |
| `Binary32.RoundIsRepresentable` | startup/system_stm32h5xx.c:344-376 | Rounding yields a binary32 value |
| `Binary32.RepresentableMeans` | startup/system_stm32h5xx.c:344-376 | The binary32 values are exactly the numbers n * 2^e with n of at most 24 bits |
| `Binary32.RelativeBound` | startup/system_stm32h5xx.c:344-376 | Rounding changes a value by at most 2^-24 of it |
| `Clock.MultiplierIsExact` | startup/system_stm32h5xx.c:346-354 | N + F/8192 + 1 is computed without rounding for all field values |
| `Clock.SourceIsExact` | startup/system_stm32h5xx.c:351-353 | The source frequency is converted without rounding |
| `Clock.ThreeRoundings` | startup/system_stm32h5xx.c:351-376 | Only the division by M, the multiplication and the division by P round |
| `Clock.OutputIsNear` | startup/system_stm32h5xx.c:343-376 | The PLL output is within 4 * 2^-24 of the exact frequency |
| `Clock.ClockError` | startup/system_stm32h5xx.c:343-388 | The clock, before and after the prescaler, is off by less than 1 Hz plus 4 * 2^-24 of the exact frequency |
| `Clock.ExactMeans` | startup/system_stm32h5xx.c:346-376 | The exact frequency is S * (8192 * (N+1) + F) / (8192 * M * P) |
| `Clock.FieldMeanings` | startup/system_stm32h5xx.c:346-376 | In raw fields: the source is 64 MHz divided by 1, 2, 4 or 8, 4 MHz or 25 MHz, the multiplier N + 1 plus the fraction over 8192 if it is enabled, and the last divider P + 1 |
| `Clock.ExactInFields` | startup/system_stm32h5xx.c:343-376 | The exact frequency is hz * (8192 * (n + 1) + fraction) / (8192 * m * (p + 1)) in raw fields |
| `Clock.ClockErrorInFields` | startup/system_stm32h5xx.c:343-388 | The clock, before and after the prescaler, is off that frequency by less than 1 Hz plus 4 * 2^-24 of it |
| `Clock.QuotientInFields` | startup/system_stm32h5xx.c:343-388 | Where quotient, product and output fit 24 bits, the clock is the integer quotient in raw fields |
| `Clock.OtherClocks` | startup/system_stm32h5xx.c:329-341 | Every other selection gives its literal frequency, 64 MHz for one that does not exist and 0 from a PLL without a source, divided by the prescaler |
| `Clock.PrescalerMeans` | startup/system_stm32h5xx.c:176-388 | The prescaler field divides by 1 below 8 and then by 2, 4, 8, 16, 64, 128, 256 and 512 |
| `Clock.ExactPath` | startup/system_stm32h5xx.c:343-388 | Over exact rationals truncating and then shifting equals one integer quotient by 8192 * M * P * 2^k |
| `Clock.ShiftIsFloor` | startup/system_stm32h5xx.c:376-388 | Shifting a truncated value equals truncating the shifted value |
| `Clock.ExactIfRepresentable` | startup/system_stm32h5xx.c:351-388 | If quotient, product and output each fit 24 bits, the clock is the exact integer quotient, before and after the prescaler |
| `Clock.DyadicClockIsExact` | startup/system_stm32h5xx.c:346-388 | So it is whenever S / M is c * 2^a, the multiplier r * 2^b, the last divider a power of two, and c * r below 2^24 |
| `Clock.ClockIsExact` | startup/system_stm32h5xx.c:346-388 | Without a fraction, with M = d * 2^i where d divides the odd part c * d of the source, and P = 2^j, the clock is exact if c * (N + 1) is below 2^24 |
| `Clock.InternalClockIsExact` | startup/system_stm32h5xx.c:346-388 | From HSI or CSI with dividers that are powers of two and no fraction, it is exact for every N |
| `Clock.FloatIsInexact` | startup/system_stm32h5xx.c:351-376 | Otherwise it may not be: with HSI / 7 * 10 the clock is 91428568 where the exact quotient is 91428571 |
| `Clock.OutputFits` | startup/system_stm32h5xx.c:376 | An exact frequency a little below 2^32 keeps the conversion to 32 bits defined |
| `Clock.System.SystemCoreClockUpdate` | startup/system_stm32h5xx.c:325-389 | The clock variable ends as the selected source, or the PLL output truncated, shifted by the prescaler table's entry, and fits 32 bits |
| `PhyDevice.Bus.ReadReg` | bsp/lan8742/src/lan8742.c:234-241 | A read fails or yields the register; reading the status of a device releases its latch |
| `PhyDevice.Bus.WriteReg` | bsp/lan8742/src/lan8742.c:157 | A write fails, or the register holds the value |
| `PhyDriver.Lan8742.InitDevice` | bsp/lan8742/src/lan8742.c:81-119 | Starts the hardware if there is any, whatever comes of it; the scan loop then does what the recursive scan does, and sets address and flag accordingly |
| `PhyDriver.Lan8742.DeInitDevice` | bsp/lan8742/src/lan8742.c:128-140 | Fails only if the hardware below does, and otherwise clears the flag |
| `PhyDriver.Lan8742.DisablePowerDownMode` | bsp/lan8742/src/lan8742.c:149-165 | Reads, clears the power-down bit and writes back; a failing read or write is reported |
| `PhyDriver.Lan8742.EnablePowerDownMode` | bsp/lan8742/src/lan8742.c:174-190 | The same, setting the bit |
| `PhyDriver.Lan8742.StartAutoNego` | bsp/lan8742/src/lan8742.c:199-215 | The same for the negotiation bit |
| `PhyDriver.Lan8742.EnableLoopbackMode` | bsp/lan8742/src/lan8742.c:339-355 | The same for the loopback bit |
| `PhyDriver.Lan8742.DisableLoopbackMode` | bsp/lan8742/src/lan8742.c:364-380 | The same, clearing it |
| `PhyDriver.Lan8742.EnableIT` | bsp/lan8742/src/lan8742.c:399-415 | Sets bits of the interrupt mask |
| `PhyDriver.Lan8742.DisableIT` | bsp/lan8742/src/lan8742.c:434-450 | Clears bits of the interrupt mask |
| `PhyDriver.Lan8742.GetLink` | bsp/lan8742/src/lan8742.c:230-284 | Two status reads, then the forced or the negotiated mode |
| `PhyDriver.Lan8742.SetLink` | bsp/lan8742/src/lan8742.c:300-330 | Forces one of three modes; half duplex at 10 Mbit/s and anything else is an error after the read, without a write |
| `PhyTheorems.ControlRegisterRefines` | bsp/lan8742/src/lan8742.c:149-380 | For every sequence of calls and failures, every device's control register holds the five settings the successful calls on it left, and its other bits never change |
| `PhyTheorems.ChangeMeans` | bsp/lan8742/src/lan8742.c:149-380 | A successful call changes its own settings and no other bit |
| `PhyTheorems.DisablePowerDownStores` | bsp/lan8742/src/lan8742.c:149-165 | In literal bits: the control register loses 0x0800, or nothing changes and the failing access is reported |
| `PhyTheorems.EnablePowerDownStores` | bsp/lan8742/src/lan8742.c:174-190 | It gains 0x0800 |
| `PhyTheorems.StartAutoNegoStores` | bsp/lan8742/src/lan8742.c:199-215 | It gains 0x1000 |
| `PhyTheorems.EnableLoopbackStores` | bsp/lan8742/src/lan8742.c:339-355 | It gains 0x4000 |
| `PhyTheorems.DisableLoopbackStores` | bsp/lan8742/src/lan8742.c:364-380 | It loses 0x4000 |
| `PhyTheorems.InterruptStores` | bsp/lan8742/src/lan8742.c:399-450 | The interrupt mask gains or loses exactly the given bits |
| `PhyTheorems.Full100Stores` | bsp/lan8742/src/lan8742.c:300-330 | Negotiation off, 100 Mbit/s and full duplex on |
| `PhyTheorems.Half100Stores` | bsp/lan8742/src/lan8742.c:300-330 | Negotiation and full duplex off, 100 Mbit/s on |
| `PhyTheorems.Full10Stores` | bsp/lan8742/src/lan8742.c:300-330 | Negotiation and 100 Mbit/s off, full duplex on |
| `PhyTheorems.SetLinkRejects` | bsp/lan8742/src/lan8742.c:300-330 | Any other mode is an error, or a read error if the read fails, and changes nothing |
| `PhyTheorems.OtherRegistersStay` | bsp/lan8742/src/lan8742.c:149-450 | The driver writes to no register but the control register and the interrupt mask |
| `PhyTheorems.InitSelects` | bsp/lan8742/src/lan8742.c:81-119 | Initialization succeeds if and only if some address up to 31 can be read and is the low five bits of its mode register, selects the least such address, and otherwise reports an address error, never a read error; no register changes |
| `PhyTheorems.InitializedMeansFound` | bsp/lan8742/src/lan8742.c:81-140 | Over every run of calls an initialized driver holds an address of at most 31 that is the low five bits of the mode register there |
| `PhyTheorems.DeInitMeans` | bsp/lan8742/src/lan8742.c:128-140 | De-initialization fails if and only if the driver was initialized, has hardware and that access fails, and then nothing changes; otherwise the flag is false and address and registers are as before |
| `PhyTheorems.ReinitSelects` | bsp/lan8742/src/lan8742.c:81-140 | An initialization after a successful de-initialization scans again |
| `PhyTheorems.InitTwice` | bsp/lan8742/src/lan8742.c:84-118 | An initialization of an initialized driver succeeds and changes nothing |
| `PhyBits.EchoesMeans` | bsp/lan8742/src/lan8742.c:103 | The scan compares the low five bits of the mode register with the address |
| `PhyTheorems.DoubleReadIsCurrent` | bsp/lan8742/src/lan8742.c:230-247 | For every history before the call the link reads as down exactly when it was down between the two reads |
| `PhyTheorems.SingleReadIsStale` | bsp/lan8742/src/lan8742.c:234-241 | With one read it would read as down exactly when it had been down since the last read |
| `PhyTheorems.LinkUpReportsMode` | bsp/lan8742/src/lan8742.c:249-283 | With the link up the mode reported is the forced one, or the one negotiation arrived at |
| `PhyTheorems.GetLinkMeans` | bsp/lan8742/src/lan8742.c:230-284 | The whole result on literal bits: read errors in the order of the accesses; 1 for a link that is down; with 0x1000 clear in the control register 2, 3, 4 or 5 by 0x2000 and 0x0100; otherwise 6 if and only if 0x1000 is clear in the special status, and 2, 3, 4 or 5 by its bits 0x001C; and no register changes |
| `PhyTheorems.NegotiatedMeans` | bsp/lan8742/include/lan8742.h:323-328 | The decoded mode agrees with the 100 Mbit/s and full-duplex bits of the speed indication |
| `PhyTheorems.SetThenGet` | bsp/lan8742/src/lan8742.c:230-330 | A mode that was set is read back as that mode after any calls, failing or not, that leave the driver's address and the link settings of the control register as they were right after the set |
| `PhyTheorems.LinkStaysSet` | bsp/lan8742/src/lan8742.c:149-380 | Failing calls, power-down, loopback and interrupt calls, queries and repeated initializations do leave them so |

## Left out

- FabricHeap.Fabric.CreateMessage: requires that the payload pointer does not lead into a payload block nobody owns, and
  that it leads to as many bytes as announced.
- FabricCalls.RespondsMeans: for a request that is no longer in use only the header of the reply is stated, because its block can
  be the one that the reply is given.
- FabricTheorems.Isolation: a payload pointer leads to memory of the sender's, or to the payload of the message being
  answered; that a recipient forwards a payload in a message of its own is covered by the heap methods only.
- FabricTheorems.NoUseAfterRelease: assumes that each recipient calls back once for each share, and that destination and
  source masks are not empty, as the header documents.
- Clock.System.SystemCoreClockUpdate: field masks and positions come from a device header that is not part of this model, so
  the fields are parameters; a PLL with divider 0 and an output of 2^32 Hz or more are excluded, because the conversion to
  an integer is then undefined.
- Binary32.Round: the exponent is not bounded; all values of the computation lie well inside the normal range.
- Clock: `float_t` is taken to be binary32, as it is on the target.
- RetryLoops.AtomicSet32: the rest of the machine acts in finitely many turns, so that the loop ends; the five other loops are alike.
- PhyDevice.Bus.WriteReg: bits above the sixteen of a management register are not modelled, nor self-clearing bits.
- `LAN8742_RegisterBusIO`, `LAN8742_ClearIT` and `LAN8742_GetITStatus`: one test each, and interrupt timing.
- Delivery to the queues in `muxer_task`: it is still to be written there; receiving yields the message's mask.
- Concrete pool sizes, block overhead, and everything else inside ThreadX, NetXDuo, USBX, FileX and the logger.
- `SystemInit`, the rest of the launcher, `main`, the interrupt handlers and the other HAL headers: setup code and constants.
- `__HAL_LOCK`: a plain test and set.
