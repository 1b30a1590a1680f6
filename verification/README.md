# A verified model of the RakNet reliability layer

This project models the reliability layer of raknet-rust in Dafny and proves what the layer is
for: payloads queued as ordered come out in order, nothing is acknowledged that was not taken
in, no reliable frame is lost or duplicated on the way to its acknowledgement, and the queues,
windows, budgets and tables stay within their limits in every run.

## How the model is built

* **Values and objects.** Wire formats, counters and tables are datatypes with functions over
  them. The parts the original updates in place are classes (`Session`, `OrderingChannels`,
  `SplitAssembler`, `ReliableTracker`, `AckQueue`, `Buffer`, `Server`, `ProcessingBudget`,
  `Budget`). Each method is proved equal to a function of the old state, and the run theorems are
  about those functions.
* **Runs.** `Send` is the sending half of a session as a machine of labelled steps, `Receive` the
  receiving half. `Conservation` carries a ledger of everything ever queued through a sending run.
  `Link` joins a sender and a receiver by a network: a set of byte strings that only grows, from
  which any string may arrive at any time, any number of times, or never. That covers loss,
  repetition and reordering.
* **Numbers.** A 24-bit sequence number is a value below 2^24 and stands for an unbounded counter.
  At exactly half the number space the comparison answers `Less` in both directions. It is a strict
  order on a set of numbers, as an ordered map needs of its keys, if and only if they lie in some
  window shorter than half the space (`OrderedIff`). Where a result needs this it is a precondition.
* **Time and floating point.** Clock readings and `f64` values are reals; times are in
  milliseconds. `usize` is unbounded.
* **Heap.** The outgoing heap is a multiset from which a frame of least weight is taken.
* **Relay.** Each atomic access to the shared byte counters is a step of its own, and the theorem
  is over all interleavings of the two tasks.
* **Server.** What the rate limiter, the sockets and the session queues decide is part of the
  events. The cookie MAC is an arbitrary function of address and key.

## Where the code does not do what one might expect

* Suppression of duplicate reliable frames is not exact, in two ways. A gap spoils the answers
  ahead of the base: `FreshFrameTakenForDuplicate` gives an input where a frame never seen is
  dropped, and `RunExactIff` says that over a run the filter is exact on the numbers ahead if and
  only if every taking of the base finds no later number missing. And what lies behind the base is
  always answered unseen (`BehindUnseen`), so a repeated frame passes again
  (`RepeatedFramePasses`); the filter is exact in both directions if and only if the base is never
  taken (`BothWaysIff`). Ordered delivery does not depend on the filter.
* The sixteen-bit length field holds the length of a payload piece modulo 8192 bytes, so the
  back-pressure estimate counts more bytes than are queued once a piece is 8192 bytes or longer
  (`LongPieceMiscounted`). `EstimateExact` has the exact condition. It takes a session created
  directly with a large MTU: negotiation (src/transport/server.rs:2194-2201) and configuration
  (src/transport/config.rs:344-346) keep it between 576 and 1400.
* A datagram that reuses a number still tracked displaces the old entry and its frames
  (`ReuseLosesFrames`). `StepConserves` states that building a datagram conserves frames if and
  only if its number carries none.
* The total byte limit of a relay session can be exceeded, by one payload and never by more
  (`TotalExceeded`, `BudgetKept`), for some settings. With payloads of any size it is kept in every
  interleaving if and only if the byte limits of the two directions are together within it
  (`TotalKeptAlwaysIff`), as the default settings are (`DefaultsKeepTotal`). With payloads of
  bounded size, what counts for a direction is the smaller of its byte limit and its packet limit
  in payloads of that size (`TotalKeptIff`).
* A Request2 that claims a client proof without a cookie loses the claim on the wire
  (`Request2RoundTrip`).
* Evicting idle token buckets can change decisions. `EvictionIff` says exactly for which settings
  it never does, in any run: an idle bucket fills up within the idle limit, or the total catches
  up with it. The latter covers a total that is no larger and no faster than one address
  (`SmallTotalHides`), even where a bucket is evicted before it has refilled.
* A queue of ranges does not always name exactly what was pushed. Two ranges that meet merge into
  their union if and only if they name at most a lap together, or both go all the way round and
  touch (`MergeIff`, with the input in `PushForgets`); so with room, and for a new range of at most
  half a lap, numbers are lost if and only if it meets the last one and they name more than a lap
  (`PushIff`). Without room exactly the parts that `PushDrops` names are dropped.
* Frames of one priority do not always leave in the order they were queued (`LaterFrameLighter`).
  Of two queued one after the other the later is lighter if and only if the earlier found an empty
  heap and an old weight above twice its level's share (`LaterLighterIff`).
* An ordered payload may wait although it has arrived. `AnyArrivalOrder` says exactly what is
  released: everything before the first ordering number that is missing. The number of a sequenced
  payload is one the receiver always misses, so ordered payloads behind it wait
  (`SequencedHoldsUp`).

## Model

| member | source | states |
|---|---|---|
| Sequence24.NextOf | src/protocol/sequence24.rs:27-37 | stepping a number forwards or backwards is stepping the counter it stands for, across the wrap |
| Sequence24.DistanceOf | src/protocol/sequence24.rs:39-47 | the circular distance is the true difference of two counters less than one lap apart |
| Sequence24.CmpByDistance | src/protocol/sequence24.rs:50-64 | the comparison decided by distance alone: less than half a lap ahead is greater, half a lap included is less |
| Sequence24.CmpOf | src/protocol/sequence24.rs:50-64 | the comparison agrees with the counters while they are less than half a lap apart |
| Sequence24.AntisymmetricIff | src/protocol/sequence24.rs:50-64 | the comparison is antisymmetric exactly off the half-lap pairs, where it answers less both ways |
| Sequence24.WindowOrder | src/protocol/sequence24.rs:50-64 | inside a window shorter than half a lap the comparison is the order of the offsets, so keys there are totally ordered |
| Sequence24.NotTransitive | src/protocol/sequence24.rs:50-64 | three numbers each less than the next, and the last less than the first |
| Sequence24.OrderedIff | src/protocol/sequence24.rs:50-64 | on every set of numbers the comparison is asymmetric and transitive if and only if they lie in some window shorter than half a lap |
| Sequence24.LeastKey | src/session/mod.rs:840-846 | a nonempty set of keys inside the window has a first one, which an ordered table visits first |
| Wire.U24RoundTrip | src/protocol/primitives.rs:12-30 | a 24-bit little-endian number is read back and nothing after it is touched |
| Wire.U64RoundTrip | src/protocol/primitives.rs:46-69 | a big-endian 64-bit integer is read back and nothing after it is touched |
| Wire.U32RoundTrip | src/protocol/primitives.rs:46-69 | the same for 32 bits |
| Wire.U16RoundTrip | src/protocol/primitives.rs:46-69 | the same for 16 bits |
| Wire.BoolRoundTrip | src/protocol/primitives.rs:32-43 | a boolean is read back |
| Frames.HeaderRoundTrip | src/protocol/frame_header.rs:25-46 | every header byte decodes, and encoding a header and decoding it gives it back |
| Frames.BitLengthTruncates | src/session/mod.rs:1067-1067 | the sixteen-bit length field recovers a payload length modulo 8192, so exactly the lengths below that |
| Frames.EncodeFrame | src/protocol/frame.rs:34-93 | a frame encodes to exactly its announced size |
| Frames.FrameRoundTrip | src/protocol/frame.rs:55-165 | an encoded frame is read back unchanged if and only if its payload is nonempty and its split numbers are in range, and is refused otherwise |
| Frames.DecodedFrame | src/protocol/frame.rs:95-165 | whatever the decoder accepts is well formed, in range and encodable |
| Frames.PutFrame | src/protocol/frame.rs:56-93 | the in-place encoder appends exactly the encoding, or reports the first missing field |
| Frames.TakeFrame | src/protocol/frame.rs:95-165 | the in-place decoder gives the value or error of the decoding function and leaves what follows |
| Ack.WalkVisits | src/session/mod.rs:1510-1522 | walking a range visits exactly its numbers, each once and in order, across the wrap |
| Ack.RecordsCover | src/protocol/ack.rs:16-48 | the records a range is cut into name exactly its numbers |
| Ack.RangeRoundTrip | src/protocol/ack.rs:52-73 | one range record is read back |
| Ack.PayloadRoundTrip | src/protocol/ack.rs:80-126 | a payload of up to 8192 records is read back as its records, which name the same numbers |
| Ack.PutPayload | src/protocol/ack.rs:95-111 | the in-place encoder writes the whole payload, or writes nothing when there are more than 8192 records |
| Ack.TakePayload | src/protocol/ack.rs:113-126 | the in-place decoder gives the result of the decoding function |
| Datagrams.EncodeDatagram | src/protocol/datagram.rs:70-97 | a datagram encodes to exactly its announced size |
| Datagrams.FramesRoundTrip | src/protocol/datagram.rs:99-137 | the frames of a datagram are read back, or the datagram is refused because one of them is not acceptable |
| Datagrams.DataRoundTrip | src/protocol/datagram.rs:81-137 | a data datagram is read back unchanged if and only if all its frames are acceptable, and refused otherwise |
| Datagrams.ControlRoundTrip | src/protocol/datagram.rs:81-180 | an acknowledgement or loss report is read back naming the same numbers |
| Datagrams.PutDatagram | src/protocol/datagram.rs:81-97 | the in-place encoder appends exactly the encoding when there is no fault |
| Datagrams.TakeFrames | src/protocol/datagram.rs:126-129 | the frame loop gives the result of the decoding function |
| Datagrams.TakeDatagram | src/protocol/datagram.rs:99-165 | the in-place decoder gives the result of the decoding function, for all flag bytes |
| AckQueues.PushSingle | src/session/ack_queue.rs:19-44 | pushing one number never makes the queue name any other number, adds it unless the queue is full, and forgets nothing unless the last range already goes all the way round |
| AckQueues.MergeIff | src/session/ack_queue.rs:24-35 | ranges that touch or pass the circular overlap tests merge into exactly their union if and only if they name at most a lap together, or both go all the way round and touch |
| AckQueues.PushRange | src/session/ack_queue.rs:19-44 | at any filling of the queue, pushing a range of at most half a lap adds exactly what of it finds room, through merging and wrap splitting, unless it meets the last range and they name more than a lap |
| AckQueues.PushIff | src/session/ack_queue.rs:19-44 | with room, numbers of the last range or a new one of at most half a lap are lost if and only if the two meet and name more than a lap; the other ranges stay |
| AckQueues.EnteredWhole | src/session/ack_queue.rs:19-44 | with room all of a range gets in |
| AckQueues.PushDrops | src/session/ack_queue.rs:19-44 | a range is dropped exactly when the queue is full; with one slot left its part past the end of the space is dropped exactly if neither it nor its left piece meets the last range |
| AckQueues.PushForgets | src/session/ack_queue.rs:24-27 | an input for which a merge past a lap forgets numbers |
| AckQueues.DrainedFits | src/session/ack_queue.rs:50-83 | what is drained fits the MTU unless it is a single range, which takes at most 17 bytes |
| AckQueues.AckQueue.constructor | src/session/ack_queue.rs:12-17 | a new queue is empty |
| AckQueues.AckQueue.Add | src/session/ack_queue.rs:19-44 | the recursive push in place is the push function |
| AckQueues.AckQueue.PopForMtu | src/session/ack_queue.rs:50-83 | takes the longest prefix that fits and leaves the rest in order |
| Reorder.OtherChannels | src/session/ordering_channels.rs:123-129 | a frame leaves every channel but its own as it was |
| Reorder.Drained | src/session/ordering_channels.rs:56-92 | the expected frame releases itself and the longest gap-free run of pending frames behind it, and exactly the rest stays pending |
| Reorder.OrderedKeepsOk | src/session/ordering_channels.rs:56-92 | pending numbers stay 1 to the gap limit ahead of the expected one and within the buffer limit |
| Reorder.AnyArrivalOrder | src/session/ordering_channels.rs:56-92 | in any arrival order with repeats and other traffic, a stretch of consecutive numbers is released up to its first missing frame, once each and in order, through the wrap |
| Reorder.WholeStretch | src/session/ordering_channels.rs:56-92 | once all frames of the stretch have arrived, exactly the stretch has been released |
| Reorder.SequencedRising | src/session/ordering_channels.rs:94-112 | whatever the arrival order and the repeats, the sequenced frames accepted on a channel have strictly rising unbounded numbers, through the wrap, if none arrives a lap less the gap limit late |
| Reorder.OrderingChannels.constructor | src/session/ordering_channels.rs:42-54 | all channels start fresh, with limits of at least one |
| Reorder.OrderingChannels.Drain | src/session/ordering_channels.rs:64-76 | the drain loop releases the gap-free run and moves the channel past it |
| Reorder.OrderingChannels.HandleOrderedFrame | src/session/ordering_channels.rs:56-92 | the method is the ordering function and keeps the limits |
| Reorder.OrderingChannels.HandleSequencedFrame | src/session/ordering_channels.rs:94-112 | a sequenced frame is accepted exactly when it is newer within the gap limit |
| Splits.AddKeepsOk | src/session/split_assembler.rs:44-132 | every stored entry counts its filled slots exactly and misses at least one, and entries stay within their limit |
| Splits.PruneKeepsOk | src/session/split_assembler.rs:134-145 | pruning keeps the same |
| Splits.AnyOrderReassembles | src/session/split_assembler.rs:44-132 | parts fed in any order with repeats and other traffic within the time-to-live give nothing until the last distinct part, then exactly the payload, and leave nothing behind |
| Splits.SplitAssembler.constructor | src/session/split_assembler.rs:29-42 | limits of at least one, and a zero time-to-live means thirty seconds |
| Splits.SplitAssembler.PruneExpired | src/session/split_assembler.rs:134-145 | drops exactly the expired entries and counts them |
| Splits.SplitAssembler.Merge | src/session/split_assembler.rs:108-112 | joins all parts in order, or reports a missing one |
| Splits.SplitAssembler.AddFrame | src/session/split_assembler.rs:44-132 | the method is the assembling function, with all its error cases, and keeps the invariant |
| Tracking.RunExactIff | src/session/reliable_tracker.rs:21-68 | over every run from a fresh tracker the filter is exact on the numbers ahead at all moments if and only if every taking of the base finds no later number missing |
| Tracking.ExactIff | src/session/reliable_tracker.rs:21-27 | taking the base keeps an exact filter exact if and only if no later number is missing |
| Tracking.RunFaithful | src/session/reliable_tracker.rs:21-68 | until a gap is taken the bitmap is the history and the base is the first number missing |
| Tracking.BehindUnseen | src/session/reliable_tracker.rs:29-61 | in every run a number behind the base is answered unseen and changes nothing |
| Tracking.BothWaysIff | src/session/reliable_tracker.rs:21-68 | over every run duplicates are told from new numbers both ahead and behind if and only if the base is never taken |
| Tracking.RepeatedFramePasses | src/session/reliable_tracker.rs:21-61 | frame 0 that arrives twice is not taken for a duplicate |
| Tracking.FreshFrameTakenForDuplicate | src/session/reliable_tracker.rs:21-68 | after frames 2 and 0, frame 3 counts as seen and frame 2 does not |
| Tracking.ReliableTracker.AdvanceBase | src/session/reliable_tracker.rs:63-68 | the loop drops the leading seen entries |
| Tracking.ReliableTracker.Mark | src/session/reliable_tracker.rs:21-44 | the method is the marking function |
| Tracking.ReliableTracker.IsSeen | src/session/reliable_tracker.rs:46-61 | the query is the lookup function |
| Receive.ChunksConsecutive | src/session/mod.rs:476-502 | the pieces reported for a jump are consecutive, disjoint and at most 8192 long |
| Receive.ConsecutiveNames | src/session/mod.rs:476-502 | consecutive pieces name each number of the stretch in exactly one piece and no other number |
| Receive.JumpNames | src/session/mod.rs:447-512 | a jump is at most half a lap, and the loss ranges of a received number are disjoint pieces that name exactly the skipped numbers |
| Receive.JumpReports | src/session/mod.rs:447-512 | the loss queue afterwards names exactly what it named before and what of the skipped numbers finds room, with room exactly those, while no more than a lap is merged |
| Receive.ArrivalSettles | src/session/mod.rs:447-512 | one received number never moves the read counter back, and the ranges it pushes and the number itself settle every number it passes |
| Receive.RunAccounted | src/session/mod.rs:447-512 | over any run of received numbers and drains, every number below the read counter was taken in its turn or is named by exactly one loss range, never both, and no other number is; those ranges are exactly what the steps push onto the loss queue |
| Receive.RunReports | src/session/mod.rs:447-654 | in every run in which no more than a lap is merged, the loss reports sent and the queue together name exactly what found room, only skipped numbers, and all of them if every arrival finds room |
| Congestion.RunStaysInRange | src/session/mod.rs:1431-1508 | in every run the smoothed time stays within the samples, its variation within the bound of section 2 of RFC 6298, and timeout and window in their ranges |
| Congestion.CutsApart | src/session/mod.rs:1491-1498 | two window cuts caused by loss reports are at least one cooldown apart |
| Congestion.AckWidens | src/session/mod.rs:1464-1482 | an acknowledgement widens the window by a thousandth at least until it is at its maximum, and changes nothing else |
| Congestion.TimeoutNarrows | src/session/mod.rs:1484-1489 | a timeout narrows the window unless it is at its minimum and doubles the retransmission timeout up to its maximum |
| Congestion.NackNarrows | src/session/mod.rs:1491-1508 | a reported loss narrows the window if and only if the cooldown is over and the window is above its minimum |
| Pacing.RefreshEarns | src/session/mod.rs:1346-1380 | a refresh adds at most the elapsed time at the maximum rate |
| Ticks.EmitsSize | src/session/mod.rs:1006-1018 | the new datagrams of a tick hold together no more than their byte budget, besides a header each |
| Ticks.TickPaced | src/session/mod.rs:952-1023 | a tick sends at most what the budget holds and earns, a header for each new datagram and the bypass allowance, and pays for it |
| Ticks.PacedTotal | src/session/mod.rs:952-1023 | over any run of ticks with anything else between them, all data bytes sent are at most initial budget, maximum rate times elapsed time, four bytes for each new datagram, and one datagram's worth for each tick that went past the budget for an immediate frame |
| Outboxes.LaterLighterIff | src/session/mod.rs:1222-1240 | of two frames of one level queued one after the other the later is lighter if and only if the earlier found an empty heap and an old weight above twice its level's share |
| Outboxes.LaterFrameLighter | src/session/mod.rs:1222-1240 | after two frames of normal priority have come and gone, of the next two the later is lighter |
| Outboxes.ChunksCover | src/session/mod.rs:1081-1131 | the parts of a split payload cover it in order, none is empty or too long, and their number is the rounded-up quotient |
| Outboxes.EstimateExact | src/session/mod.rs:1251-1271 | the estimate has the exact number of frames, never too few bytes, and the exact bytes if and only if every piece is below 8192 bytes |
| Outboxes.LongPieceMiscounted | src/session/mod.rs:1251-1271 | a payload of 9000 bytes at an MTU of 20000 is estimated 8192 bytes too high |
| Outboxes.PushFramesOk | src/session/mod.rs:1202-1220 | queueing keeps the byte count equal to the summed size of the heap |
| Outboxes.TakePickedOk | src/session/mod.rs:911-915 | so does taking frames out |
| Outboxes.AllowedStaysWithin | src/session/mod.rs:714-774 | an accepted payload leaves the queue within both soft limits |
| Outboxes.BackpressureRules | src/session/mod.rs:1273-1316 | accepted exactly within all limits; dropped only over a hard limit in shedding mode and never when reliable and of high priority; disconnect exactly over a hard limit in disconnect mode |
| Flights.TrackKeepsReceipts | src/session/mod.rs:656-702 | tracking a datagram keeps every receipt counter equal to the number of tracked datagrams that list it |
| Flights.AcknowledgeReports | src/session/mod.rs:779-801 | an acknowledgement keeps the counters exact and reports a receipt exactly when it removes the last datagram that lists it |
| Flights.TouchKeepsReceipts | src/session/mod.rs:807-880 | rescheduling and resending keep the counters exact |
| Conservation.QueueGain | src/session/mod.rs:656-774 | queueing a payload adds to the heap exactly one entry for each frame built for it, and nothing if it is not let in |
| Conservation.AcceptedGrows | src/session/mod.rs:656-774 | what counts as accepted is the entries of that payload's frames and nothing else |
| Conservation.StepConserves | src/session/mod.rs:656-950 | acceptance, acknowledgement, resending and timeouts conserve frames, and building a datagram does so if and only if its number carries no tracked frames |
| Conservation.ReuseLosesFrames | src/session/mod.rs:936-947 | a conserved state whose next number is still tracked: the next datagram loses the frame tracked under it |
| Conservation.RunKeepsInv | src/session/mod.rs:656-950 | at every moment of every run that reuses no tracked number, frames are conserved, receipt counters exact, the queue within its soft limits, timeout and window in range |
| Conservation.ExactlyOnePlace | src/session/mod.rs:656-950 | a reliable frame queued once is in exactly one of heap, one tracked datagram, acknowledged frames |
| Conservation.CopiesOverRun | src/session/mod.rs:656-950 | in runs of any length, as many copies of each reliable frame as were accepted are in the heap, in tracked datagrams and acknowledged together |
| Conservation.ConservedOverRun | src/session/mod.rs:656-950 | the same for every accepted reliable frame at every moment of every run below 2^24 reliable frames |
| Conservation.StepNumbered | src/session/mod.rs:1157-1161 | below 2^24 reliable frames no two queued frames are alike |
| Conservation.ReceiptSettled | src/session/mod.rs:779-801 | when no tracked datagram lists a receipt and no queued frame carries it, all its frames have been acknowledged |
| Conservation.SampleUnambiguous | src/session/mod.rs:784-787 | a round-trip sample is taken exactly from datagrams transmitted once, from that transmission (section 3 of RFC 6298) |
| Conservation.LossMeansResend | src/session/mod.rs:776-828 | a reliable datagram named by a loss report and not acknowledged meanwhile is due for sending at once |
| Conservation.StepIsCcRun | src/session/mod.rs:776-884 | nothing but acknowledgements with their samples, reported losses and timeouts moves the controller |
| Conservation.ControllerOverRun | src/session/mod.rs:1431-1508 | the controller bounds and the spacing of cuts over every run of a session |
| Emission.PartsFit | src/session/mod.rs:1081-1155 | each part of a split payload fits a datagram of its own |
| Emission.FramesClean | src/session/mod.rs:1049-1131 | all frames built for a nonempty payload in pieces below 8192 bytes and at most 8192 parts encode and are accepted by the decoder |
| Emission.ReadOrRefused | src/protocol/datagram.rs:81-137 | for payloads of any size, a datagram that was sent and encodes is read back unchanged or refused, never altered |
| Emission.StepFollows | src/session/mod.rs:656-950 | what waits was built, what is tracked was sent, and the n-th new datagram has number n, over every step |
| Emission.ProcessKeeps | src/session/mod.rs:776-828 | working off acknowledgements forgets only datagrams whose numbers were acknowledged and touches nothing else |
| Emission.SentRoundTrip | src/session/mod.rs:886-950 | every data datagram sent encodes without error to its announced size, within the MTU in force if new, and is read back unchanged |
| Emission.DrainedRoundTrip | src/session/mod.rs:618-654 | for every MTU a drained acknowledgement or loss report fits it or is a single range in 17 bytes, encodes if and only if it has at most 8192 records, and is then read back naming the same numbers |
| Delivery.RunNumbers | src/session/ordering_channels.rs:64-76 | the numbers released by one drain do not wrap, since every held-back frame is numbered below the length of the sender's log |
| Delivery.AddTrue | src/session/split_assembler.rs:44-132 | fed with the sender's frames, the assembler only ever hands up whole messages of the sender |
| Delivery.FramesTrue | src/session/mod.rs:549-616 | the frames of a datagram release, on every channel, the next piece of what was queued on it, also when an error cuts the datagram short |
| Link.OrderingNumber | src/session/mod.rs:1163-1180 | the ordering number taken for a payload is its position among the payloads queued on the channel |
| Link.SplitParts | src/session/mod.rs:1081-1131 | the frames of a split payload are the parts of one message and joined they are the payload |
| Link.SequencedHoldsUp | src/session/ordering_channels.rs:56-112 | a sequenced payload takes an ordering number that the receiver does not move past, so the ordered payload behind it waits |
| Link.SplitThenReassemble | src/session/mod.rs:1081-1138 | splitting and then feeding the parts in any order returns nothing until the last distinct part, then exactly the payload with its class and number |
| Link.MoveKeeps | src/session/mod.rs:447-950 | every move of sender, network and receiver keeps the joint invariant |
| Link.OrderedDelivery | src/session/mod.rs:549-616 | in every run the ordered payloads released on a channel are a prefix of those queued on it; the caller gets exactly those while no datagram ends in an error, and afterwards still in order, without repeats and with the queued contents |
| Link.NoFalseAcknowledgement | src/session/mod.rs:776-805 | in every run shorter than one lap, a tracked datagram is forgotten only if the receiver took in that very datagram |
| Link.EveryDatagramArrivesWhole | src/session/mod.rs:886-950 | in every run whose payloads are nonempty, in pieces below 8192 bytes and of at most 8192 parts, every data datagram put on the wire encodes to its announced size, within the MTU if new, and is read back unchanged |
| Sessions.Session.constructor | src/session/mod.rs:226-334 | a fresh session: nothing queued or tracked, counters at zero, controller in range, budget full or empty |
| Sessions.Session.ChunkEnd | src/session/mod.rs:480-486 | the inner walk stops at the end of the gap or after 8192 numbers |
| Sessions.Session.ProcessDatagramSequence | src/session/mod.rs:447-512 | the method is the receiving step for a datagram number |
| Sessions.Session.HandleAllFrames | src/session/mod.rs:549-616 | the frame loop is the receiving step for frames; an error hands up nothing |
| Sessions.Session.IngestDatagram | src/session/mod.rs:514-547 | the method is the receiving step for a datagram of each kind |
| Sessions.Session.DrainAckDatagram | src/session/mod.rs:618-635 | the method drains acknowledgements as the function says |
| Sessions.Session.DrainNackDatagram | src/session/mod.rs:637-654 | the method drains loss reports as the function says |
| Sessions.Session.TakeWeight | src/session/mod.rs:1222-1240 | the weight of a queued frame and the new weight table |
| Sessions.Session.EnqueueSingleFrame | src/session/mod.rs:1049-1079 | numbers and queues one frame and reports its reliable bytes |
| Sessions.Session.EnqueueSplitFrames | src/session/mod.rs:1081-1131 | numbers and queues all parts and reports their reliable bytes |
| Sessions.Session.QueuePayloadWithReceipt | src/session/mod.rs:714-774 | the method is the queueing step, with drop, defer and disconnect |
| Sessions.Session.ProcessIncomingReceipts | src/session/mod.rs:776-828 | the walking loops are the step that works off acknowledgements and loss reports |
| Sessions.Session.CollectResendable | src/session/mod.rs:830-884 | whenever the comparison orders the table, selects due datagrams in number order within both limits, passing none over for a later one, and marks exactly those as sent again |
| Sessions.Session.PopNextFrame | src/session/mod.rs:1402-1429 | takes a lightest queued frame that fits and leaves all others, none if and only if none fits |
| Sessions.Session.TrackSent | src/session/mod.rs:656-702 | tracks the datagram and counts its receipts |
| Sessions.Session.BuildDataDatagram | src/session/mod.rs:886-950 | one step of the sending machine and its datagram, filled with the lightest fitting frames one by one until none fits, or no change because nothing queued fits |
| Sessions.Session.NewBytesBudget | src/session/mod.rs:989-1004 | what the budget affords, or one datagram's worth past it if and only if an immediate frame waits and the budget is too small for every frame |
| Sessions.Session.OnTick | src/session/mod.rs:952-1047 | a tick is exactly the steps of a tick of the sending machine and a flush of the receiving half, and its data bytes respect the pacing budget |
| Relay.StepInv | src/proxy.rs:965-1045 | every atomic step of either task keeps counters exact, each direction within its limits and everything granted within one payload of the total |
| Relay.BudgetKept | src/proxy.rs:965-1045 | under every interleaving each direction stays within its packet and byte limit, the total within one payload of its limit, and counters equal the outstanding reservations |
| Relay.TotalKeptIff | src/proxy.rs:965-1045 | with payloads of at most a given size, the total limit is kept in every interleaving if and only if what the two directions can hold in such payloads is together within it |
| Relay.TotalKeptAlwaysIff | src/proxy.rs:965-1045 | with payloads of any size, if and only if the two byte limits are together within it |
| Relay.DefaultsKeepTotal | src/proxy.rs:199-215 | the default limits keep the total in every interleaving |
| Relay.TotalBroken | src/proxy.rs:965-1018 | otherwise filling both channels and then racing exceeds it |
| Relay.TotalExceeded | src/proxy.rs:989-1015 | an interleaving in which the total limit is exceeded by a whole payload |
| Relay.CallAlone | src/proxy.rs:965-1018 | run alone, a call grants a payload exactly when the counters have room for it |
| Relay.Budget.TryReserve | src/proxy.rs:965-1018 | grants exactly within all three limits and counts the payload, or changes nothing |
| Relay.Budget.Release | src/proxy.rs:1021-1045 | gives back one packet and its bytes, stopping at zero |
| Relay.ReserveRelease | src/proxy.rs:1021-1045 | releasing undoes reserving |
| TokenBuckets.Normalize | src/transport/rate_limiter.rs:604-617 | an enabled configuration has no zero left in it |
| TokenBuckets.IdleFills | src/transport/rate_limiter.rs:85-95 | a bucket idle past the limit is full again if it can fill within the limit |
| TokenBuckets.EvictionInvisible | src/transport/rate_limiter.rs:132-188 | if an idle bucket fills within the idle limit, every run takes the same decisions as without eviction |
| TokenBuckets.EvictionHidden | src/transport/rate_limiter.rs:132-188 | if the total catches up with an idle bucket, every run takes the same decisions as without eviction, though buckets differ |
| TokenBuckets.SmallTotalHides | src/transport/rate_limiter.rs:143-188 | a total no larger and no faster than an address catches up |
| TokenBuckets.EvictionVisible | src/transport/rate_limiter.rs:132-188 | if neither holds, some run takes a different decision |
| TokenBuckets.EvictionIff | src/transport/rate_limiter.rs:132-188 | eviction never changes a decision in any run if and only if an idle bucket fills within the idle limit or the total catches up with it |
| TokenBuckets.ConsumedBounded | src/transport/rate_limiter.rs:143-188 | in every run the units consumed are at most total burst and total rate times the time passed |
| TokenBuckets.ProcessingBudget.constructor | src/transport/rate_limiter.rs:114-122 | the total bucket starts full and there are no others |
| TokenBuckets.ProcessingBudget.OnTick | src/transport/rate_limiter.rs:132-141 | drops exactly the buckets idle past the limit |
| TokenBuckets.ProcessingBudget.Use | src/transport/rate_limiter.rs:143-188 | the method is the consuming function and counts the units |
| OpenConnection.AddrRoundTrip | src/protocol/primitives.rs:88-147 | a socket address of either family is read back |
| OpenConnection.CandidateIff | src/handshake/open_connection.rs:153-188 | exactly which byte strings each layout accepts, strict or lax |
| OpenConnection.OneLayout | src/handshake/open_connection.rs:92-128 | no byte string fits both layouts |
| OpenConnection.Ways | src/handshake/open_connection.rs:92-199 | which path every body takes: strict without or with a cookie, legacy exactly for a cookie layout with proof byte above one and no address version first, refused otherwise, never ambiguous |
| OpenConnection.Request2RoundTrip | src/handshake/mod.rs:165-175 | an encoded request is read back along the strict path of its layout, unchanged if and only if it claims no proof without a cookie |
| OpenConnection.PutAddr | src/protocol/primitives.rs:89-110 | the in-place encoder appends exactly the encoding |
| OpenConnection.TakeAddr | src/protocol/primitives.rs:112-147 | the in-place decoder gives the result of the decoding function |
| OpenConnection.PutRequest2 | src/handshake/mod.rs:125-175 | appends the packet, or refuses the MTU with only the packet id written |
| OpenConnection.TakeCandidate | src/handshake/open_connection.rs:153-188 | the slice-consuming parser gives the result of the parsing function |
| ServerTables.StepInv | src/transport/server.rs:705-906 | every event keeps the tables consistent |
| ServerTables.TablesConsistent | src/transport/server.rs:1361-1697 | in every run pending and pipeline addresses have sessions, a session with no pending entry is connected, each handshake stage has the session states it implies, and sessions never exceed the limit |
| ServerTables.OnlyByHandshake | src/transport/server.rs:1734-1788 | in every run a session past Request2 is owed to a Request2 since its Request1 whose cookie verified under the keys of that moment, and a connected one also to a ConnectionRequest and then a NewIncomingConnection |
| ServerTables.FramesKeep | src/transport/server.rs:765-815 | frames that do not end a session keep it in the states its handshake stage allows |
| ServerTables.Server.ApplyTransitions | src/transport/server.rs:1828-1835 | takes transitions in turn until one is not allowed |
| ServerTables.Server.CloseSession | src/transport/server.rs:2029-2041 | removes the address from all three tables |
| ServerTables.Server.DisconnectPeer | src/transport/server.rs:1010-1018 | closes a known address and says whether there was one |
| ServerTables.Server.HandleRequest1 | src/transport/server.rs:1378-1480 | the method is the Request1 step and keeps the tables consistent |
| ServerTables.Server.HandleRequest2 | src/transport/server.rs:1481-1692 | the method is the Request2 step and keeps the tables consistent |
| ServerTables.Server.GoThrough | src/transport/server.rs:765-815 | the frame loop stops at the first frame that ends the session or does not decode |
| ServerTables.Server.HandleDatagram | src/transport/server.rs:705-906 | the method is the datagram step, with its early returns, and keeps the tables consistent |
| ServerTables.Server.PruneExpired | src/transport/server.rs:1852-1884 | closes exactly the addresses whose handshake has run out of time |
| ServerTables.Server.RotateKeys | src/transport/server.rs:2203-2216 | the current key becomes the previous one |

## Left out

- Sockets, tasks, channels and shard binding: input and output plumbing around the steps modelled here.
- Metrics, events, telemetry and logging: field copies and sums.
- Configuration validation: its results are taken as preconditions or as subset types.
- HMAC and key generation: the cookie is an arbitrary function of address and key, so nothing is said about guessing it.
- The other offline and connected control packets: fixed layouts whose round trips would only add easy members.
- Window counting and address blocking in the rate limiter: their decisions are inputs of the server events.
- Handshake heuristics and the cookie mismatch guard: they only feed the block list.
- Negotiated MTU and client identifier in the handshake tables: they do not affect which sessions exist or in which state.
- Relay contract, retry backoff and MTU probing in the proxy and the client: each is settled by reading one branch.
- Liveness of delivery beyond `AnyArrivalOrder`: that the network and the resending sender bring every frame is not treated.
- Zeroizing of dropped payloads: effects on memory that the model does not have.
- Sessions.Session.OnTick: returns control and data datagrams as two lists, where the original returns one list with the control datagrams first.
- Sessions.Session.CollectResendable: requires the number comparison to order the table, as OrderedIff says exactly when, because the original's ordered table has no defined order otherwise.
- Link.OrderedDelivery: covers fewer than 2^24 ordering numbers on each channel and at most 2^16 split payloads, and payloads of fewer than 2^32 parts.
- Receive.JumpReports: asks that a jump and the last loss range name at most a lap; PushIff says what happens past that.
- Receive.RunReports: asks the same of every arrival.
- Conservation.ConservedOverRun: covers fewer than 2^24 reliable frames, because frames with the same number and contents cannot be told apart; CopiesOverRun has no bound.
