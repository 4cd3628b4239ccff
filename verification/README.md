# ENet's protocol core, verified

This project models the core of ENet-CSharp, `Source/Native/enet.h`, and proves what it promises.

* **Reliable channels.** `Windows`, `ReliableSender`, `ReliableReceiver` and `ReliableChannel` give the
  sender, the receiver and a network between them that loses, repeats and reorders, as a step system in
  which true sequence numbers are history variables and the parties only see 16-bit ones.
  `ReceiverProofs`, `ReceiverInvariant`, `ReliableReach` and `ReliableDelivery` prove that what is
  delivered is a prefix of what was sent, that only what is held is acknowledged, and that what is held and
  unacknowledged is acknowledged again. `ReliableRuns` has the converse, a run that gets every packet through
  that can be, and `ReliableMistaken` the exact limit of these laws. `SendingPeer` and `ReceivingChannel` are
  the loops themselves, on mutable state, proved against those specifications; `SenderRefinement` shows that
  their runs are runs of the step system. `Fragmentation` takes the result from messages to the bytes of
  packets.
* **Unreliable channels.** `IntrusiveList` is the circular list with its relinking operations,
  `UnreliableQueue` says what one dispatch pass does, and `UnreliableDispatch` is the pass with its three
  iterators, in place on two such lists. `UnreliableChannel`, `UnreliableOrder` and `UnreliableArrival` are
  the channel end to end: the order in which packets are handed over, and that they are. `UnreliableMisled` and
  `UnreliableTurns` say exactly when it fails. `Unsequenced` is the window of unsequenced groups.
* **The buffer pool.** `BufferPool` has one step for every access to shared memory, for any number of
  threads; `PoolSafety` proves exclusive ownership and that the counters add up, `PoolOperations` what each
  operation of a thread comes to among the steps of the others, and `PoolCounters` what the totals count.
* **Datagrams and the send loop.** `Commands`, `States`, `Framing`, `WireFormat`, `DatagramBytes` and
  `SendLoop`: sizes, bytes, what the passes do, and that they end. `Lists` has what several modules say of
  their lists.
* **The host's books.** `Bandwidth`, `PeerStates`, `PacketReferences` and `PacketHolders`.

## What the code does not do

Some properties one would expect do not hold of the code. For each it is proved when, and shown by an input.

* A sequenced unreliable packet can be delivered twice, or after one that was sent later. The search for an
  arrival's place (enet.h:4275-4300) means to skip waiting unsequenced commands, but looks at the kind of the
  arriving command instead of the waiting one, so that a waiting unsequenced command counts as number zero.
  `UnreliableMisled.HandedAfterIff` says, for every state with the invariant, every complete packet that waits
  and every whole one that arrives, exactly when the next arrival and advance do it; copies that come in
  fragments have no exact condition. `CopyIsHandedOverToo` is a run of six steps;
  `InsertSortsIff` says exactly when one search puts an arrival in a wrong place; and
  `DeliveredInSendingOrder` holds for all runs in which none does.
* A sequenced unreliable packet can be delivered under a reliable position it was not sent under. Reliable
  numbers are given out when a command is queued, however many wait (enet.h:4053); unreliable commands pass
  the ones that wait (enet.h:3259-3281); and the receiver sees numbers modulo 65536 (enet.h:4230-4240). An
  arrival is placed under its own position if and only if it was sent less than 65536 numbers ahead of the
  receiver (`UnreliableTurns.SeenWhereItIsIff`, `ArrivalHandsUnderOwnIff`); `FarIsHandedOverAtOnce` is a run.
* An unsequenced command can stay behind in the unreliable list: `UnreliableQueue.UnsequencedGoesIff` says
  exactly when, and `UnreliableMisled.CompleteCurrentPacketIsHeldBack` has one that does.
* A fragmented unreliable packet can be given up though nothing has overtaken it:
  `UnreliableQueue.IncompleteFreedIff` says exactly when, and `UnreliableChannel.FirstOfThreeIsLostInRun` is a
  run.
* A reliable packet of 32768 fragments or more, which `enet_peer_send` accepts if the host's limit on packet
  sizes does, is never delivered and blocks its channel: `ReliableDelivery.TooLongIsNeverDelivered`.
  `ReliableRuns.DeliverableIff` says exactly which packets some run delivers; `TooLongIsAccepted` submits one
  that none does.
* A reliable packet can be delivered with bytes of another, though no data command comes later than what the
  sender itself may repeat. Of a packet of more than 12289 fragments one may be unacknowledged while the
  packet is delivered and its first number is ten windows behind. The repetition of that fragment is then taken for one of a
  packet ahead, and fills part of it in advance (enet.h:2507-2555). `ReliableMistaken.MistakenIff` says for
  which numbers of fragments this can be, `WrongBytes` is a run from the start to the wrong byte, and
  `PrefixFailsIff` says that 12289 is exactly the greatest number of fragments up to which what is delivered
  is always a prefix of what was sent.

## Assumptions

* No reliable data command arrives more than six windows of 4096 numbers behind the receiver, or nine counted
  from the first command of its packet; what the sender itself may repeat never does. No unreliable one
  arrives more than 36864 numbers behind, but any number ahead. No acknowledgement is 65536 or more behind the
  newest number sent; no unsequenced packet is more than 32768 groups behind the window, or 65536 ahead.
* The laws of the reliable channel are for runs whose packets have at most 12289 fragments, or in which no
  data command arrives whose packet begins ten windows back (`Undisturbed`); those of the unreliable one for
  runs in which each packet is sent less than 65536 reliable numbers ahead of the receiver (`SentInTurn`).
  Both are exact, as said above.
* Where the throttle drops a run of commands by their two numbers, all of them carry packets
  (`Separable`, `ControlApart` and `NumbersFree`).
* The products of the bandwidth throttle fit 32 bits, and no peer is settled at the current time already.
* The first loss a peer has noted, and the times its commands were sent, lie less than a day back
  (`AllPast`), as the comparison of times modulo 32 bits supposes.
* Allocation succeeds. Every atomic operation is one step, sequentially consistent.

## Model

| member | source | states |
|---|---|---|
| Windows.AheadIsDistance | Source/Native/enet.h:4230-4240 | the window the receiver computes for a 16-bit number, relative to its own, is the true distance in windows for every number less than a full turn ahead |
| Windows.BehindIsComplement | Source/Native/enet.h:4230-4240 | a number behind the position shows up as the complement of its distance, which decides what late arrivals look like |
| Windows.NoAlias | Source/Native/enet.h:4009-4036 | two true numbers less than 65536 apart never share a 16-bit number |
| Windows.CompareAround | Source/Native/enet.h:4248-4264 | comparing 16-bit numbers around the position orders the true numbers |
| Windows.EntryMaskExpression | Source/Native/enet.h:3266-3266 | the shift expression of the sender's mask, on 32-bit words, tests exactly the bits the model tests |
| Windows.EntryMaskIsTenWindows | Source/Native/enet.h:3266-3266 | the mask leaves out exactly the six windows before the one to be entered |
| Commands.FragmentLimit | Source/Native/enet.h:3661-3664 | a datagram always has room for a byte of data at least |
| ReliableSender.EnqueueKeeps | Source/Native/enet.h:4038-4093 | queueing a reliable packet command, on any channel, keeps the sender invariant and changes nothing outstanding |
| ReliableSender.EnqueueControlKeeps | Source/Native/enet.h:4048-4051 | so does queueing a control command |
| ReliableSender.EnqueueUnreliableKeeps | Source/Native/enet.h:4057-4067 | so does queueing an unreliable one |
| ReliableSender.SeventhWindowIsTested | Source/Native/enet.h:3266-3266 | when a new window is entered, the window that would fall out of reach is among those tested |
| ReliableSender.EnteringKeepsSpan | Source/Native/enet.h:3259-3272 | so everything outstanding stays within seven windows |
| ReliableSender.SendHeadKeeps | Source/Native/enet.h:3295-3314 | sending the head of the reliable queue keeps the invariant: window counters, bits, order and span; and adds just its number |
| ReliableSender.SendOtherKeeps | Source/Native/enet.h:3295-3353 | sending from the other queue keeps it too |
| ReliableSender.RequeueKeeps | Source/Native/enet.h:3191-3222 | taking timed-out commands back keeps it, and nothing outstanding is lost or added |
| ReliableSender.SearchReaches | Source/Native/enet.h:2195-2212 | stopping the queue search at the first command never sent misses no command that was sent |
| ReliableSender.SearchFindsOutstanding | Source/Native/enet.h:2214-2238 | whatever is outstanding is found, in flight or waiting to be sent again |
| ReliableSender.AcknowledgeFindsAwaited | Source/Native/enet.h:2195-2238 | an acknowledgement takes out one command exactly if one that was sent carries its number, and never one that was not sent |
| ReliableSender.AcknowledgeExact | Source/Native/enet.h:2214-2262 | an acknowledgement less than a full turn old removes exactly its command and its window count |
| ReliableSender.AcknowledgeElsewhere | Source/Native/enet.h:2240-2250 | an acknowledgement on another channel leaves a channel alone |
| ReliableSender.OutstandingDistinctOnWire | Source/Native/enet.h:3259-3298 | no two outstanding commands of a channel share a 16-bit number |
| SendingPeer.Peer.FlightIsBounded | Source/Native/enet.h:3274-3281 | the limit on reliable data in flight never exceeds 65536, and its product fits 32 bits; with it `Valid` keeps the data in flight at 65536 or less |
| SendingPeer.Peer.RoomIsExact | Source/Native/enet.h:3289-3293 | the room test with its 16-bit casts and unsigned subtractions is exact, and the command array fills before the buffer array |
| SendingPeer.Peer.constructor | Source/Native/enet.h:4542-4572 | a peer that begins to connect: empty queues, idle windows, the defaults of a reset |
| SendingPeer.Datagram.Emit | Source/Native/enet.h:3355-3371 | a command put into the datagram keeps it within the mtu, 32 commands and 65 buffers |
| SendingPeer.Datagram.Acknowledge | Source/Native/enet.h:3152-3175 | one acknowledgement in the datagram keeps it within the mtu and the arrays |
| SendingPeer.Peer.SendAcknowledgements | Source/Native/enet.h:3143-3182 | acknowledgements go in, in order, while there is room, into an empty datagram at least one; acknowledging a disconnect makes the peer a zombie |
| SendingPeer.Peer.QueueReliable | Source/Native/enet.h:4038-4093 | a packet command joins the queue as the specification says |
| SendingPeer.Peer.QueueControl | Source/Native/enet.h:4096-4113 | a control command joins the other queue |
| SendingPeer.Peer.Ping | Source/Native/enet.h:3929-3939 | a connected peer, and no other, gets a ping queued |
| SendingPeer.Peer.EndWait | Source/Native/enet.h:3377-3378 | a peer that waits to disconnect, with nothing queued or in flight, gives up its channels and queues just its disconnect; any other stays as it is |
| SendingPeer.Peer.DropRun | Source/Native/enet.h:3325-3343 | the throttle drops the whole run of commands with the same two numbers, up to the first that differs |
| SendingPeer.Peer.CheckOutgoing | Source/Native/enet.h:3227-3381 | the whole function: the turns of `Fill`, and the end of a wait exactly if the peer waits, nothing is left and no unreliable command waits to be released; a ping may follow exactly if no reliable command was put in and none was due |
| SendingPeer.Peer.Fill | Source/Native/enet.h:3242-3375 | the two-queue loop is a sequence of turns, each the one the program takes in its state (`Allowed`, `AfterTurn`), and stops only where nothing that is due fits; what it moves to the commands in flight is, in order and field by field, what is reliable among the commands it put into the datagram |
| SendingPeer.Peer.AdvanceQueue | Source/Native/enet.h:3259-3314 | a reliable command that is not held back and has room is put at the end of the datagram and goes to those in flight; otherwise nothing changes |
| SendingPeer.Peer.AdvanceOthers | Source/Native/enet.h:3316-3371 | the head of the other queue is put at the end of the datagram, or, if the throttle counter exceeds the throttle, its run is dropped; otherwise nothing changes |
| SendingPeer.FillsSent | Source/Native/enet.h:3295-3371 | over any number of turns, the commands that join those in flight are the reliable ones among those put into the datagram, in the same order and with the time, the timeout and one attempt more |
| SendingPeer.FillsLosesNothing | Source/Native/enet.h:3246-3371 | what leaves the queues is a prefix of each, and every command of it is in the datagram or was dropped by the throttle |
| SendingPeer.FillsReleases | Source/Native/enet.h:3355-3371 | what waits to be released is just what is unreliable in the datagram and carries a packet |
| SendingPeer.OpenThrottleDropsNothing | Source/Native/enet.h:3325-3343 | with the throttle fully open nothing is dropped |
| SendingPeer.Peer.CheckTimeouts | Source/Native/enet.h:3184-3225 | the timeout loop in terms of the sent times and the loss noted before: the time noted afterwards is the earliest, and the connection is given up at the first expired command, in list order, at which the maximum is met, or the minimum and the attempts, and at none if there is none; then the commands before it, or all, are put back, and the peer is reset or becomes a zombie |
| SendingPeer.EarliestIsOldest | Source/Native/enet.h:3198-3199 | the time noted is the loss longest ago, though times are compared modulo 32 bits |
| SendingPeer.RecentIsKept | Source/Native/enet.h:3198-3207 | with no loss noted before and every expired command sent less than both limits ago, the connection is kept |
| SendingPeer.OldIsGivenUp | Source/Native/enet.h:3198-3207 | with an expired command sent the maximum or more ago it is given up |
| SendingPeer.OftenSentIsGivenUp | Source/Native/enet.h:3201-3207 | so it is with one sent often enough, once a loss is the minimum ago |
| SendingPeer.Peer.SmoothRoundTrip | Source/Native/enet.h:2749-2776 | the smoothed round-trip time goes an eighth of the way to the measured one and stays at least 1; the variance goes a quarter of the way to the difference, or a thirty-second when the time falls by more than it |
| SendingPeer.Peer.FindIn | Source/Native/enet.h:2195-2212 | the search loop finds the first match before the first command never sent |
| SendingPeer.Peer.RemoveSent | Source/Native/enet.h:2214-2278 | the acknowledgement handling does what the specification says to all queues, windows and the data in flight, and tells the kind of command settled |
| SenderRefinement.PlaysAreSteps | Source/Native/enet.h:3227-3381 | whatever the sending loop does is a run of the end-to-end step system |
| SenderRefinement.TimeoutAndAckAreSteps | Source/Native/enet.h:3184-3225 | so are the timeout loop and the handling of acknowledgements |
| SenderRefinement.RunContinues | Source/Native/enet.h:3227-3381 | and such runs extend any run, so that the theorems cover the loops |
| ReliableReceiver.DispatchStops | Source/Native/enet.h:4185-4203 | dispatch takes a run off the head of the list and never passes an incomplete command |
| ReceiverProofs.ScanFinds | Source/Native/enet.h:4248-4264 | the search from the tail finds a command or its place in the order of the true numbers |
| ReceiverProofs.FillKeeps | Source/Native/enet.h:2553-2564 | filling in a fragment keeps the bytes already there, and the number missing equal to the clear marks |
| ReceiverProofs.CompleteIsBody | Source/Native/enet.h:2553-2564 | with none missing, the bytes are those of the packet |
| ReceiverProofs.FragmentWithinMaximum | Source/Native/enet.h:2499-2519 | no packet larger than the host's limit is stored or delivered |
| ReceiverInvariant.ScanFindsMessage | Source/Native/enet.h:2521-2542 | a fragment finds the packet it belongs to, or that packet's place |
| ReceiverInvariant.DispatchKeeps | Source/Native/enet.h:4185-4203 | dispatching delivers the next messages in order and forgets nothing it holds |
| ReceiverInvariant.LateIsRefused | Source/Native/enet.h:4230-4246 | a packet already delivered is never taken for a new one |
| ReceiverInvariant.AheadIsJudged | Source/Native/enet.h:4012-4022 | a packet too far ahead to be taken is not acknowledged either |
| ReceiverInvariant.PacketArrives | Source/Native/enet.h:2410-2426 | an accepted whole packet is held afterwards, or else was too far ahead, changed nothing and stays unacknowledged; with room, every packet that fits the limit is accepted |
| ReceiverInvariant.FragmentArrives | Source/Native/enet.h:2486-2567 | the same for a fragment, which is taken whenever there is room |
| ReceivingChannel.Channel.FindPlace | Source/Native/enet.h:4248-4264 | the search loop does what the specification says |
| ReceivingChannel.Channel.DispatchReady | Source/Native/enet.h:4185-4203 | so does the dispatch loop |
| ReceivingChannel.Channel.HandleSendReliable | Source/Native/enet.h:4217-4385 | so does the handling of a whole reliable packet, on all its paths |
| ReceivingChannel.Channel.HandleSendFragment | Source/Native/enet.h:2486-2567 | so does the handling of a fragment |
| ReliableReach.EntersAfterSome | Source/Native/enet.h:3266-3266 | the first number of a window is sent only when one of the window before has been acknowledged |
| ReliableDelivery.StepKeeps | Source/Native/enet.h:4217-4385 | every step of sender, network and receiver keeps the end-to-end invariant, a data command that begins its packet ten windows back excepted |
| ReliableDelivery.DeliveredIsPrefixOfSent | Source/Native/enet.h:4185-4215 | over every run with loss, repetition and reordering, what is delivered is a prefix of what was sent, byte for byte, across any number of 16-bit wraps, if no packet has more than 12289 fragments, or no data command arrives whose packet begins ten windows back; `PrefixFailsIff` shows that the bound is exact |
| ReliableDelivery.NothingOutstandingMeansAllDelivered | Source/Native/enet.h:2214-2238 | once the sender keeps nothing of a channel, everything sent on it has been delivered |
| ReliableDelivery.AcknowledgedIsHeld | Source/Native/enet.h:4009-4036 | only what is stored or delivered is acknowledged, and the sender forgets only that |
| ReliableDelivery.DeliveredIsReacknowledged | Source/Native/enet.h:4012-4022 | a repetition of something delivered but unacknowledged is always in time; of a packet of up to 12289 fragments it is acknowledged again and changes nothing else |
| ReliableDelivery.ArrivalIsHeldOrSilent | Source/Native/enet.h:4230-4240 | with room, an arrival is held afterwards or is too far ahead and changes nothing |
| ReliableDelivery.DeliveredIsTransmitted | Source/Native/enet.h:4185-4203 | the receiver is never ahead of what was transmitted |
| ReliableDelivery.TooLongIsNeverDelivered | Source/Native/enet.h:4012-4022 | a packet that reaches more than seven windows past the position at its turn is never delivered in any undisturbed run; `DeliverableIff` is the converse |
| ReliableDelivery.VeryLongIsTooLong | Source/Native/enet.h:3667-3674 | packets of 32768 fragments or more always do, though they are accepted |
| ReliableDelivery.WindowsAreExact | Source/Native/enet.h:3296-3299 | in every state of every run each window counter is the number outstanding in the window, each bit tells whether it is positive, all lies in seven windows, and the data counted as in transit is what the commands in flight carry |
| ReliableRuns.EntersNext | Source/Native/enet.h:3266-3266 | with one number outstanding in the six windows before, the next window is always entered |
| ReliableRuns.Flush | Source/Native/enet.h:4009-4036 | everything outstanding that the receiver does not pass over in silence can be repeated, acknowledged and settled |
| ReliableRuns.GoodIsDelivered | Source/Native/enet.h:3227-3381 | a run, step by step from the start, that submits any given packets of the kind below, and delivers them all; any one number may stay unacknowledged through the six windows after it |
| ReliableRuns.DeliverableIff | Source/Native/enet.h:4012-4022 | exactly which packets can be delivered: some run delivers all of them if and only if each is accepted, fits the limit, and reaches at most seven windows past the position at its turn |
| ReliableRuns.TooLongIsAccepted | Source/Native/enet.h:3667-3674 | a run that submits a packet of 32768 fragments or more: it is accepted, and too long |
| ReliableMistaken.MistakenIff | Source/Native/enet.h:2507-2551 | some run has delivered a packet of this many fragments, still waits for one of them to be acknowledged, and changes the receiver by repeating it, if and only if the fragments are more than 12289 and less than 32768 |
| ReliableMistaken.WrongBytes | Source/Native/enet.h:2521-2564 | a run in which the receiver makes room for a packet never sent, and the packet that later gets its number is delivered with the last byte of another |
| ReliableMistaken.PrefixFailsIff | Source/Native/enet.h:2507-2564 | with packets of at most so many fragments, what is delivered is a prefix of what was sent in every run in which the network is in time, if and only if the limit is 12289 or less |
| Fragmentation.CountIsCeiling | Source/Native/enet.h:3667-3667 | the number of fragments is the ceiling of the quotient |
| Fragmentation.Cut | Source/Native/enet.h:3686-3715 | the loop yields exactly the pieces at multiples of the limit, the last one shorter |
| Fragmentation.Send | Source/Native/enet.h:3652-3748 | which packets are refused, cut or sent whole, by which command, under which number and whether acknowledged: exactly one result for each input |
| Fragmentation.CutCovers | Source/Native/enet.h:3686-3715 | the pieces joined are the packet |
| Fragmentation.FragmentFits | Source/Native/enet.h:2518-2519 | each fragment passes the receiver's checks and goes where it belongs |
| Fragmentation.FragmentsMakeThePacket | Source/Native/enet.h:2553-2564 | fragments in any order with any repetitions complete exactly when all have come, with the packet's bytes |
| Fragmentation.PacketIsSendable | Source/Native/enet.h:3667-3674 | every packet that is not refused is a message of the channel |
| Fragmentation.DeliveredPacketsAreTheSentOnes | Source/Native/enet.h:3652-3748 | cut, transmitted and put together, the packets delivered are the first ones sent, in the same runs |
| IntrusiveList.List.Unlink | Source/Native/enet.h:1633-1638 | the first half of a move: a run leaves its list, which stays well linked |
| IntrusiveList.List.LinkIn | Source/Native/enet.h:1639-1643 | the second half: a linked run goes into a list before a position |
| IntrusiveList.List.Insert | Source/Native/enet.h:1616-1624 | insertion relinks the neighbours and adds just the node |
| IntrusiveList.List.Remove | Source/Native/enet.h:1626-1631 | removal takes out just the node |
| IntrusiveList.List.Move | Source/Native/enet.h:1633-1643 | a run moves from one list into another, and both stay well linked |
| UnreliableQueue.DispatchPartitions | Source/Native/enet.h:4115-4183 | every waiting command is delivered, kept or freed, exactly one of these, and the one just queued is not freed |
| UnreliableQueue.DispatchKeepsOrder | Source/Native/enet.h:4115-4183 | what is delivered and what is kept keep their order |
| UnreliableQueue.DispatchCuts | Source/Native/enet.h:4124-4168 | the dropped pointer in closed form: the pass keeps the last two incomplete commands and what follows |
| UnreliableQueue.DispatchMembers | Source/Native/enet.h:3792-3816 | exactly which commands are delivered, kept and freed |
| UnreliableQueue.UnsequencedGoesIff | Source/Native/enet.h:4121-4152 | an unsequenced command is delivered exactly if nothing before it waits for a later reliable position; otherwise it stays behind |
| UnreliableQueue.IncompleteFreedIff | Source/Native/enet.h:4124-4168 | an incomplete packet is given up exactly if something else follows it, or two incomplete ones do |
| UnreliableQueue.FirstOfThreeIsLost | Source/Native/enet.h:4124-4168 | an example: of three incomplete packets in a row the first is given up though nothing overtook it |
| UnreliableChannel.FirstOfThreeIsLostInRun | Source/Native/enet.h:4124-4168 | a run from the start in which that happens: all fragments of a packet arrive, nothing overtakes it, and it is never complete |
| UnreliableDispatch.Channel.Flush | Source/Native/enet.h:4131-4143 | the run between two iterators goes to the dispatched list |
| UnreliableDispatch.Channel.Settle | Source/Native/enet.h:4131-4143 | a pending run is handed over with every iterator still on its list |
| UnreliableDispatch.Channel.Skip | Source/Native/enet.h:4124-4167 | one turn for a command that stays |
| UnreliableDispatch.Channel.Pass | Source/Native/enet.h:4115-4180 | the three-iterator loop on the linked lists sorts the commands as specified and leaves the dropped pointer on a node of the list |
| UnreliableDispatch.Channel.RemoveIncoming | Source/Native/enet.h:3792-3816 | the removal loop frees all up to the pointer but the excluded command |
| UnreliableDispatch.Channel.DispatchUnreliable | Source/Native/enet.h:4115-4183 | the whole function, in place, does what the specification says, and no node is lost |
| UnreliableDispatch.Channel.FindPlace | Source/Native/enet.h:4275-4300 | the search for an arrival's place, backwards through the list |
| UnreliableDispatch.Channel.Queue | Source/Native/enet.h:4321-4365 | queueing an arrival and dispatching |
| UnreliableOrder.OvertakenIsRefused | Source/Native/enet.h:4145-4152 | what the position has overtaken is never taken as current or to come |
| UnreliableOrder.ScanFindsPlace | Source/Native/enet.h:4275-4300 | a well-placed arrival is put where it belongs in sending order |
| UnreliableOrder.PassKeeps | Source/Native/enet.h:4115-4183 | a dispatch pass keeps the invariant and delivers in sending order |
| UnreliableOrder.StepKeeps | Source/Native/enet.h:4217-4385 | every step with a well-placed arrival keeps it, and keeps what was sent less than a turn ahead of the receiver, if each packet is when it is sent |
| UnreliableOrder.DeliveredInSendingOrder | Source/Native/enet.h:4115-4183 | over every run of well-placed arrivals, with each packet sent less than 65536 reliable numbers ahead of the receiver, packets are delivered at most once, in sending order, each under the reliable position it was sent under |
| UnreliableOrder.SentNumbersAscend | Source/Native/enet.h:3676-3682 | the pairs of numbers a sender uses ascend, over every run: sending turns reliable before the unreliable number wraps |
| UnreliableArrival.ArrivalHandsOver | Source/Native/enet.h:4115-4183 | in every state of such runs, a well-placed arrival hands over just its own packet, and that exactly if the packet was sent under the receiver's position, is not overtaken, and is complete with it |
| UnreliableArrival.AdvanceHandsOverInRun | Source/Native/enet.h:4205-4215 | when the receiver advances, it hands over just those waiting packets that were sent under the position reached and are complete |
| UnreliableMisled.InsertSortsIff | Source/Native/enet.h:4275-4300 | with unsequenced commands waiting, insertion keeps the list sorted if and only if the search passes them or nothing beyond the arrival stands before one |
| UnreliableMisled.CompleteCurrentPacketIsHeldBack | Source/Native/enet.h:4275-4300 | an example of the other case: a complete, current packet that the pass never reaches |
| UnreliableMisled.HandedAfterIff | Source/Native/enet.h:4275-4300 | in every state with the invariant: a complete packet waits for a later reliable position, one sent under the same position and not after it arrives, and the receiver reaches that position; then the second is handed over after the first if and only if the search does not pass unsequenced commands, one of these stands behind the waiting packet, and nothing for a still later position stands before the last of them |
| UnreliableMisled.HandedOverTwiceIff | Source/Native/enet.h:4275-4300 | the same for a packet that arrives again: exactly when it is handed over twice |
| UnreliableMisled.CopyIsHandedOverToo | Source/Native/enet.h:4275-4300 | an instance: a run of six steps in which a packet is delivered twice |
| UnreliableTurns.HandedUnderOwnPositionIff | Source/Native/enet.h:4145-4152 | in every run, with no condition, what is delivered was sent under its position or whole turns of 65536 away; so under its own if and only if the two are less than a turn apart |
| UnreliableTurns.SeenWhereItIsIff | Source/Native/enet.h:4230-4240 | an arrival that is taken, and not late, is seen at its true distance from the position if and only if it was sent less than 65536 numbers ahead of it |
| UnreliableTurns.ArrivalHandsUnderOwnIff | Source/Native/enet.h:4115-4183 | whatever waits: if such an arrival is handed over at once, that is under its own position if and only if it was sent less than 65536 numbers ahead |
| UnreliableTurns.FarIsHandedOverAtOnce | Source/Native/enet.h:3259-3281 | a run of three steps in which a packet sent after 65536 queued reliable commands is delivered before all of them; the arrival is well placed and in time |
| Unsequenced.HandleTracks | Source/Native/enet.h:2441-2463 | a packet is queued exactly if there is room, its group was not taken and it is not behind the window or too far ahead; and the bits go on telling what was taken |
| Unsequenced.QueuedAtMostOnce | Source/Native/enet.h:2441-2463 | over any run of packets at most 32768 groups late no group is queued twice |
| Unsequenced.Receiver.Receive | Source/Native/enet.h:2441-2463 | the handler, with its bitmap changed in place |
| PoolSafety.StepKeeps | Source/Native/enet.h:1392-1542 | every step of any thread, and every write of the application, keeps the pool invariant |
| PoolSafety.SwapKeeps | Source/Native/enet.h:1227-1247 | so does a successful compare-and-swap, whatever happened since the head was read |
| PoolSafety.ExactlyOneOwner | Source/Native/enet.h:1426-1503 | in every reachable state a block is a live packet, on the orphan stack or held by one thread, and in one place only |
| PoolSafety.OnlyOwnBlocksAreTouched | Source/Native/enet.h:1227-1260 | no thread reads or writes the link of a freed block or of one that is not its own |
| PoolSafety.PushedChainPrecedesStack | Source/Native/enet.h:1227-1247 | after a push the links lead through the pushed chain and then through the stack as it was at that instant |
| PoolSafety.ChainIsUnique | Source/Native/enet.h:1402-1414 | what following the links gives is determined by the memory |
| PoolSafety.CachesAreBounded | Source/Native/enet.h:1405-1411 | no cache exceeds its 128 slots |
| PoolSafety.OrphanCountBoundsStack | Source/Native/enet.h:1258-1260 | the orphan count is at least the stack's length, and no thread lowers it below zero |
| PoolSafety.CountersBalance | Source/Native/enet.h:762-775 | in every reachable state, with any operations under way, the same identities hold when unpublished counts and blocks under way are added in |
| PoolSafety.CountersAddUp | Source/Native/enet.h:762-775 | with all counts published, hits + misses = returned + freed + live, and retained = returned - hits - drained = cached + orphaned |
| PoolSafety.PendingCountsAreSmall | Source/Native/enet.h:1197-1225 | a thread's own counts never exceed a batch |
| PoolCounters.TotalsCountEvents | Source/Native/enet.h:1197-1225 | in every reachable state each total, with what is yet to be published, is the number of hits, misses, oversized requests, blocks kept or blocks freed on release so far |
| PoolOperations.OperationRuns | Source/Native/enet.h:1392-1542 | how each operation of a thread stands, step by step, whatever the others do meanwhile |
| PoolOperations.AcquireHandsOut | Source/Native/enet.h:1426-1474 | an acquisition hands out one block: the top of the cache if there is one; a new one only if the cache was empty and the thread found the orphan stack empty, when it looked or when, after another thread took what it saw, it came to take it |
| PoolOperations.ReleasedIsKept | Source/Native/enet.h:1484-1492 | a block released with caching on and fewer than 128 slots in use is on top of the thread's slots, allocated and unused, until the thread starts another operation |
| PoolOperations.ReleasedIsHandedOutNext | Source/Native/enet.h:1448-1461 | and if that is an acquisition, it hands out this very block, as a hit |
| PoolOperations.ReleasedIsFreed | Source/Native/enet.h:1494-1502 | every other release gives the block back to the allocator |
| PoolOperations.DrainFreesAll | Source/Native/enet.h:1506-1542 | a drain gives back the thread's whole cache and the whole stack as it found it |
| PoolOperations.RetirePushesAll | Source/Native/enet.h:1250-1266 | a thread that goes away pushes its whole cache in one step |
| PoolOperations.BlockIsFreedForCause | Source/Native/enet.h:1392-1542 | in every run a block goes back to the allocator only in a drain, in an adoption that does not fit, or because it was released without a cache or to a full one |
| Bandwidth.ShareIncoming | Source/Native/enet.h:4771-4797 | the incoming loop ends with the first level that the bandwidth does not allow to be raised by one; whoever is settled asks for less, everyone else for that much |
| Bandwidth.Settle | Source/Native/enet.h:4784-4795 | one round never takes more than is there and never lowers the level |
| Bandwidth.SharesAreTheLevel | Source/Native/enet.h:4799-4813 | the shares announced are the water-filling at that level |
| Bandwidth.Announce | Source/Native/enet.h:4799-4813 | each connected peer is told just its share of that water-filling |
| Bandwidth.LimitSlow | Source/Native/enet.h:4714-4749 | one round of the outgoing loop limits just the peers that its throttle would give more than they can take, with no wrap-around and no division by zero |
| Bandwidth.LimitRounds | Source/Native/enet.h:4714-4749 | rounds follow each other, each at the throttle that the one before left, until none is limited |
| Bandwidth.ShareOutgoing | Source/Native/enet.h:4702-4769 | the whole outgoing half: the rounds, and the throttle the rest share; nobody left is sent more than it can take, the total stays within the budget, and throttle <= limit <= 32 |
| Bandwidth.AdjustThrottle | Source/Native/enet.h:3630-3650 | the throttle of a peer rises by the acceleration up to the limit, falls by the deceleration down to 0, opens to the limit, or stays, by the round-trip time |
| Framing.ReadsBack | Source/Native/enet.h:2945-2960 | a command read from the bytes is the command that was written, whatever follows it |
| Framing.WalksBack | Source/Native/enet.h:2940-2963 | the walk over the commands of a datagram finds just those put in |
| Framing.DecodesBack | Source/Native/enet.h:2891-2940 | so does the walk behind the header and the checksum, and the header is read back |
| Framing.Builder.Emit | Source/Native/enet.h:3355-3371 | a command put in keeps the sizes counted equal to the bytes and within the limits |
| Framing.Builder.SendAcknowledgements | Source/Native/enet.h:3143-3182 | the acknowledgement loop writes as many as fit, in order, keeps the rest, and tells whether one was for a disconnect |
| Framing.Builder.Add | Source/Native/enet.h:3289-3371 | a command goes in exactly if 32 commands and the mtu allow it |
| Framing.Builder.Finish | Source/Native/enet.h:3424-3448 | the datagram fits the mtu, is read back by the other side, and carries its sent time exactly if something in it is to be acknowledged |
| WireFormat.CommandIsLaidOut | Source/Native/enet.h:296-389 | every command is laid out byte by byte like its packed structure, numbers with the most significant byte first |
| WireFormat.HeaderIsLaidOut | Source/Native/enet.h:3424-3448 | so is the header: the peer's id, the session and the flag in one word, then the sent time if flagged, the checksum and the commands |
| DatagramBytes.DatagramIsReadBack | Source/Native/enet.h:3396-3448 | what a peer put into its datagram, acknowledgements and then commands, is as many bytes as were counted, fits the mtu, and is read back as just that |
| SendLoop.PlaysWeigh | Source/Native/enet.h:3287-3353 | every command sent makes the measure smaller |
| SendLoop.RequeueWeighs | Source/Native/enet.h:3184-3225 | taking back what timed out makes it smaller as well |
| SendLoop.SentNowIsNotExpired | Source/Native/enet.h:3195-3196 | a command sent at this time has not timed out |
| SendLoop.EmptyIsReady | Source/Native/enet.h:3878-3927 | a peer with nothing queued or in flight meets what the loop asks of a peer |
| SendLoop.NewPeer | Source/Native/enet.h:4542-4572 | so does a new one |
| SendLoop.WaitLightens | Source/Native/enet.h:3377-3378 | the end of a wait, which queues a disconnect, makes it smaller too, for it happens once |
| SendLoop.MovesOutweighPing | Source/Native/enet.h:3415-3418 | a ping alone makes it larger, but any command sent in the same pass outweighs it |
| SendLoop.SendCommands | Source/Native/enet.h:3227-3381 | one round of commands of a pass, what it does to the measure, and what it leaves |
| SendLoop.Serve | Source/Native/enet.h:3415-3418 | the commands of a pass; the ping, exactly if nothing is under way, it is time and there is room; and the second round |
| SendLoop.Release | Source/Native/enet.h:2165-2193 | the end of a wait once unreliable commands are released |
| SendLoop.AcknowledgeAndCheck | Source/Native/enet.h:3396-3413 | the acknowledgements, as many as fit, and the check of the timeouts, with the first loss and its consequence |
| SendLoop.Pass | Source/Native/enet.h:3396-3463 | one peer in one pass: exactly what it does, in order (`Passed`), whether the function returns at once after it (`Stops`), and that a wish for another pass comes with a smaller measure |
| SendLoop.Visit | Source/Native/enet.h:3393-3465 | so for a peer that is skipped, which stays as it is |
| SendLoop.TotalAfter | Source/Native/enet.h:3391-3466 | less work for one peer is less work of the host, whatever the others stand at |
| SendLoop.Round | Source/Native/enet.h:3391-3466 | a pass visits all peers in order, up to one that makes the function return; it asks for another exactly if a visited peer does, and then leaves the host less to do |
| SendLoop.SendOutgoing | Source/Native/enet.h:3383-3470 | the passes: each finds the peers as the one before left them, there is a next one exactly if a peer asks for it, and they end; then every peer is disconnected, a zombie, or has nothing left that could be sent, but for the disconnect of one that waited until then |
| PeerStates.Host.ChangeState | Source/Native/enet.h:2036-2043 | a change of state keeps both counts of connected peers right |
| PeerStates.Host.Reset | Source/Native/enet.h:3878-3927 | a reset leaves a blank peer, out of the dispatch queue, and right counts |
| PeerStates.Host.Connect | Source/Native/enet.h:4524-4595 | a connection asked for takes the first free peer, if any |
| PeerStates.Host.HandleAcknowledge | Source/Native/enet.h:2790-2823 | what an acknowledgement means in each state: the end of connecting, of disconnecting, or of a wait |
| PeerStates.Host.ReceivePacket | Source/Native/enet.h:3750-3773 | a packet received by the application leaves the dispatch queue as it is |
| PeerStates.Host.Disconnect | Source/Native/enet.h:3971-3998 | a disconnect empties the queues and starts the exchange, or resets |
| PeerStates.Host.DisconnectNow | Source/Native/enet.h:3951-3969 | an immediate disconnect resets |
| PeerStates.Host.DisconnectWhenSent | Source/Native/enet.h:4000-4007 | a late disconnect waits exactly if a connected peer has something queued or in flight; otherwise it is a disconnect |
| PeerStates.Host.EndWait | Source/Native/enet.h:3377-3378 | a peer that waits starts to disconnect on its own exactly if nothing is queued, in flight or unreleased |
| PeerStates.Host.NotifyConnect | Source/Native/enet.h:2109-2125 | the state a connection reaches, and the event or the place in the dispatch queue |
| PeerStates.Host.NotifyDisconnect | Source/Native/enet.h:2127-2163 | the same for the end of a connection and for a timeout |
| PeerStates.Host.HandleConnect | Source/Native/enet.h:2292-2320 | a request takes the first free peer, if any |
| PeerStates.Host.HandleVerifyConnect | Source/Native/enet.h:2828-2880 | a confirmation connects a connecting peer, or gives it up |
| PeerStates.Host.HandleDisconnect | Source/Native/enet.h:2706-2729 | what a disconnect does in each state |
| PeerStates.Host.HandleBandwidthLimit | Source/Native/enet.h:2667-2677 | the count of limited peers follows a change of bandwidth |
| PeerStates.Host.Deliver | Source/Native/enet.h:4208-4212 | packets for the application put the peer at the end of the dispatch queue, once |
| PeerStates.Host.DispatchIncoming | Source/Native/enet.h:2055-2107 | the event is that of the first peer in the queue that has one to report, with the kind its state calls for, and none exactly if no peer has; those before it leave the queue, and it goes to the end exactly if it has more packets |
| PacketReferences.Host.Create | Source/Native/enet.h:1918-1953 | a new packet is held by nothing |
| PacketReferences.Host.Queue | Source/Native/enet.h:4096-4113 | a queued command counts for its packet |
| PacketReferences.Host.QueueFragments | Source/Native/enet.h:3717-3723 | so does every fragment |
| PacketReferences.Host.Move | Source/Native/enet.h:3191-3222 | moving a command between queues counts for nothing |
| PacketReferences.Host.Release | Source/Native/enet.h:2256-2266 | a command done with counts down, and the last one destroys the packet |
| PacketReferences.Host.ReleaseAll | Source/Native/enet.h:3775-3790 | emptying a queue destroys each packet whose last command was in it, and no other |
| PacketReferences.Host.Receive | Source/Native/enet.h:3750-3773 | a packet handed to the application is not destroyed |
| PacketReferences.Host.Flush | Source/Native/enet.h:3472-3476 | any sequence of sending, timing out, dropping and releasing commands of any peers keeps every count right, and destroys each packet that loses its last command, and no other |
| PacketReferences.Host.Send | Source/Native/enet.h:3652-3748 | one send of a broadcast: refused, in fragments, or whole and flushed; packets go exactly with their last command |
| PacketReferences.Host.Broadcast | Source/Native/enet.h:4597-4615 | a broadcast packet survives its sends and flushes, whatever they do; if nothing holds it at the end it is destroyed then, and is the last to be, otherwise with its last command; other packets go exactly with theirs |
| PacketHolders.SendHeadMoves | Source/Native/enet.h:3306-3314 | sending a reliable command moves its hold on the packet to the commands in flight |
| PacketHolders.SendOtherMoves | Source/Native/enet.h:3316-3353 | sending from the other queue moves the hold to the commands in flight or to those going with the datagram |
| PacketHolders.DropReleases | Source/Native/enet.h:3325-3343 | the throttle releases each command of the run it drops |
| PacketHolders.RequeueMoves | Source/Native/enet.h:3191-3222 | what times out only moves |
| PacketHolders.AcknowledgeReleases | Source/Native/enet.h:2214-2266 | an acknowledgement releases the command it settles, and no other |
| PacketHolders.EnqueueQueues | Source/Native/enet.h:4038-4093 | a queued packet command is one more hold |
| PacketHolders.EnqueueControlQueues | Source/Native/enet.h:4048-4093 | a control command holds nothing |
| PacketHolders.EnqueueUnreliableQueues | Source/Native/enet.h:4057-4093 | an unreliable command is one more hold, if it carries a packet |
| PacketHolders.GoneAreReleased | Source/Native/enet.h:2165-2189 | once the datagram is out, every unreliable command in it is released |
| PacketHolders.PlaysShuffle | Source/Native/enet.h:3227-3381 | whatever the sending loop does is such a sequence of moves and releases |

## Left out

- ReliableDelivery.DeliveredIsPrefixOfSent: one channel of one connection with both ends connected; connecting and disconnecting are only in `PeerStates`.
- UnreliableMisled.HandedAfterIff: a whole packet arrives and a complete one waits, here and in HandedOverTwiceIff; a copy put together from fragments a second time is not covered.
- SendLoop.SendOutgoing: whether the timers let timeouts be checked and pings be sent, and whether the socket fails, are inputs.
- SendingPeer.Peer.CheckTimeouts: `nextTimeout` is not modelled, here and in CheckOutgoing and RemoveSent; it only decides whether the timeouts are looked at.
- SendingPeer.Peer.SmoothRoundTrip: the lowest and last round-trip times, which feed the throttle alone.
- SendingPeer.Peer.DropRun: the commands of the run are assumed to carry packets; they may be those of another packet.
- UnreliableOrder.DeliveredInSendingOrder: for runs of well-placed arrivals of packets sent less than 65536 reliable numbers ahead; an arrival that is not well placed can still do no harm, and `UnreliableMisled.HandedAfterIff` is exact for the arrival that does, not for all that may follow it.
- Bandwidth.ShareOutgoing: products beyond 32 bits and peers settled at the current time are excluded, here and, for sums of round-trip times, in AdjustThrottle.
- Bandwidth.ShareIncoming: the level is in whole bytes; a rest smaller than the number of open peers is not handed out, as in the code. Unlimited peers count as nothing.
- Framing.DecodesBack: the lookup of the peer and the comparison of the checksum are not part of decoding.
- Framing.WalksBack: the handling of each command, which can stop the walk, is not part of the walk.
- PeerStates.Host.Disconnect: what the flush inside it sends, here and in DisconnectNow; which commands are queued is only counted.
- PeerStates.Host.Reset: the fields that are not part of the books.
- PeerStates.Host.HandleConnect: the limit on duplicate peers and the checks of the channels, mtu and window.
- PeerStates.Host.HandleVerifyConnect: whether the parameters agree is an input, and what is negotiated is left out.
- PeerStates.Host.HandleBandwidthLimit: the outgoing bandwidth and the window size that follows from it.
- Fragmentation.Send: a connected peer and an existing channel; the flush of an instant packet is in `PacketReferences`.
- PacketReferences.Host.Move: a count of holds; the queues of commands it stands for are tied to it in `PacketHolders`, for the sending side only.
- The reliable queues and the sender's queues are sequences held in fields, not linked lists: update in place and aliasing of their nodes are shown for the unreliable lists only.
- Bitmaps are sequences or arrays of truth values, except for the sender's window mask, which is also shown on 32-bit words.
- The numbers and fields of unreliable fragments other than their count; their reassembly is the one proved for reliable fragments.
- Sockets, addresses, the clock, the checksum function, the intercept callback and user allocators.
- The count of caches, the statistics queries and the platform hooks of the pool.
- Round-trip estimation beyond its bounds, throttle quality, and progress under a fair network: `ReliableRuns` shows that some run delivers, not that every fair one does.
- `totalWaitingData`, which is an upper bound only, and the discarding of arrivals while a late disconnect waits.
- The C# wrapper, the benchmarks and the report scripts.
