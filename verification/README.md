# Verified models of the Terra virtio devices

This project models the device core of the Terra virtual machine monitor in Dafny and proves what its protocols keep.

- **Vsock streams.** `StreamModel` is one stream over unbounded counters, `StreamInvariant` what every operation keeps,
  and the class in `StreamConnection` the device's code over 32-bit counters that wrap, proved to move the model step by step.
  `Acknowledgements` says what a wrapped acknowledgement means.
  `HalfClose` and `StrayPackets` say what shutdowns, resets and packets outside a connection do.
- **Two parties.** `CreditProtocol` puts the device and a guest at the two ends of delaying channels (section 5.10.6.3 of
  VIRTIO 1.2). `CreditProgress` shows that batching credit updates never stalls the guest, `Handshake` when both sides open,
  `Upstream` that bytes arrive in order, and `GuestWindow` that the guest's buffer never overflows.
- **The switch.** `SwitchModel`, `SwitchInvariant` and the class in `VsockSwitch` treat many endpoints with generation
  numbers. `FlowOpening` says when flows open; `Generations`, `NetworkDisable` and `Fairness` state safety and bounded
  bypass over whole runs.
- **The receive path.** `Downstream` and `ReceiveRing` follow bytes from `deliver` to the guest; `ReceivePacket` and the
  class in `ReceiveQueue` write them to guest memory, with the header layout of `PacketHeader`.
- **Rings.** `LittleEndian`, `UsedRing`, `UsedHistory`, `AvailableRing`, `QueueEngine`, `DescriptorChain` and `GuestCopy`
  model the split ring in guest memory (section 2.7 of VIRTIO 1.2), one turn over both queues, and bounded copies.
- **Notification.** `Notification` interleaves worker, doorbell and guest memory accesses (sections 2.7.7 and 2.7.10 of
  VIRTIO 1.2). `Worker` releases retired connections.
- **Registers and small devices.** `MmioRegisters`, `MmioDriver` and the class in `MmioTransport` (section 4.2 of VIRTIO 1.2),
  `BlockDevice`, `NodeTable` and `Ioapic`.

How the pieces fit: wherever the code updates state in place, a class carries the code's own fields and every method is
proved against a specification function on a ghost or derived model; lemmas about those functions then cover whole runs.
Constants are the repository's (`crates/terra-protocol/src/vsock.rs`, `crates/terra-limits/src/lib.rs`). Packets reach the
switch with header fields in range, as the parser delivers them. Guest memory accesses, disk answers, timers and guest
behaviour are parameters or steps of the environment. Code between two waits is one step.

Two expectations fail at an edge and are stated exactly. A connection opened while a reset of an earlier one is still
queued reaches the guest behind that reset, which closes it: `Handshake` gives the condition. And if the worker can neither
clear a set suppression flag nor read it back, it goes to sleep although the guest will not ring.
`Notification.NoLostNotification` holds whenever the flag of a ready queue is clear, `LosesHeadIffSuppressed` shows that a
head can be lost exactly when it is set, `SuppressedIffBlind` that it is set exactly after such a re-arm, and
`BlindRearmReachable` a run that gets there.

## Model

| member | source | states |
|---|---|---|
| `Words.NearestIsUnique` | components/vsock-device/src/switch.rs:72-74 | exactly one total within half the word range of a base has a given low 32 bits, so a wrapped acknowledgement names one total |
| `StreamConnection.AckAheadIsGreater` | components/vsock-device/src/switch.rs:72-74 | the modular comparison decides the order of two totals less than half the range apart |
| `StreamConnection.StreamConnection.constructor` | components/vsock-device/src/switch.rs:104-116 | a new stream is the wrapped image of the empty model |
| `StreamConnection.StreamConnection.QueueReply` | components/vsock-device/src/switch.rs:123-136 | a reply is queued exactly when slots and bytes allow; the byte count stays the sum of queued payloads, and a queued credit update becomes the advertised total |
| `StreamConnection.StreamConnection.Rst` | components/vsock-device/src/switch.rs:153-162 | queues a reset when there is room and changes nothing else |
| `StreamConnection.StreamConnection.Respond` | components/vsock-device/src/switch.rs:164-188 | a credit update at the tail is restamped in place, any other reply is queued |
| `StreamConnection.StreamConnection.DropConnection` | components/vsock-device/src/switch.rs:190-194 | ends the connection and forgets buffered input but keeps queued replies |
| `StreamConnection.StreamConnection.NotePeerCredit` | components/vsock-device/src/switch.rs:196-238 | moves the unbounded acknowledged total as the model does; the branch for more than the allowed unacknowledged bytes is proved unreachable |
| `StreamConnection.StreamConnection.RejectPacket` | components/vsock-device/src/switch.rs:240-247 | answers anything but a reset with a reset and drops a live connection |
| `StreamConnection.StreamConnection.Rx` | components/vsock-device/src/switch.rs:249-278 | every packet, well formed or not, moves the model by the specification and keeps the invariant |
| `StreamConnection.StreamConnection.OnConnected` | components/vsock-device/src/switch.rs:281-299 | data after the guest closed its sending side resets; otherwise credit is noted before the packet is acted on |
| `StreamConnection.StreamConnection.OnRequest` | components/vsock-device/src/switch.rs:301-310 | opens a connection only when none exists, the forwarded count is zero and the response fits the queue |
| `StreamConnection.StreamConnection.OnResponse` | components/vsock-device/src/switch.rs:312-320 | opens the requested connection, or rejects and clears the request |
| `StreamConnection.StreamConnection.Request` | components/vsock-device/src/switch.rs:322-339 | queues a request exactly when no connection exists or is being opened and there is room |
| `StreamConnection.StreamConnection.OnRst` | components/vsock-device/src/switch.rs:341-345 | a reset from the guest ends a live connection |
| `StreamConnection.StreamConnection.OnShutdown` | components/vsock-device/src/switch.rs:347-360 | dropping queued data and zeroing the byte count without recounting is exact, because only data replies carry payload |
| `StreamConnection.StreamConnection.OnData` | components/vsock-device/src/switch.rs:362-378 | data is buffered exactly when it fits the window in wrapped and true counters, else the connection is reset |
| `StreamConnection.StreamConnection.OnCreditRequest` | components/vsock-device/src/switch.rs:380-389 | answers with everything consumed, or drops the connection when the answer does not fit |
| `StreamConnection.StreamConnection.RequestCredit` | components/vsock-device/src/switch.rs:391-413 | at most one credit request is open |
| `StreamConnection.StreamConnection.AvailableSendCredit` | components/vsock-device/src/switch.rs:415-426 | the wrapped computation is the smaller of the peer's free window and the unacknowledged budget |
| `StreamConnection.StreamConnection.SendCapacity` | components/vsock-device/src/switch.rs:428-435 | the largest packet that deliver accepts |
| `StreamConnection.StreamConnection.Deliver` | components/vsock-device/src/switch.rs:437-473 | accepts exactly what fits credit, queue and packet size; the failing queue call after the capacity check is proved unreachable |
| `StreamConnection.StreamConnection.Shutdown` | components/vsock-device/src/switch.rs:475-495 | half-closes once; the failing response after the room check is proved unreachable |
| `StreamConnection.StreamConnection.AdvanceReceiveCredit` | components/vsock-device/src/switch.rs:502-529 | advertises consumption at once, or defers it below half the smaller window, never on the agent port and never past a waiting credit request |
| `StreamConnection.StreamConnection.CountConsumed` | components/vsock-device/src/switch.rs:502-513 | consumed bytes move the wrapped forwarded count, and the wrapped distance to the advertised count is the true deferred amount |
| `StreamConnection.StreamConnection.TakeReply` | components/vsock-device/src/switch.rs:531-542 | hands out the head when it fits and keeps the byte count exact |
| `StreamConnection.StreamConnection.ConsumeUpstream` | components/vsock-device/src/switch.rs:563-569 | removes exactly the oldest bytes, those a peek shows, and accounts for them as received credit |
| `StreamInvariant.ConsumeUpstreamTakesPeek` | components/vsock-device/src/switch.rs:563-569 | while the connection lives, the bytes peeked and the bytes left are the bytes buffered |
| `StreamConnection.RepliesAreWellFormed` | components/vsock-device/src/switch.rs:138-151 | seen from the other end, every reply of a stream is a well-formed packet between its ports by the rules the device applies to the guest |
| `StreamConnection.StreamConnection.Retire` | components/vsock-device/src/switch.rs:638-648 | only resets stay queued, so zeroing the byte count is exact |
| `StreamConnection.StreamConnection.ClearReplies` | components/vsock-device/src/switch.rs:944-952 | clearing the queue without recounting is exact once no payload is queued |
| `Acknowledgements.AcknowledgementCases` | components/vsock-device/src/switch.rs:196-238 | for every total the wrapped field can stand for: one ahead of the bytes sent resets, one behind the last accepted changes nothing, any other is accepted unless a forced credit update finds the queue full; a request for credit stays open exactly while the window has not grown |
| `StreamInvariant.NotePeerCreditKeeps` | components/vsock-device/src/switch.rs:196-238 | an acknowledgement of any value keeps unacknowledged bytes within the send budget and deferred credit within its bound, through window shrinks |
| `StreamInvariant.RxKeeps` | components/vsock-device/src/switch.rs:249-389 | every packet keeps the stream invariant: budgets, one connection state, reply well-formedness and advertised totals in queue order |
| `StreamInvariant.DeliverKeeps` | components/vsock-device/src/switch.rs:437-473 | delivering keeps it |
| `StreamInvariant.AdvanceReceiveCreditKeeps` | components/vsock-device/src/switch.rs:502-529 | consuming keeps it, in particular the bound on consumption not yet advertised |
| `CreditProtocol.RunKeeps` | components/vsock-device/src/switch.rs:164-188 | in every interleaving of guest, device and channels, data received plus data in flight is what the guest sent, and advertised totals reach the guest in order |
| `CreditProtocol.CreditSafety` | components/vsock-device/src/switch.rs:362-378 | a guest that sends only within the credit of the last header it received never reaches the overflow reset, for any delays |
| `CreditProtocol.DataIsAccepted` | components/vsock-device/src/switch.rs:362-378 | so its data packets with acceptable credit fields are buffered whole |
| `CreditProtocol.SendCreditIsExact` | components/vsock-device/src/switch.rs:66-74 | the guest's wrapped credit computation is the true free window |
| `CreditProgress.DeferredCreditNeverStalls` | components/vsock-device/src/switch.rs:502-529 | in every run, once nothing is in flight, queued or buffered, the guest may send more than half the window, and all of it on the agent port |
| `CreditProgress.CreditRequestAnswered` | components/vsock-device/src/switch.rs:380-389 | a request for credit is answered by an update for everything consumed, or ends the connection exactly when the queue is full and does not end in an update |
| `CreditProgress.RefusedDataAsks` | components/vsock-device/src/switch.rs:437-455 | data refused for lack of the guest's credit leaves one request for credit queued, unless one is open or the queue full |
| `Upstream.UpstreamIsConserved` | components/vsock-device/src/switch.rs:563-569 | in every interleaving of guest, device and channels: the bytes handed on, then the buffered ones, then those in flight are the bytes the guest sent, in order; after the end, what was handed on is a prefix |
| `Upstream.PeekThenConsume` | components/vsock-device/src/switch.rs:1043-1067 | on the switch, consuming from a connection that stays current leaves exactly the bytes behind those a peek showed |
| `GuestWindow.GuestNeverOverflows` | components/vsock-device/src/switch.rs:415-435 | in every interleaving, what a guest holds unread, what is in flight and what is queued fit the window it advertises, so no data finds its buffer full |
| `GuestWindow.DeliverAcceptsIff` | components/vsock-device/src/switch.rs:415-473 | data is accepted exactly when it fits a packet, the guest's window and the unacknowledged budget from its last acknowledgement, the queue's bytes and its unreserved slots |
| `Handshake.GuestHandshake` | components/vsock-device/src/switch.rs:301-310 | once everything arrived, a guest's request has opened both sides with each other's windows if and only if it is well formed, counts nothing forwarded and no earlier reset is queued; otherwise the guest is closed |
| `Handshake.GuestHandshakeHappens` | components/vsock-device/src/switch.rs:301-310 | such runs exist |
| `Handshake.HostHandshake` | components/vsock-device/src/switch.rs:312-339 | the same for a connection the host requests, by the guest's answer |
| `HalfClose.EndOfData` | components/vsock-device/src/switch.rs:475-495 | while a connection lives: the guest is told at most once that the host sends no more, after all data; it is told once a shutdown was accepted unless it closed its receiving side, and not before |
| `HalfClose.GuestCloses` | components/vsock-device/src/switch.rs:347-360 | a shutdown packet closes exactly the directions it names; a closed receiving side leaves no data queued and takes no more, and data on a closed sending side ends the connection |
| `StrayPackets.ResetEnds` | components/vsock-device/src/switch.rs:341-345 | a reset, well formed or not, ends whatever there is and is never answered |
| `StrayPackets.StrayIsReset` | components/vsock-device/src/switch.rs:240-247 | without a connection every packet but a reset and an opening request is answered by exactly one reset if there is room, and changes nothing else |
| `StrayPackets.ForeignPacketEnds` | components/vsock-device/src/switch.rs:240-247 | a packet that does not belong to an established connection ends it and tells the guest by one reset behind what is queued |
| `VsockSwitch.VsockSwitch.constructor` | components/vsock-device/src/switch.rs:679-695 | a new switch is the image of the model's and satisfies the invariant |
| `VsockSwitch.VsockSwitch.Classify` | components/vsock-device/src/switch.rs:705-726 | the result is the one role whose port pairs contain the pair, if the network is enabled or the role is the agent's; an endpoint with these ports has that role |
| `SwitchInvariant.EndpointClassifies` | components/vsock-device/src/switch.rs:705-726 | in every reachable switch, an endpoint's ports classify to its own role, or to none once the network is disabled |
| `VsockSwitch.VsockSwitch.EndpointIndex` | components/vsock-device/src/switch.rs:728-732 | finds the first endpoint with the port pair, or none exists |
| `VsockSwitch.VsockSwitch.ConnectionIndex` | components/vsock-device/src/switch.rs:734-737 | finds an endpoint only under its current role, ports and number |
| `VsockSwitch.VsockSwitch.Reject` | components/vsock-device/src/switch.rs:739-753 | queues a reset stamped with the present number of the port pair, within the limit |
| `VsockSwitch.VsockSwitch.Rx` | components/vsock-device/src/switch.rs:760-805 | routes, opens or rejects exactly as specified, retires an endpoint whose connection a packet ended, and keeps the invariant |
| `VsockSwitch.VsockSwitch.RetireEndpoint` | components/vsock-device/src/switch.rs:807-810 | retires an endpoint under the next number and keeps only its resets |
| `VsockSwitch.VsockSwitch.ConnectPublication` | components/vsock-device/src/switch.rs:813-836 | adds a connecting endpoint under a fresh number within capacity; the failing request on a new stream is proved unreachable |
| `VsockSwitch.VsockSwitch.RetireConnection` | components/vsock-device/src/switch.rs:901-925 | releases exactly a retired number with an empty queue and drops the rejections of its ports |
| `VsockSwitch.VsockSwitch.ResetConnections` | components/vsock-device/src/switch.rs:944-952 | the loop retires every live endpoint and empties every queue; clearing without recounting bytes is proved exact |
| `VsockSwitch.VsockSwitch.DisableNetwork` | components/vsock-device/src/switch.rs:954-969 | the loop resets and retires every live endpoint but the agent |
| `VsockSwitch.VsockSwitch.RequestCredit` | components/vsock-device/src/switch.rs:997-999 | acts on the named connection only, else fails without change |
| `VsockSwitch.VsockSwitch.Deliver` | components/vsock-device/src/switch.rs:1001-1006 | refuses oversized data and unknown connections without change |
| `VsockSwitch.VsockSwitch.Shutdown` | components/vsock-device/src/switch.rs:1008-1010 | acts on the named connection only, else fails without change |
| `VsockSwitch.VsockSwitch.ResetConnection` | components/vsock-device/src/switch.rs:1012-1025 | resets and retires exactly the live endpoint with that number |
| `VsockSwitch.VsockSwitch.PeekUpstream` | components/vsock-device/src/switch.rs:1043-1052 | gathers the oldest bytes of a current connection wherever the ring buffer wraps, nothing of any other |
| `VsockSwitch.VsockSwitch.ConsumeUpstream` | components/vsock-device/src/switch.rs:1054-1067 | consumes, and retires the endpoint when the credit update could not be queued |
| `VsockSwitch.VsockSwitch.IsReplyCurrent` | components/vsock-device/src/switch.rs:1070-1081 | a reply is current exactly under the present number of its ports, data only while the guest receives |
| `VsockSwitch.VsockSwitch.TakeReplyFrom` | components/vsock-device/src/switch.rs:1103-1111 | the reply leaves stamped with its endpoint's number |
| `VsockSwitch.VsockSwitch.TakeFlowReply` | components/vsock-device/src/switch.rs:1113-1124 | the scan serves the first flow after the cursor with a head that fits, and moves the cursor past it |
| `VsockSwitch.VsockSwitch.TakeReply` | components/vsock-device/src/switch.rs:1126-1140 | the scan over agent, control and flows serves the first class after the cursor, and rejections only when none can be served |
| `VsockSwitch.VsockSwitch.Run` | components/vsock-device/src/switch.rs:652-664 | driven through any run of operations, the concrete switch ends as the wrapped image of the unbounded model's run |
| `SwitchInvariant.ApplySteps` | components/vsock-device/src/switch.rs:760-1140 | every operation keeps the switch invariant, and every endpoint afterwards holds a connection it held before or a newly allocated number |
| `Generations.RunKeeps` | components/vsock-device/src/switch.rs:760-1140 | so every run of operations keeps the switch invariant |
| `Generations.ReachableIsOk` | components/vsock-device/src/switch.rs:1248-1274 | every switch reachable by any operations satisfies the invariant |
| `Generations.InvariantBounds` | components/vsock-device/src/switch.rs:1248-1274 | what it gives: unique port pairs, capacities and budgets, bounded unacknowledged bytes, deferred credit zero or below half the smaller window, advertised totals non-decreasing in queue order, never live and retiring, flows always one of them, and only payload-free resets queued when not live |
| `Generations.TouchedIsCurrent` | components/vsock-device/src/switch.rs:760-805 | the identity a packet reports is the one under which its endpoint, new or old, is current if it is connected afterwards |
| `Generations.RequestedBecomesCurrent` | components/vsock-device/src/switch.rs:813-836 | the identity the host gets for a requested connection is current as soon as the guest's answer opens it |
| `FlowOpening.NewFlowOpens` | components/vsock-device/src/switch.rs:760-805 | an opening request to the TCP or UDP port between unused ports within capacity opens a flow whose identity is current, with the guest's window, and leaves only the response queued for these ports |
| `FlowOpening.ConnectSucceedsIff` | components/vsock-device/src/switch.rs:813-836 | the host's request succeeds exactly when the network is enabled, the port is a publication port not in use and there is capacity, and leaves only the request queued |
| `FlowOpening.ForgiveExactly` | components/vsock-device/src/switch.rs:782-785 | exactly the rejections for the port pair go, the others stay in order |
| `FlowOpening.RejectionIsCurrent` | components/vsock-device/src/switch.rs:739-753 | a rejection is a reset to the sender that passes the currency test |
| `Generations.StoppedIsGone` | components/vsock-device/src/switch.rs:638-648 | a connection that stops being current has lost its number: no endpoint bears it |
| `Generations.GoneForever` | components/vsock-device/src/switch.rs:697-703 | a lost number never comes back in any run |
| `Generations.NeverCurrentAgain` | components/vsock-device/src/switch.rs:863-865 | an identity that stopped being current is never current again, port reuse included |
| `Generations.StaleOperationsFail` | components/vsock-device/src/switch.rs:997-1067 | deliver, consume, shutdown and credit requests on an identity that is not current fail and change nothing |
| `Generations.EndedStaysUnusable` | components/vsock-device/src/switch.rs:997-1067 | so from the step that ends a connection on, after any further operations, each of these on its identity fails with the code's error and changes nothing |
| `Generations.StaleReplyNeverCurrent` | components/vsock-device/src/switch.rs:1070-1081 | a reply stamped with a lost nonzero number never passes the currency test again |
| `Generations.TakenReplyGoesStale` | components/vsock-device/src/switch.rs:1070-1081 | so a reply taken before its connection ended never reaches the guest afterwards |
| `NetworkDisable.ApplyOff` | components/vsock-device/src/switch.rs:954-969 | with the network disabled and only the agent live, every operation leaves it so |
| `NetworkDisable.DisabledForever` | components/vsock-device/src/switch.rs:954-969 | whatever connections exist when the network is disabled and whatever follows, no endpoint but the agent's is live, no identity of another role is current, and packets between other ports are only rejected |
| `NetworkDisable.ResetTellsGuest` | components/vsock-device/src/switch.rs:954-964 | the loop queues a reset for the guest on every live connection that has room for one |
| `Fairness.TakeScanProgress` | components/vsock-device/src/switch.rs:1126-1140 | a take either serves a waiting endpoint or strictly decreases its cyclic distance on the two cursors |
| `Fairness.OnlyTakesMoveCursors` | components/vsock-device/src/switch.rs:1113-1140 | no other operation moves a cursor |
| `Fairness.BoundedBypass` | components/vsock-device/src/switch.rs:1103-1140 | through any run in which its head stays takeable and no endpoint comes or goes, agent and control are bypassed at most twice and a flow fewer than three times the number of flows |
| `Downstream.ApplyKeepsQueues` | components/vsock-device/src/switch.rs:760-1067 | no operation but deliver and take changes the bytes queued for a connection that still receives |
| `ReceiveRing.DeliverStep` | components/vsock-device/src/switch.rs:437-473 | accepted bytes join the end of the queued ones |
| `ReceiveRing.RefillStep` | components/vsock-frontend/src/transport.rs:427-451 | replacing a stale pending reply loses no byte of a connection that still receives |
| `ReceiveRing.WriteStep` | components/vsock-frontend/src/transport.rs:452-493 | a buffer takes a prefix of the pending payload, and a failed write takes nothing |
| `ReceiveRing.DownstreamIsConserved` | components/vsock-frontend/src/transport.rs:403-493 | in every run of switch operations, transport resets and receive buffers of any size, with writes failing at will: bytes accepted are bytes written, then the pending remainder, then queued payloads, in order |
| `ReceiveRing.ResetKeeps` | components/vsock-frontend/src/transport.rs:69-76 | a transport reset drops the pending reply and every connection and leaves nothing accepted under the numbers in use |
| `ReceiveRing.PendingDrains` | components/vsock-frontend/src/transport.rs:452-493 | a current pending reply reaches the guest whole in exactly as many buffers as its payload needs |
| `ReceiveRing.IdleMeansEmpty` | components/vsock-frontend/src/transport.rs:427-451 | a usable buffer finds nothing only when nothing is pending, queued or rejected anywhere |
| `ReceiveRing.WritesOnlyToReceivers` | components/vsock-device/src/switch.rs:1070-1081 | bytes are written only for a connection that an endpoint holds and whose guest still receives |
| `ReceiveRing.EndedGetsNothing` | components/vsock-frontend/src/transport.rs:427-451 | after a connection ended not one more byte of it reaches the guest, whatever follows |
| `ReceivePacket.ScatterKeepsPacket` | components/vsock-frontend/src/transport.rs:477-488 | a packet cut along descriptors of enough capacity keeps every byte in order |
| `ReceivePacket.WriteRxPacket` | components/vsock-frontend/src/transport.rs:464-493 | writes header and as much payload as fits across the descriptors, drains the reply only after every write succeeded, leaves exactly the pieces before a failing one written, and the leftover error is proved unreachable |
| `ReceiveQueue.ReceiveQueue.Refill` | components/vsock-frontend/src/transport.rs:427-451 | a stale pending reply is dropped and the next one taken; a retry exactly when that one is stale too |
| `ReceiveQueue.ReceiveQueue.ProcessRx` | components/vsock-frontend/src/transport.rs:403-462 | on the concrete switch, pending reply and guest memory, a buffer moves the state as the conserved model does, its write succeeds exactly when every piece lies in memory, and memory afterwards is the given one except for the packet along the buffer, up to the first piece outside memory |
| `ReceiveQueue.GuestParsesPacket` | components/vsock-frontend/src/transport.rs:472-476 | parsing what a buffer got gives the reply's header with the length of the payload behind it |
| `PacketHeader.ParseEncoded` | components/vsock-device/src/packet.rs:27-62 | parsing an encoded header followed by any bytes gives both back |
| `PacketHeader.EncodeParsed` | components/vsock-device/src/packet.rs:27-62 | parsing fails exactly on fewer than 44 bytes, and whatever is parsed encodes to the bytes it came from |
| `UsedRing.EntryDecodes` | components/device-transport/src/lib.rs:376-378 | a driver reads back head and length from a slot |
| `UsedRing.CompletionRanges` | components/vsock-frontend/src/transport.rs:254-293 | the loop builds exactly the specified writes; the two errors occur exactly for a bad size or count and for an unaddressable ring |
| `UsedRing.CompleteAllFills` | components/device-transport/src/lib.rs:362-383 | completions one at a time fill consecutive slots and leave the last index, through 16-bit wrap |
| `UsedRing.BatchRefinesSingles` | components/vsock-frontend/src/transport.rs:254-293 | for any power-of-two size, index and count up to the size, the batch leaves the same memory as single completions, in at most three writes with the index last |
| `AvailableRing.ResyncPending` | components/device-transport/src/lib.rs:333-341 | the cursor afterwards is the counted entries, at most a ring, before the available index; it stays exactly when some count within a nonempty ring leads there, else it skips to the index |
| `AvailableRing.ResyncCounts` | components/device-transport/src/lib.rs:333-341 | a guest at most a ring ahead in unbounded positions is counted exactly and never skipped, through wrap |
| `AvailableRing.DecodeBatch` | components/vsock-frontend/src/transport.rs:215-252 | captures at most the step limit from the cursor, and refuses bad sizes |
| `AvailableRing.SnapshotIsOldest` | components/vsock-frontend/src/transport.rs:150-252 | with a conforming guest the cursor is never skipped and the captured heads are exactly the oldest uncompleted ones, also when later heads were published before the snapshot |
| `UsedHistory.CompleteRecords` | components/device-transport/src/lib.rs:362-383 | a completion written to guest memory keeps the used index equal to the number of completions and each slot equal to its latest one |
| `UsedHistory.BatchRecords` | components/vsock-frontend/src/transport.rs:254-293 | a published batch does the same, its writes lie in memory and are addressable |
| `AvailableRing.PublishOk` | components/device-transport/src/lib.rs:344-360 | publishing within the ring size never overwrites an uncompleted head |
| `QueueEngine.ProcessBatches` | components/vsock-frontend/src/transport.rs:617-647 | all transmit heads complete; receive heads are served one a step, in order, until they or the steps run out or nothing is left to send, and after an idle step only with another transmit head; progress is reported exactly when something moved |
| `QueueEngine.ReceivedMeans` | components/vsock-frontend/src/transport.rs:630-643 | each completed receive step fills the next head with its length, other steps fill none |
| `QueueEngine.VsockQueues.Capture` | components/vsock-frontend/src/transport.rs:579-605 | captures the oldest heads of a ready queue |
| `QueueEngine.VsockQueues.PublishBatch` | components/vsock-frontend/src/transport.rs:296-322 | guest memory is changed by exactly the batch's writes and then records the longer history, the cursor moves with it and the other queue's ring is untouched; when the write fails nothing changes, and the range error is proved unreachable |
| `QueueEngine.VsockQueues.CaptureTurn` | components/vsock-frontend/src/transport.rs:579-605 | receive is captured when pending or when transmit has work; both batches hold exactly the oldest heads up to the limit |
| `QueueEngine.VsockQueues.ProcessTurn` | components/vsock-frontend/src/transport.rs:607-647 | the captured batches are processed and receive buffers written while used rings and cursors stay |
| `QueueEngine.VsockQueues.PublishTurn` | components/vsock-frontend/src/transport.rs:648-672 | transmit is published before receive, pending flags and the interrupt follow from what is left and what was published |
| `QueueEngine.VsockQueues.ResetTransport` | components/vsock-frontend/src/transport.rs:69-76 | cursors, pending flags and held completions start over |
| `QueueEngine.VsockQueues.RequestUsedInterrupt` | components/vsock-frontend/src/transport.rs:327-338 | receive completions and payload interrupt at once, others are held below the limit |
| `QueueEngine.VsockQueues.ProcessPending` | components/vsock-frontend/src/transport.rs:607-674 | whatever fails, each queue has completed its oldest heads in order and guest memory records exactly the completions so far; transmit completes as many heads as were published up to the limit, receive as many as its steps complete, both stay pending exactly when work is left, and the interrupt is raised exactly for receive completions, payload or the held limit |
| `QueueEngine.CompletesOnceInOrder` | components/vsock-frontend/src/transport.rs:215-322 | over every run of publications, turns and other writes: completed heads are a prefix of the published ones, each once, the cursor and the used index in guest memory count them, and a driver that reads the used ring finds the heads and lengths of the latest completions |
| `QueueEngine.TurnEnabled` | components/vsock-frontend/src/transport.rs:215-322 | a turn is always possible: the writes of its batch lie in memory |
| `Notification.RunOk` | components/vsock-frontend/src/worker.rs:34-75 | the protocol invariant holds in every interleaving of worker, guest, doorbell, resets and failing accesses |
| `Notification.NoLostNotification` | components/vsock-frontend/src/worker.rs:34-75 | when the worker sleeps untimed with a clear doorbell: every finished publication is completed unless the guest's bell is suppressed, every completion published while the interrupt flag read clear is signalled, and a waiting guest has seen all or was interrupted |
| `Notification.NoLostHeadWhileNapping` | components/vsock-frontend/src/transport.rs:529-565 | a timed sleep is as safe for heads, and owes exactly the held completions |
| `Notification.LosesHeadIffSuppressed` | components/vsock-frontend/src/transport.rs:529-565 | the exception is exact: from any reachable quiet idle state of a ready queue, the guest alone can publish a head that nobody wakes the worker for if and only if its suppression flag is set |
| `Notification.SuppressedIffBlind` | components/vsock-frontend/src/transport.rs:549-557 | in every run, an idle worker leaves a ready queue's flag set if and only if its last re-arm could neither clear the set flag nor read it back |
| `Notification.BlindRearmReachable` | components/vsock-frontend/src/transport.rs:549-557 | such a re-arm does occur in a run from a new device, and ends asleep where a head can be lost |
| `Worker.RetireConnections` | components/vsock-frontend/src/worker.rs:9-32 | the loop releases every retired connection whose resets are gone, except one whose reset the receive ring still holds, and leaves all other endpoints as they are |
| `DescriptorChain.ChainExtendsWalk` | components/device-transport/src/lib.rs:407-468 | the walk is forced: every chain from the head begins with every walk from it |
| `DescriptorChain.SplitRingChain` | components/device-transport/src/lib.rs:407-468 | succeeds exactly when an acyclic usable chain within the limit exists, with its descriptors in order; the limit is the reason only when it is below the ring size |
| `DescriptorChain.DescriptorReadsBack` | components/device-transport/src/lib.rs:440-456 | the device reads back every field of a descriptor that a driver wrote anywhere in the table |
| `DescriptorChain.OnlyNextAndWrite` | components/device-transport/src/lib.rs:447-450 | with the flags the devices allow, exactly descriptors without a flag above NEXT and WRITE pass |
| `GuestCopy.WriteThenRead` | components/device-transport/src/lib.rs:151-176 | reading a written range gives the bytes back, and any range apart from it what it held |
| `GuestCopy.ForEachBatch` | components/device-transport/src/lib.rs:88-111 | batches are consecutive, in order, within the host's limits on pieces, ranges and bytes, and closed only when the next piece does not fit |
| `GuestCopy.PiecesCover` | components/device-transport/src/lib.rs:131-136 | the pieces of ranges hold exactly their bytes and lie in RAM exactly when they do |
| `GuestCopy.ReadGuestRanges` | components/device-transport/src/lib.rs:113-149 | reads exactly the ranges in order, or fails exactly on overflow or a range outside RAM; never for size |
| `GuestCopy.DataPiecesCover` | components/device-transport/src/lib.rs:163-168 | writing the pieces leaves the memory that the plain writes leave |
| `GuestCopy.WriteGuestRanges` | components/device-transport/src/lib.rs:151-176 | succeeds exactly when all lie in RAM and then equals the sequential writes; a failure leaves whole batches before it |
| `MmioRegisters.RegisterSafety` | components/device-transport/src/lib.rs:665-858 | over every sequence of writes, signals and readings: ready queues have a power-of-two size and three nonzero rings inside RAM, accepted features were offered, status stays in the five steps with or without FAILED, a raised line has a cause, and without a pending change the host has the line's level |
| `MmioRegisters.FrozenWhileReady` | components/device-transport/src/lib.rs:698-759 | no event changes a queue and leaves it ready |
| `MmioRegisters.RefusedWritesKeep` | components/device-transport/src/lib.rs:665-740 | a refused write changes nothing |
| `MmioRegisters.DriveStatusOk` | components/device-transport/src/lib.rs:836-858 | an accepted status write resets, repeats, fails at the same stage or completes exactly the next stage; after a failure only a reset or a repetition is accepted |
| `MmioRegisters.SetUpQueue` | components/device-transport/src/lib.rs:698-759 | a driver's size, six address halves and ready bit leave exactly those registers, if and only if the queue was not ready, the size is valid and all rings lie in RAM |
| `MmioRegisters.SignalOk` | components/device-transport/src/lib.rs:811-818 | a signal keeps the invariant exactly when it does not raise the line without a cause |
| `MmioDriver.AcknowledgeLeaves` | components/device-transport/src/lib.rs:714-719 | an acknowledgement leaves exactly the causes it does not name, and the line falls exactly when none is left |
| `MmioDriver.AcknowledgeAll` | components/device-transport/src/lib.rs:714-719 | acknowledging every pending cause lowers the line |
| `MmioDriver.SignalAdds` | components/device-transport/src/lib.rs:811-818 | a signal adds exactly its causes and raises the line once the driver is ready |
| `MmioDriver.ResetRenews` | components/device-transport/src/lib.rs:798-804 | writing status zero makes the device new again, except for the feature selector and an unreported fall of the line |
| `MmioDriver.NextStageAccepted` | components/device-transport/src/lib.rs:836-858 | from every stage exactly the next one is accepted among all stages ahead |
| `MmioDriver.NotifyReady` | components/device-transport/src/lib.rs:767-778 | a doorbell is passed on exactly for a ready queue |
| `MmioDriver.NegotiateFeatures` | components/device-transport/src/lib.rs:672-690 | after a reset, writing both halves is accepted if and only if the host offers all the features, and leaves exactly those |
| `MmioTransport.Transport.constructor` | components/device-transport/src/lib.rs:554-582 | a new transport is reset and quiet |
| `MmioTransport.Transport.Write` | components/device-transport/src/lib.rs:665-740 | every register write has the specified effect and outcome and keeps the invariant; a refused one changes nothing, a ready queue is frozen and a raised line has a cause |
| `MmioTransport.HalfIsArithmetic` | components/device-transport/src/lib.rs:742-759 | masking and shifting a 64-bit register replaces its low or high half as a number |
| `MmioTransport.Transport.WriteSelectedQueue` | components/device-transport/src/lib.rs:698-759 | the masked 64-bit registers move as the arithmetic specification says, for the selected queue only, and not at all on an error |
| `MmioTransport.Transport.ArmQueue` | components/device-transport/src/lib.rs:779-797 | arms exactly when all three rings fit RAM |
| `MmioTransport.Transport.Signal` | components/device-transport/src/lib.rs:811-818 | records the cause unless failed, and raises the line once the driver is ready; for any bits, the invariant holds afterwards exactly unless there is no cause at all |
| `MmioTransport.Transport.TakeIrq` | components/device-transport/src/lib.rs:819-824 | afterwards the host has the line's level |
| `BlockDevice.ExecuteOk` | components/block/src/lib.rs:279-345 | a resumed request touches the guest only in its own epoch, and justifies the used length to come |
| `BlockDevice.ResumeOk` | components/block/src/lib.rs:462-532 | whatever happened while the disk was busy, resuming passes the request's head or none, and none when it is stale |
| `BlockDevice.RunOk` | components/block/src/lib.rs:242-532 | every run of publications, looks at the ring, disk answers, skips, resets, configurations and closing keeps the invariant |
| `BlockDevice.EpochIsolation` | components/block/src/lib.rs:176-199 | in every interleaving: each effect was made for the epoch then current with the device open; status OK, data and used length tell what the disk did; each used entry is followed by its cursor update and interrupt; since the last reset or skip the heads with used entries are the oldest published ones, each once, in order, and the cursor is their 16-bit count |
| `BlockDevice.StaleRequestLeavesNoTrace` | components/block/src/lib.rs:442-453 | a request that outlives its epoch leaves no trace |
| `BlockDevice.CurrentRequestCompletes` | components/block/src/lib.rs:462-532 | a current request whose guest writes succeed gets data when a read was answered in full, a status that is OK exactly when the disk did its work, a used entry, the cursor and an interrupt, in this order |
| `NodeTable.Table.constructor` | components/fs/src/transport.rs:90-107 | a new table holds at most the root |
| `NodeTable.Table.NodeId` | components/fs/src/transport.rs:189-216 | returns the present id with one more lookup, or one not issued before the counter wraps; it fails exactly when the table is full of nodes in use, and keeps the invariant unless the 64-bit counter starts over |
| `NodeTable.Table.Forget` | components/fs/src/transport.rs:218-226 | lookups drop, never below zero, and a node that is free becomes evictable |
| `NodeTable.Table.MarkUnusedIfUnheld` | components/fs/src/transport.rs:237-247 | adds exactly a disposable node |
| `NodeTable.Table.EvictUnusedNode` | components/fs/src/transport.rs:249-255 | removes the smallest evictable node, which is not the root, not looked up and not open |
| `NodeTable.Table.RepointNode` | components/fs/src/transport.rs:257-263 | changes only the path of a known file |
| `NodeTable.Table.IncrementLookup` | components/fs/src/transport.rs:265-270 | a node looked up again is not evictable |
| `NodeTable.Table.StoreHandle` | components/fs/src/transport.rs:496-516 | an open file's node is not evictable; fails exactly at the limit |
| `NodeTable.Table.StoreDirectory` | components/fs/src/transport/requests.rs:276-294 | likewise for directories |
| `NodeTable.Table.ReleaseFile` | components/fs/src/transport/requests.rs:296-309 | a node becomes evictable exactly when its last handle goes and it is not looked up |
| `NodeTable.Table.ReleaseDirectory` | components/fs/src/transport/requests.rs:311-318 | likewise for directories |
| `NodeTable.Table.ClearRuntime` | components/fs/src/transport.rs:1042-1047 | a reset keeps the root only |
| `Ioapic.Configure` | components/interrupt-controller/src/lib.rs:35-57 | refuses exactly too many slots or a route beyond the pins |
| `Ioapic.Controller.constructor` | components/interrupt-controller/src/lib.rs:49-56 | all entries masked, all lines low |
| `Ioapic.Controller.Line` | components/interrupt-controller/src/lib.rs:79-94 | a pin is the OR of its slots, a change is reported exactly when it happens, and reports of one line alternate |
| `Ioapic.Controller.IoapicLine` | components/interrupt-controller/src/lib.rs:96-102 | a rise on an unmasked pin is delivered at once, so an asserted unmasked pin has emitted its present entry since it rose |
| `Ioapic.Controller.Access` | components/interrupt-controller/src/lib.rs:59-76 | a write to an asserted pin's entry delivers it again under the new entry, which keeps that |
| `Ioapic.Controller.EndOfInterrupt` | components/interrupt-controller/src/lib.rs:104-110 | redelivers exactly the asserted pins whose entry is unmasked, level-triggered and has the vector, in pin order, with the fields of their entries |
| `Ioapic.DeliveredFields` | components/interrupt-controller/src/lib.rs:132-139 | an entry delivers nothing exactly when bit 16 of its low word is set; otherwise the vector is the lowest byte, the mode bit 15, and the destination the highest byte of the high word |
| `Ioapic.ProgramAndRaise` | components/interrupt-controller/src/lib.rs:59-139 | a driver that programs both words of an idle pin's entry reads them back, and a rise of a slot routed to it delivers exactly what they describe |

## Left out

- The host side of connections (`components/vsock-frontend/src/network.rs`, `agent.rs`, `components/agent`): only the calls it makes on the switch are modelled.
- Reading a transmit packet from its descriptors (`components/vsock-frontend/src/transport.rs:344-401`): a packet arrives with its data, of any length.
- Register reads and device configuration space: they return fields and add only easy members.
- Overflow of 64-bit connection numbers and epochs: the switch aborts on the first and the models count without bound.
- NodeTable.Table.NodeId: when the 64-bit counter starts over, the table's invariant is not promised afterwards, because ids are then reissued by design; the same holds of `StoreHandle` and `StoreDirectory`.
- NodeTable: paths to host files are opaque tokens, and replies to requests are not modelled.
- GuestCopy.ReadGuestRanges: does not model a failed allocation of the result, which depends on the host.
- QueueEngine.VsockQueues.ProcessPending: the outcomes and buffer writes of receive steps and whether packets carry payload are parameters, and buffers do not overlap the used rings; what the steps do to the switch is in `ReceiveQueue` and `VsockSwitch`.
- Notification.NoLostNotification: positions count without wrapping and the queue is not disabled except by a reset; `AvailableRing.SnapshotIsOldest` relates positions to 16-bit cursors.
- Ioapic: the choice between line and IOAPIC mode at configuration.
- BlockDevice: disk contents, the bytes of the used ring (as in `UsedHistory`) and request decoding; a step is told what the chain decodes to and how the disk answers.
- That a retired peer receives a reset when its queue is full, that rejected resets are served fairly, and that setting DRIVER_OK raises earlier signals: the code promises none of these.
- Boot, memory balloon, FUSE request execution, the VMM process and the guest agent.
- Locks, wakers and Rust allocation.
