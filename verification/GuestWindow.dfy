/** Credit in the other direction (section 5.10.6.3 of VIRTIO 1.2): data from the device never exceeds the receive buffer
    that a guest advertises, whatever the delays. */
module GuestWindow {
  import opened Words
  import opened VsockWire
  import opened StreamModel
  import opened StreamInvariant

  /** A packet of the guest; `read` is the total behind its forwarded count. */
  datatype Packet = Packet(h: Header, data: seq<Byte>, read: nat)

  /** The device's end of an open connection, the two channels, and a guest that has received and read so many bytes. */
  datatype System = System(
    device: Stream, toGuest: seq<Reply>, toDevice: seq<Packet>, window: nat, received: nat, read: nat)

  datatype Step =
    | GuestSend(h: Header, data: seq<Byte>)
    | GuestTake
    | GuestRead(count: nat)
    | DeviceRx
    | DeviceDeliver(data: seq<Byte>)
    | DeviceShutdown
    | DeviceRequestCredit
    | DeviceConsume(count: nat)
    | DeviceTake(maxBytes: nat)

  /** The guest may send anything at any time, with its window and what it has read so far; it reads what it received. */
  predicate Enabled(sys: System, step: Step) {
    match step
    case GuestSend(h, data) =>
      && h.srcPort == sys.device.guestPort && h.dstPort == sys.device.hostPort
      && h.bufAlloc == sys.window && h.fwdCnt == Wrap32(sys.read)
    case GuestTake => sys.toGuest != []
    case GuestRead(count) => sys.read + count <= sys.received
    case DeviceRx => sys.toDevice != []
    case _ => true
  }

  /** A connection that is dropped is retired at once. */
  function WithDevice(sys: System, device: Stream): System {
    sys.(device := if device.Live() then device else Retire(device))
  }

  function Act(s: Stream, step: Step): Stream {
    match step
    case DeviceDeliver(data) => Deliver(s, data).0
    case DeviceShutdown => Shutdown(s).0
    case DeviceRequestCredit => RequestCredit(s).0
    case DeviceConsume(count) => ConsumeUpstream(s, count)
    case _ => s
  }

  function Next(sys: System, step: Step): System
    requires Enabled(sys, step)
  {
    match step
    case GuestSend(h, data) => sys.(toDevice := sys.toDevice + [Packet(h, data, sys.read)])
    case GuestTake => sys.(toGuest := sys.toGuest[1..], received := sys.received + |sys.toGuest[0].payload|)
    case GuestRead(count) => sys.(read := sys.read + count)
    case DeviceRx =>
      var p := sys.toDevice[0];
      var popped := sys.(toDevice := sys.toDevice[1..]);
      if !sys.device.Live() then popped else WithDevice(popped, Rx(sys.device, p.h, p.data))
    case DeviceTake(maxBytes) =>
      var (device, reply) := TakeReply(sys.device, maxBytes);
      if reply.None? then sys else sys.(device := device, toGuest := sys.toGuest + [reply.value])
    case _ => if sys.device.Live() then WithDevice(sys, Act(sys.device, step)) else sys
  }

  // ----- The invariant

  /** Bytes accepted for the guest that it has not received yet. */
  function Coming(sys: System): nat {
    QueueBytes(sys.toGuest) + QueueBytes(sys.device.replies)
  }

  /** Totals in the channel never decrease and lie between the last one the device accepted and what was read. */
  predicate Monotone(packets: seq<Packet>, low: nat, high: nat) {
    && (forall i :: 0 <= i < |packets| ==> low <= packets[i].read <= high)
    && (forall i, j :: 0 <= i < j < |packets| ==> packets[i].read <= packets[j].read)
  }

  predicate PacketOk(p: Packet, s: Stream, window: nat) {
    p.h.srcPort == s.guestPort && p.h.dstPort == s.hostPort && p.h.bufAlloc == window && p.h.fwdCnt == Wrap32(p.read)
  }

  /** The device counts at least what it made for the guest, and never beyond the window from what the guest has read. */
  predicate ConnInvariant(sys: System, c: Conn) {
    && c.peerBufAlloc == sys.window
    && sys.received + Coming(sys) <= c.sent <= c.acked + sys.window
    && c.acked <= sys.read
    && Monotone(sys.toDevice, c.acked, sys.read)
  }

  predicate SystemOk(sys: System) {
    && StreamOk(sys.device)
    && sys.read <= sys.received
    && (forall i :: 0 <= i < |sys.toDevice| ==> PacketOk(sys.toDevice[i], sys.device, sys.window))
    && sys.received + Coming(sys) <= sys.read + sys.window
    && !sys.device.connecting
    && (sys.device.conn.Some? ==> ConnInvariant(sys, sys.device.conn.value))
  }

  // ----- The device

  /** The connection lives on: same window and total sent, an acknowledged total of either kind, no more data queued. */
  predicate Stays(s: Stream, t: Stream, read: nat)
    requires s.conn.Some?
  {
    t.conn.Some? ==>
      && t.conn.value.sent == s.conn.value.sent && t.conn.value.peerBufAlloc == s.conn.value.peerBufAlloc
      && (t.conn.value.acked == s.conn.value.acked || t.conn.value.acked == read)
      && QueueBytes(t.replies) <= QueueBytes(s.replies)
  }

  lemma RespondStays(s: Stream, fwd: nat, op: nat, flags: nat)
    requires s.conn.Some?
    ensures var t := Respond(s, fwd, op, flags).0;
            && t.conn.Some? && t.connecting == s.connecting && t.conn.value == s.conn.value.(advertised := t.conn.value.advertised)
            && QueueBytes(t.replies) == QueueBytes(s.replies)
  {
    hide QueuePayload;
    if EndsWithCreditUpdate(s.replies) { PayloadRestamp(s.replies, fwd); }
    PayloadAppend(s.replies, HostReply(s, op, flags, fwd, []));
  }

  /** A wrapped acknowledgement between the last accepted one and the total sent is taken for what it is. */
  lemma NoteExact(s: Stream, h: Header, read: nat)
    requires StreamOk(s) && s.conn.Some? && h.fwdCnt == Wrap32(read)
    requires s.conn.value.acked <= read <= s.conn.value.sent && h.bufAlloc == s.conn.value.peerBufAlloc
    ensures NotePeerCredit(s, h) == (s.(conn := Some(Credited(s.conn.value, h.bufAlloc, read))), true)
  {
    hide Wrap32, Nearest;
    NearestIsUnique(h.fwdCnt, s.conn.value.sent, read);
  }

  lemma RetainShrinks(s: Stream)
    requires StreamOk(s)
    ensures QueueBytes(Retain(s.replies, OP_RW, false)) <= QueueBytes(s.replies)
  {
    DroppedData(s);
  }

  lemma RxStays(s: Stream, h: Header, data: seq<Byte>, read: nat)
    requires StreamOk(s) && s.conn.Some? && h.fwdCnt == Wrap32(read)
    requires s.conn.value.acked <= read <= s.conn.value.sent && h.bufAlloc == s.conn.value.peerBufAlloc
    ensures Stays(s, Rx(s, h, data), read)
    ensures !Rx(s, h, data).connecting
  {
    hide Wrap32, QueuePayload, Respond, NotePeerCredit, Retain;
    Budgets(s);
    NoteExact(s, h, read);
    var noted := s.(conn := Some(Credited(s.conn.value, h.bufAlloc, read)));
    RetainShrinks(s);
    var asked := noted.(conn := Some(noted.conn.value.(receiveCreditRequested := noted.upstream != [])));
    RespondStays(asked, asked.conn.value.consumed, OP_CREDIT_UPDATE, 0);
  }

  /** What the host side does; only accepted data adds to what was sent, by as much as it queues, and within the window. */
  lemma ActStays(s: Stream, step: Step)
    requires StreamOk(s) && s.conn.Some? && !step.DeviceDeliver?
    ensures Stays(s, Act(s, step), s.conn.value.acked)
    ensures !Act(s, step).connecting
  {
    hide QueuePayload, Respond;
    Budgets(s);
    var c := s.conn.value;
    match step
    case DeviceShutdown => RespondStays(s.(conn := Some(c.(txShutdown := true))), c.consumed, OP_SHUTDOWN, FLAG_SHUTDOWN_SEND);
    case DeviceRequestCredit => PayloadAppend(s.replies, HostReply(s, OP_CREDIT_REQUEST, 0, c.consumed, []));
    case DeviceConsume(count) =>
      var n := Min(count, |s.upstream|);
      if n != 0 {
        var drained := s.(upstream := s.upstream[n..]);
        RespondStays(drained.(conn := Some(Advanced(drained, n))), c.consumed + n, OP_CREDIT_UPDATE, 0);
      }
    case _ =>
  }

  /** Data is accepted exactly when the connection still sends and the data fits a packet, the guest's window and the
      unacknowledged budget counted from its last acknowledgement, the queue's bytes and its unreserved slots. */
  lemma DeliverAcceptsIff(s: Stream, data: seq<Byte>)
    requires StreamOk(s)
    ensures Deliver(s, data).1.Ok? <==>
              && s.conn.Some? && !s.conn.value.txShutdown
              && (data == [] ||
                  var c := s.conn.value;
                  && |data| <= MAX_PACKET_DATA_BYTES
                  && c.sent + |data| <= c.acked + c.peerBufAlloc && c.sent + |data| <= c.acked + s.maxTx
                  && QueueBytes(s.replies) + |data| <= s.maxTx
                  && |s.replies| + RESERVED_CONTROL_REPLY_SLOTS < MAX_QUEUED_REPLIES)
  {
    hide QueuePayload, RepliesOk;
  }

  lemma DeliverFits(s: Stream, data: seq<Byte>)
    requires StreamOk(s) && s.conn.Some?
    ensures var t := Deliver(s, data).0;
            && t.conn.Some? && !t.connecting
            && t.conn.value.acked == s.conn.value.acked && t.conn.value.peerBufAlloc == s.conn.value.peerBufAlloc
            && QueueBytes(t.replies) - QueueBytes(s.replies) == t.conn.value.sent - s.conn.value.sent
            && (t.conn.value.sent == s.conn.value.sent || t.conn.value.sent <= t.conn.value.acked + t.conn.value.peerBufAlloc)
  {
    hide QueuePayload;
    Budgets(s);
    var c := s.conn.value;
    PayloadAppend(s.replies, HostReply(s, OP_RW, 0, c.consumed, data));
    PayloadAppend(s.replies, HostReply(s, OP_CREDIT_REQUEST, 0, c.consumed, []));
  }

  // ----- Steps

  lemma DeadQueue(s: Stream)
    requires StreamOk(s)
    ensures StreamOk(Retire(s)) && !Retire(s).Live() && SameStream(s, Retire(s)) && QueueBytes(Retire(s).replies) == 0
  {
    RetireKeeps(s);
  }

  /** The device moved; a dropped connection takes its queued data with it. */
  lemma DeviceMoves(sys: System, t: Stream, rest: seq<Packet>, low: nat)
    requires SystemOk(sys) && sys.device.conn.Some? && Keeps(sys.device, t) && !t.connecting && Stays(sys.device, t, low)
    requires sys.device.conn.value.acked <= low <= sys.read && Monotone(rest, low, sys.read)
    requires forall i :: 0 <= i < |rest| ==> PacketOk(rest[i], sys.device, sys.window)
    ensures SystemOk(WithDevice(sys.(toDevice := rest), t))
  {
    hide StreamOk, QueuePayload, Wrap32, Retire, Ordered;
    DeadQueue(t);
  }

  lemma RxOk(sys: System)
    requires SystemOk(sys) && sys.toDevice != []
    ensures SystemOk(Next(sys, DeviceRx))
  {
    hide StreamOk, QueuePayload, Wrap32, Rx, Retire;
    if sys.device.conn.Some? {
      var p := sys.toDevice[0];
      assert PacketOk(p, sys.device, sys.window);
      RxKeeps(sys.device, p.h, p.data);
      RxStays(sys.device, p.h, p.data, p.read);
      DeviceMoves(sys, Rx(sys.device, p.h, p.data), sys.toDevice[1..], p.read);
    }
  }

  lemma ActOk(sys: System, step: Step)
    requires SystemOk(sys) && sys.device.conn.Some?
    requires step.DeviceShutdown? || step.DeviceRequestCredit? || step.DeviceConsume?
    ensures SystemOk(WithDevice(sys, Act(sys.device, step)))
  {
    hide StreamOk, QueuePayload, Wrap32, Act, Retire, Ordered;
    var s := sys.device;
    ActKeeps(s, step);
    ActStays(s, step);
    DeviceMoves(sys, Act(s, step), sys.toDevice, s.conn.value.acked);
    assert sys.(toDevice := sys.toDevice) == sys;
  }

  lemma ActKeeps(s: Stream, step: Step)
    requires StreamOk(s) && s.conn.Some?
    ensures Keeps(s, Act(s, step))
  {
    match step
    case DeviceDeliver(data) => DeliverKeeps(s, data);
    case DeviceShutdown => ShutdownKeeps(s);
    case DeviceRequestCredit => RequestCreditKeeps(s);
    case DeviceConsume(count) => ConsumeUpstreamKeeps(s, count);
    case _ =>
  }

  lemma DeliverOk(sys: System, data: seq<Byte>)
    requires SystemOk(sys) && sys.device.conn.Some?
    ensures SystemOk(WithDevice(sys, Deliver(sys.device, data).0))
  {
    hide StreamOk, QueuePayload, Wrap32, Deliver, Retire, Ordered;
    DeliverFits(sys.device, data);
    DeliverKeeps(sys.device, data);
  }

  /** Moving the head of the queue into the channel, and out of it, moves its bytes. */
  lemma TakeOk(sys: System, maxBytes: nat)
    requires SystemOk(sys)
    ensures SystemOk(Next(sys, DeviceTake(maxBytes)))
  {
    hide StreamOk, QueuePayload, Wrap32;
    var s := sys.device;
    TakeReplyKeeps(s, maxBytes);
    if TakeReply(s, maxBytes).1.Some? {
      PayloadAppend(sys.toGuest, s.replies[0]);
      FirstPayload(s.replies);
    }
  }

  lemma FirstPayload(replies: seq<Reply>)
    requires replies != []
    ensures QueueBytes(replies) == |replies[0].payload| + QueueBytes(replies[1..])
  {
  }

  lemma GuestOk(sys: System, step: Step)
    requires SystemOk(sys) && Enabled(sys, step) && (step.GuestSend? || step.GuestTake? || step.GuestRead?)
    ensures SystemOk(Next(sys, step))
  {
    hide StreamOk, QueuePayload, Wrap32;
    if step.GuestTake? { FirstPayload(sys.toGuest); }
  }

  lemma StepOk(sys: System, step: Step)
    requires SystemOk(sys) && Enabled(sys, step)
    ensures SystemOk(Next(sys, step))
  {
    hide SystemOk, WithDevice, Act, Deliver, TakeReply, Rx;
    assert !sys.device.connecting by { NotConnecting(sys); }
    match step
    case GuestSend(_, _) => GuestOk(sys, step);
    case GuestTake => GuestOk(sys, step);
    case GuestRead(_) => GuestOk(sys, step);
    case DeviceRx => RxOk(sys);
    case DeviceTake(maxBytes) => TakeOk(sys, maxBytes);
    case DeviceDeliver(data) =>
      if sys.device.conn.Some? {
        DeliverOk(sys, data);
        Delivers(sys.device, step);
      }
    case _ => if sys.device.conn.Some? { ActOk(sys, step); }
  }

  lemma NotConnecting(sys: System)
    requires SystemOk(sys)
    ensures !sys.device.connecting
  {
  }

  lemma Delivers(s: Stream, step: Step)
    requires step.DeviceDeliver?
    ensures Act(s, step) == Deliver(s, step.data).0
  {
  }

  // ----- Whole runs

  /** A connection just opened, with the guest's window. */
  predicate IsOpened(sys: System) {
    && StreamOk(sys.device) && !sys.device.connecting && sys.device.conn == Some(NewConn(sys.window))
    && QueueBytes(sys.device.replies) == 0
    && sys.toGuest == [] && sys.toDevice == [] && sys.received == sys.read == 0
  }

  predicate Reaches(sys: System, steps: seq<Step>, after: System)
    decreases |steps|
  {
    if steps == [] then after == sys
    else Enabled(sys, steps[0]) && Reaches(Next(sys, steps[0]), steps[1..], after)
  }

  lemma {:induction false} RunOk(sys: System, steps: seq<Step>, after: System)
    requires SystemOk(sys) && Reaches(sys, steps, after)
    ensures SystemOk(after)
    decreases |steps|
  {
    hide SystemOk, Next, Enabled;
    if steps != [] {
      StepOk(sys, steps[0]);
      RunOk(Next(sys, steps[0]), steps[1..], after);
    }
  }

  /** In every interleaving the bytes the guest holds unread, those in flight to it and those queued for it fit its window
      together, so no data packet finds its receive buffer full. */
  lemma GuestNeverOverflows(opened_: System, steps: seq<Step>, sys: System)
    requires IsOpened(opened_) && Reaches(opened_, steps, sys)
    ensures sys.read <= sys.received && (sys.received - sys.read) + Coming(sys) <= sys.window
    ensures sys.toGuest != [] ==> (sys.received - sys.read) + |sys.toGuest[0].payload| <= sys.window
  {
    hide Next, Enabled, Reaches;
    assert QueuePayload([]) == [];
    RunOk(opened_, steps, sys);
    hide QueuePayload;
    if sys.toGuest != [] { FirstPayload(sys.toGuest); }
  }
}
