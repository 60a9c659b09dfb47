/** The two-party credit protocol of section 5.10.6.3 of VIRTIO 1.2: one connection between the device stream and
    a guest that sends data only within the credit it computes from the last header it received.

    Both directions are in-order channels with arbitrary delay. Everything else about the guest is unconstrained:
    its own credit fields may hold any value, and it may shut down, ask for credit or reset at any time. */
module CreditProtocol {
  import opened Words
  import opened VsockWire
  import opened StreamModel
  import opened StreamInvariant

  datatype Phase = Idle | Requested | Open | Closed

  /** The guest's u32 view of its sending direction. */
  datatype Guest = Guest(phase: Phase, txCnt: nat, peerBufAlloc: nat, peerFwdCnt: nat)

  /** `sent`, `seen` and `taken` are history: bytes the guest sent, the total behind the last header it received,
      and the total behind the last header the device handed to the channel. */
  datatype System = System(
    device: Stream, started: bool, toGuest: seq<Reply>, toDevice: seq<(Header, seq<Byte>)>, guest: Guest,
    sent: nat, seen: nat, taken: nat)

  datatype Step =
    | GuestRequest(h: Header)
    | GuestSend(h: Header, data: seq<Byte>)
    | GuestControl(h: Header)
    | GuestReset(h: Header)
    | GuestReceive(answer: Header)
    | GuestReceiveFragment
    | DiscardData
    | DeviceConnect
    | DeviceRx
    | DeviceDeliver(data: seq<Byte>)
    | DeviceShutdown
    | DeviceRequestCredit
    | DeviceConsume(count: nat)
    | DeviceTake(maxBytes: nat)

  /** The peer's free receive space as the guest computes it on u32 counters. */
  function SendCredit(g: Guest): int {
    g.peerBufAlloc - Wrap32(g.txCnt - g.peerFwdCnt)
  }

  predicate Addressed(sys: System, h: Header) {
    h.srcPort == sys.device.guestPort && h.dstPort == sys.device.hostPort
  }

  predicate Enabled(sys: System, step: Step) {
    match step
    case GuestRequest(h) => sys.guest.phase == Idle && Addressed(sys, h) && h.op == OP_REQUEST
    case GuestSend(h, data) => sys.guest.phase == Open && Addressed(sys, h) && h.op == OP_RW && |data| <= SendCredit(sys.guest)
    case GuestControl(h) => sys.guest.phase == Open && Addressed(sys, h) && h.op in {OP_SHUTDOWN, OP_CREDIT_UPDATE, OP_CREDIT_REQUEST}
    case GuestReset(h) => Addressed(sys, h) && h.op == OP_RST
    case GuestReceive(answer) => sys.toGuest != [] && Addressed(sys, answer) && answer.op == OP_RESPONSE
    case GuestReceiveFragment => sys.toGuest != [] && sys.toGuest[0].op == OP_RW
    case DiscardData => sys.toGuest != [] && sys.toGuest[0].op == OP_RW
    case DeviceConnect => !sys.started
    case DeviceRx => sys.toDevice != []
    case _ => true
  }

  /** The guest takes the credit fields of every header it accepts. */
  function Observe(sys: System, r: Reply): System {
    sys.(guest := sys.guest.(phase := Open, peerBufAlloc := r.bufAlloc, peerFwdCnt := Wrap32(r.fwd)), seen := r.fwd)
  }

  function Receive(sys: System, r: Reply, answer: Option<Header>): System {
    if r.op == OP_RST then sys.(guest := sys.guest.(phase := Closed))
    else if sys.guest.phase == Open || (sys.guest.phase == Requested && r.op == OP_RESPONSE) then Observe(sys, r)
    else if sys.guest.phase == Idle && r.op == OP_REQUEST && answer.Some? then
      Observe(sys, r).(toDevice := sys.toDevice + [(answer.value, [])])
    else sys
  }

  function Transmit(sys: System, h: Header, data: seq<Byte>): System {
    sys.(toDevice := sys.toDevice + [(h, data)])
  }

  /** A connection that is dropped is retired at once, and nothing more reaches its stream. */
  function WithDevice(sys: System, device: Stream): System {
    sys.(device := if sys.device.Live() && !device.Live() then Retire(device) else device,
         started := sys.started || device.Live())
  }

  /** What the host side of the device does to the stream. */
  function Act(s: Stream, step: Step): Stream {
    match step
    case DeviceConnect => Request(s).0
    case DeviceDeliver(data) => Deliver(s, data).0
    case DeviceShutdown => Shutdown(s).0
    case DeviceRequestCredit => RequestCredit(s).0
    case DeviceConsume(count) => ConsumeUpstream(s, count)
    case _ => s
  }

  function Next(sys: System, step: Step): System
    requires Enabled(sys, step)
  {
    var ended := sys.started && !sys.device.Live();
    match step
    case GuestRequest(h) => Transmit(sys, h, []).(guest := sys.guest.(phase := Requested))
    case GuestSend(h, data) =>
      Transmit(sys, h, data).(guest := sys.guest.(txCnt := Wrap32(sys.guest.txCnt + |data|)), sent := sys.sent + |data|)
    case GuestControl(h) => Transmit(sys, h, [])
    case GuestReset(h) => Transmit(sys, h, []).(guest := sys.guest.(phase := Closed))
    case GuestReceive(answer) => Receive(sys, sys.toGuest[0], Some(answer)).(toGuest := sys.toGuest[1..])
    case GuestReceiveFragment => Receive(sys, sys.toGuest[0], None)
    case DiscardData => sys.(toGuest := sys.toGuest[1..])
    case DeviceRx =>
      var (h, data) := sys.toDevice[0];
      var popped := sys.(toDevice := sys.toDevice[1..]);
      if ended then popped else WithDevice(popped, Rx(sys.device, h, data))
    case DeviceTake(maxBytes) =>
      var (device, reply) := TakeReply(sys.device, maxBytes);
      if reply.None? then sys
      else sys.(device := device, toGuest := sys.toGuest + [reply.value],
                taken := if IsRst(reply.value) then sys.taken else reply.value.fwd)
    case _ => WithDevice(sys, Act(sys.device, step))
  }

  predicate Initial(sys: System) {
    && StreamOk(sys.device) && Ordered(sys.device) && !sys.device.Live() && !sys.started
    && sys.toGuest == [] && sys.toDevice == []
    && sys.guest == Guest(Idle, 0, 0, 0)
    && sys.sent == sys.seen == sys.taken == 0
  }

  predicate Run(states: seq<System>, steps: seq<Step>) {
    && |states| == |steps| + 1
    && Initial(states[0])
    && forall i :: 0 <= i < |steps| ==> Enabled(states[i], steps[i]) && states[i + 1] == Next(states[i], steps[i])
  }

  // ----- Invariant

  /** Data bytes in flight towards the device. */
  function InFlight(packets: seq<(Header, seq<Byte>)>): nat {
    if packets == [] then 0 else |packets[0].1| + InFlight(packets[1..])
  }

  function Received(s: Stream): nat {
    Consumed(s) + |s.upstream|
  }

  predicate Floor(replies: seq<Reply>, f: nat) {
    forall i :: 0 <= i < |replies| && !IsRst(replies[i]) ==> f <= replies[i].fwd
  }

  /** Totals in the channel never decrease and lie between the last one received and the last one sent. */
  predicate Monotone(replies: seq<Reply>, low: nat, high: nat) {
    && (forall i, j {:trigger NoLater(replies[i], replies[j])} ::
          0 <= i < j < |replies| ==> NoLater(replies[i], replies[j]))
    && (forall i :: 0 <= i < |replies| && !IsRst(replies[i]) ==> low <= replies[i].fwd <= high)
  }

  predicate NoLater(r: Reply, later: Reply) {
    !IsRst(r) && !IsRst(later) ==> r.fwd <= later.fwd
  }

  predicate PacketsOk(guestPort: nat, hostPort: nat, toDevice: seq<(Header, seq<Byte>)>) {
    forall i :: 0 <= i < |toDevice| ==> PacketOk(guestPort, hostPort, toDevice[i])
  }

  predicate PacketOk(guestPort: nat, hostPort: nat, p: (Header, seq<Byte>)) {
    p.0.srcPort == guestPort && p.0.dstPort == hostPort && (p.1 != [] ==> p.0.op == OP_RW)
  }

  /** The guest's counters are the wrapped history, and it never sent beyond the window it last saw. */
  predicate GuestOk(guest: Guest, rxAlloc: nat, sent: nat, seen: nat) {
    && (guest.phase == Open ==>
          guest.peerBufAlloc == rxAlloc && guest.txCnt == Wrap32(sent) && guest.peerFwdCnt == Wrap32(seen))
    && (guest.phase == Idle || guest.phase == Requested ==> sent == seen == guest.txCnt == 0)
    && seen <= sent <= seen + rxAlloc
  }

  predicate ChannelOk(guestPort: nat, hostPort: nat, rxAlloc: nat, started: bool, toGuest: seq<Reply>, seen: nat, taken: nat) {
    && RepliesOk(guestPort, hostPort, rxAlloc, toGuest)
    && (!started ==> OnlyResets(toGuest) && taken == 0)
    && Monotone(toGuest, seen, taken)
    && seen <= taken
  }

  predicate ChannelInvariant(sys: System, toGuest: seq<Reply>, seen: nat) {
    ChannelOk(sys.device.guestPort, sys.device.hostPort, sys.device.rxAlloc, sys.started, toGuest, seen, sys.taken)
  }

  predicate DeviceOk(device: Stream, started: bool, inFlight: nat, sent: nat, taken: nat) {
    && StreamOk(device)
    && Ordered(device)
    && Floor(device.replies, taken)
    && taken <= sent
    && (device.Live() ==> started)
    && (device.Live() || !started ==> taken <= Consumed(device) && Received(device) + inFlight == sent)
  }

  predicate SystemOk(sys: System) {
    && (sys.guest.phase == Open || sys.sent > 0 ==> sys.started)
    && PacketsOk(sys.device.guestPort, sys.device.hostPort, sys.toDevice)
    && GuestOk(sys.guest, sys.device.rxAlloc, sys.sent, sys.seen)
    && ChannelInvariant(sys, sys.toGuest, sys.seen)
    && DeviceOk(sys.device, sys.started, InFlight(sys.toDevice), sys.sent, sys.taken)
  }

  // ----- What device operations do to queued totals and received bytes

  lemma RespondFloor(s: Stream, op: nat, flags: nat, f: nat)
    requires Floor(s.replies, f) && f <= Consumed(s)
    ensures var t := Respond(s, Consumed(s), op, flags).0;
            Floor(t.replies, f) && Consumed(t) == Consumed(s) && t.upstream == s.upstream
  {
  }

  lemma NoteFloor(s: Stream, h: Header, f: nat)
    requires StreamOk(s) && Floor(s.replies, f) && f <= Consumed(s)
    ensures var (t, kept) := NotePeerCredit(s, h);
            && (kept ==> Floor(t.replies, f) && Consumed(t) == Consumed(s) && t.upstream == s.upstream && t.conn.Some?)
            && (!kept && s.conn.Some? ==> !t.Live())
  {
    if s.conn.Some? {
      var ack := Nearest(h.fwdCnt, s.conn.value.sent);
      if s.conn.value.acked <= ack <= s.conn.value.sent {
        RespondFloor(s.(conn := Some(Credited(s.conn.value, h.bufAlloc, ack))), OP_CREDIT_UPDATE, 0, f);
      }
    }
  }

  lemma OnShutdownFloor(s: Stream, flags: nat, f: nat)
    requires s.conn.Some? && Floor(s.replies, f)
    ensures Floor(OnShutdown(s, flags).replies, f)
    ensures Consumed(OnShutdown(s, flags)) == Consumed(s) && OnShutdown(s, flags).upstream == s.upstream
  {
    RetainIsSublist(s.replies, OP_RW, false);
  }

  /** What a surviving connection keeps: no queued total below `f`, and `n` more bytes received. */
  predicate Grows(s: Stream, t: Stream, n: nat, f: nat) {
    t.Live() ==> Floor(t.replies, f) && f <= Consumed(t) && Received(t) == Received(s) + n
  }

  lemma OnConnectedGrows(s: Stream, h: Header, data: seq<Byte>, f: nat)
    requires StreamOk(s) && s.conn.Some? && Floor(s.replies, f) && f <= Consumed(s)
    requires (data != [] ==> h.op == OP_RW) && OP_SHUTDOWN <= h.op <= OP_CREDIT_REQUEST
    ensures Grows(s, OnConnected(s, h, data), |data|, f)
  {
    hide QueuePayload, NotePeerCredit, StreamOk, OnShutdown, Respond;
    NoteFloor(s, h, f);
    var (noted, kept) := NotePeerCredit(s, h);
    if kept && noted.conn.Some? {
      OnShutdownFloor(noted, h.flags, f);
      RespondFloor(noted.(conn := Some(noted.conn.value.(receiveCreditRequested := noted.upstream != []))), OP_CREDIT_UPDATE, 0, f);
    }
  }

  /** While the connection survives a packet, the device has received exactly the packet's data. */
  lemma RxGrows(s: Stream, h: Header, data: seq<Byte>, f: nat)
    requires StreamOk(s) && Floor(s.replies, f) && f <= Consumed(s)
    requires data != [] ==> h.op == OP_RW
    ensures Grows(s, Rx(s, h, data), |data|, f)
  {
    hide QueuePayload;
    if s.conn.Some? && OP_SHUTDOWN <= h.op <= OP_CREDIT_REQUEST {
      OnConnectedGrows(s, h, data, f);
    } else if !s.Live() && h.op == OP_REQUEST {
      RespondFloor(s, OP_RESPONSE, 0, f);
    }
  }

  lemma ConsumeGrows(s: Stream, count: nat, f: nat)
    requires StreamOk(s) && Floor(s.replies, f) && f <= Consumed(s)
    ensures Grows(s, ConsumeUpstream(s, count), 0, f)
  {
    var n := Min(count, |s.upstream|);
    if n != 0 {
      var drained := s.(upstream := s.upstream[n..]);
      RespondFloor(drained.(conn := Some(Advanced(drained, n))), OP_CREDIT_UPDATE, 0, f);
    }
  }

  lemma LocalGrows(s: Stream, data: seq<Byte>, f: nat)
    requires StreamOk(s) && Floor(s.replies, f) && f <= Consumed(s)
    ensures Grows(s, Deliver(s, data).0, 0, f)
    ensures Grows(s, Shutdown(s).0, 0, f)
    ensures Grows(s, RequestCredit(s).0, 0, f)
    ensures Grows(s, Request(s).0, 0, f)
  {
    hide QueuePayload;
  }

  // ----- Steps of the system

  lemma {:induction false} InFlightAppend(packets: seq<(Header, seq<Byte>)>, p: (Header, seq<Byte>))
    ensures InFlight(packets + [p]) == InFlight(packets) + |p.1|
  {
    if packets == [] {
      assert packets + [p] == [p];
    } else {
      InFlightAppend(packets[1..], p);
      assert (packets + [p])[1..] == packets[1..] + [p];
    }
  }

  /** The guest's modular credit is the true one: the window minus the bytes not yet known to be consumed. */
  lemma SendCreditIsExact(guest: Guest, rxAlloc: nat, sent: nat, seen: nat)
    requires GuestOk(guest, rxAlloc, sent, seen) && guest.phase == Open && rxAlloc < HALF_U32
    ensures SendCredit(guest) == seen + rxAlloc - sent
  {
    hide Wrap32;
    WrappedDifference(sent, seen);
  }

  lemma GuestSends(sys: System, step: Step)
    requires SystemOk(sys) && Enabled(sys, step)
    requires step.GuestRequest? || step.GuestSend? || step.GuestControl? || step.GuestReset?
    ensures SystemOk(Next(sys, step))
  {
    hide Wrap32, StreamOk, InOrder, ChannelOk;
    InFlightAppend(sys.toDevice, (step.h, if step.GuestSend? then step.data else []));
    if step.GuestSend? {
      Budgets(sys.device);
      SendCreditIsExact(sys.guest, sys.device.rxAlloc, sys.sent, sys.seen);
      WrappedSum(sys.sent, |step.data|);
    }
  }

  /** The first reply in the channel bounds the ones behind it. */
  lemma ChannelHead(sys: System)
    requires SystemOk(sys) && sys.toGuest != []
    ensures var r := sys.toGuest[0]; var rest := sys.toGuest[1..];
            && ReplyOk(sys.device.guestPort, sys.device.hostPort, sys.device.rxAlloc, r)
            && (!IsRst(r) ==> sys.started)
            && ChannelInvariant(sys, rest, sys.seen)
            && (!IsRst(r) ==> && sys.seen <= r.fwd && r.fwd <= sys.sent
                              && ChannelInvariant(sys, rest, r.fwd)
                              && ChannelInvariant(sys, sys.toGuest, r.fwd))
  {
    hide StreamOk, ReplyOk;
    assert forall j :: 1 <= j < |sys.toGuest| ==> NoLater(sys.toGuest[0], sys.toGuest[j]);
  }

  lemma GuestReceives(sys: System, step: Step)
    requires SystemOk(sys) && Enabled(sys, step)
    requires step.GuestReceive? || step.GuestReceiveFragment? || step.DiscardData?
    ensures SystemOk(Next(sys, step))
  {
    hide Wrap32, DeviceOk, ChannelOk;
    ChannelHead(sys);
    WrapSmall(0);
    if step.GuestReceive? { InFlightAppend(sys.toDevice, (step.answer, [])); }
  }

  lemma DeviceTakes(sys: System, maxBytes: nat)
    requires SystemOk(sys)
    ensures SystemOk(Next(sys, DeviceTake(maxBytes)))
  {
    hide Wrap32, QueuePayload, PacketsOk, GuestOk;
    TakeReplyKeeps(sys.device, maxBytes);
    assert sys.device.Live() ==>
        forall j :: 1 <= j < |sys.device.replies| ==> Precedes(sys.device.replies[0], sys.device.replies[j]);
  }

  /** The device part of the invariant, for a device that received the bytes that left the channel. */
  lemma DeviceStaysOk(s: Stream, device: Stream, started: bool, inFlight: nat, n: nat, sent: nat, taken: nat)
    requires DeviceOk(s, started, inFlight + n, sent, taken) && (s.Live() || !started)
    requires Keeps(s, device) && Grows(s, device, n, taken) && (!s.Live() ==> n == 0)
    requires !s.Live() ==> taken == 0
    ensures DeviceOk(if s.Live() && !device.Live() then Retire(device) else device, started || device.Live(), inFlight, sent, taken)
  {
    hide StreamOk, InOrder, Retire;
    if s.Live() && !device.Live() { RetireKeeps(device); }
    Budgets(device);
    Budgets(s);
  }

  lemma DeviceMoves(sys: System, device: Stream, rest: seq<(Header, seq<Byte>)>, n: nat)
    requires SystemOk(sys) && (sys.device.Live() || !sys.started)
    requires Keeps(sys.device, device) && Grows(sys.device, device, n, sys.taken)
    requires InFlight(rest) + n == InFlight(sys.toDevice) && (!sys.device.Live() ==> n == 0)
    requires PacketsOk(sys.device.guestPort, sys.device.hostPort, rest)
    ensures SystemOk(WithDevice(sys, device).(toDevice := rest))
  {
    hide Wrap32, StreamOk, Ordered, RepliesOk, GuestOk, PacketsOk;
    DeviceStaysOk(sys.device, device, sys.started, InFlight(rest), n, sys.sent, sys.taken);
  }

  lemma DeviceReceives(sys: System)
    requires SystemOk(sys) && sys.toDevice != []
    ensures SystemOk(Next(sys, DeviceRx))
  {
    hide StreamOk, Rx, InOrder, RepliesOk;
    var (h, data) := sys.toDevice[0];
    assert PacketOk(sys.device.guestPort, sys.device.hostPort, sys.toDevice[0]);
    if sys.device.Live() || !sys.started {
      RxKeeps(sys.device, h, data);
      RxGrows(sys.device, h, data, sys.taken);
      DeviceMoves(sys, Rx(sys.device, h, data), sys.toDevice[1..], |data|);
    }
  }

  lemma ActKeeps(s: Stream, step: Step, f: nat)
    requires StreamOk(s) && Floor(s.replies, f) && f <= Consumed(s)
    ensures Keeps(s, Act(s, step)) && Grows(s, Act(s, step), 0, f)
    ensures !s.Live() && !step.DeviceConnect? ==> Act(s, step) == s
  {
    match step
    case DeviceConnect => LocalGrows(s, [], f); RequestKeeps(s);
    case DeviceDeliver(data) => LocalGrows(s, data, f); DeliverKeeps(s, data);
    case DeviceShutdown => LocalGrows(s, [], f); ShutdownKeeps(s);
    case DeviceRequestCredit => LocalGrows(s, [], f); RequestCreditKeeps(s);
    case DeviceConsume(count) => ConsumeGrows(s, count, f); ConsumeUpstreamKeeps(s, count);
    case _ =>
  }

  lemma DeviceActs(sys: System, step: Step)
    requires SystemOk(sys) && Enabled(sys, step)
    requires step.DeviceConnect? || step.DeviceDeliver? || step.DeviceShutdown? || step.DeviceRequestCredit? || step.DeviceConsume?
    ensures SystemOk(Next(sys, step))
  {
    hide StreamOk, InOrder, RepliesOk, Act;
    if sys.device.Live() || !sys.started {
      ActKeeps(sys.device, step, sys.taken);
      DeviceMoves(sys, Act(sys.device, step), sys.toDevice, 0);
    } else {
      ActKeeps(sys.device, step, 0);
    }
  }

  // ----- Whole runs

  lemma StepKeeps(sys: System, step: Step)
    requires SystemOk(sys) && Enabled(sys, step)
    ensures SystemOk(Next(sys, step))
  {
    hide SystemOk, Next;
    match step
    case GuestRequest(_) => GuestSends(sys, step);
    case GuestSend(_, _) => GuestSends(sys, step);
    case GuestControl(_) => GuestSends(sys, step);
    case GuestReset(_) => GuestSends(sys, step);
    case GuestReceive(_) => GuestReceives(sys, step);
    case GuestReceiveFragment => GuestReceives(sys, step);
    case DiscardData => GuestReceives(sys, step);
    case DeviceRx => DeviceReceives(sys);
    case DeviceTake(maxBytes) => DeviceTakes(sys, maxBytes);
    case _ => DeviceActs(sys, step);
  }

  lemma {:induction false} RunKeeps(states: seq<System>, steps: seq<Step>, i: nat)
    requires Run(states, steps) && i < |states|
    ensures SystemOk(states[i])
  {
    if i > 0 {
      hide SystemOk, Next, Enabled, Initial;
      RunKeeps(states, steps, i - 1);
      StepKeeps(states[i - 1], steps[i - 1]);
    }
  }

  /** The device accepts a packet's data; the connection may still end for another reason before it is looked at. */
  predicate NeverOverflows(sys: System) {
    sys.toDevice != [] && sys.device.conn.Some? ==> Fits(sys.device, sys.toDevice[0].1)
  }

  /** Credit safety: in no interleaving does data from the conforming guest reach the overflow reset. */
  lemma CreditSafety(states: seq<System>, steps: seq<Step>, i: nat)
    requires Run(states, steps) && i < |states|
    ensures NeverOverflows(states[i])
  {
    RunKeeps(states, steps, i);
  }

  /** So a well-formed data packet whose credit fields are acceptable is buffered whole. */
  lemma DataIsAccepted(states: seq<System>, steps: seq<Step>, i: nat)
    requires Run(states, steps) && i < |states| && states[i].toDevice != []
    requires var sys := states[i]; var (h, data) := sys.toDevice[0];
             && WellFormedPacket(h, data) && h.op == OP_RW
             && sys.device.conn.Some? && !sys.device.conn.value.rxShutdown
             && NotePeerCredit(sys.device, h).1
    ensures var sys := states[i]; var (h, data) := sys.toDevice[0];
            var after := Rx(sys.device, h, data);
            after.conn.Some? && after.upstream == sys.device.upstream + data
  {
    hide Next, Enabled, Initial, SystemOk;
    var sys := states[i];
    CreditSafety(states, steps, i);
    RunKeeps(states, steps, i);
    assert DeviceOk(sys.device, sys.started, InFlight(sys.toDevice), sys.sent, sys.taken) by { SystemParts(sys); }
    NoteFloor(sys.device, sys.toDevice[0].0, 0);
  }

  lemma SystemParts(sys: System)
    requires SystemOk(sys)
    ensures DeviceOk(sys.device, sys.started, InFlight(sys.toDevice), sys.sent, sys.taken)
    ensures GuestOk(sys.guest, sys.device.rxAlloc, sys.sent, sys.seen)
  {
  }
}
