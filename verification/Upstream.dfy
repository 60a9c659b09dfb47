/** Bytes from the guest to the host: handed on in the order the guest sent them, none lost, repeated or changed. */
module Upstream {
  import opened Words
  import opened VsockWire
  import opened StreamModel
  import opened StreamInvariant
  import opened SwitchModel
  import opened SwitchInvariant
  import opened Generations
  import opened CreditProtocol

  /** The two-party system with the data bytes the guest sent and those handed on to the host. */
  datatype Trace = Trace(sys: System, sent: seq<Byte>, handed: seq<Byte>)

  function Bytes(packets: seq<(Header, seq<Byte>)>): seq<Byte> {
    if packets == [] then [] else packets[0].1 + Bytes(packets[1..])
  }

  /** Consumed bytes are the ones a peek showed. */
  function TraceNext(t: Trace, step: Step): Trace
    requires Enabled(t.sys, step)
  {
    Trace(Next(t.sys, step),
          t.sent + (if step.GuestSend? then step.data else []),
          t.handed + (if step.DeviceConsume? then PeekUpstream(t.sys.device, step.count) else []))
  }

  predicate TraceRun(traces: seq<Trace>, steps: seq<Step>) {
    && |traces| == |steps| + 1
    && Initial(traces[0].sys) && traces[0].sent == traces[0].handed == []
    && forall i :: 0 <= i < |steps| ==> Enabled(traces[i].sys, steps[i]) && traces[i + 1] == TraceNext(traces[i], steps[i])
  }

  predicate Ended(sys: System) {
    sys.started && !sys.device.Live()
  }

  /** What was handed on, what is buffered and what is in flight are what was sent; afterwards the first still is a prefix. */
  predicate Conserved(t: Trace) {
    && SystemOk(t.sys) && |t.sent| == t.sys.sent
    && t.handed <= t.sent
    && (!Ended(t.sys) ==> t.handed + t.sys.device.upstream + Bytes(t.sys.toDevice) == t.sent)
  }

  lemma {:induction false} BytesAppend(packets: seq<(Header, seq<Byte>)>, p: (Header, seq<Byte>))
    ensures Bytes(packets + [p]) == Bytes(packets) + p.1
  {
    if packets == [] {
      assert packets + [p] == [p];
    } else {
      BytesAppend(packets[1..], p);
      assert (packets + [p])[1..] == packets[1..] + [p];
    }
  }

  lemma {:induction false} BytesCount(packets: seq<(Header, seq<Byte>)>)
    ensures |Bytes(packets)| == InFlight(packets)
  {
    if packets != [] { BytesCount(packets[1..]); }
  }

  // ----- The device

  lemma OnConnectedUpstream(s: Stream, h: Header, data: seq<Byte>)
    requires StreamOk(s) && s.conn.Some? && (data != [] ==> h.op == OP_RW) && OP_SHUTDOWN <= h.op <= OP_CREDIT_REQUEST
    ensures var t := OnConnected(s, h, data);
            t.Live() ==> t.upstream == s.upstream + data
  {
    hide QueuePayload, NotePeerCredit, StreamOk, OnShutdown, Respond;
    Budgets(s);
    NoteFloor(s, h, 0);
    var (noted, kept) := NotePeerCredit(s, h);
    if kept && noted.conn.Some? {
      OnShutdownFloor(noted, h.flags, 0);
      RespondUpstream(noted.(conn := Some(noted.conn.value.(receiveCreditRequested := noted.upstream != []))), OP_CREDIT_UPDATE);
    }
  }

  lemma RespondUpstream(s: Stream, op: nat)
    ensures Respond(s, Consumed(s), op, 0).0.upstream == s.upstream
  {
  }

  /** While the connection survives a packet, its data joins the back of the buffer. */
  lemma RxUpstream(s: Stream, h: Header, data: seq<Byte>)
    requires StreamOk(s) && (data != [] ==> h.op == OP_RW)
    ensures var t := StreamModel.Rx(s, h, data);
            t.Live() ==> t.upstream == s.upstream + data
  {
    hide QueuePayload;
    if s.conn.Some? && OP_SHUTDOWN <= h.op <= OP_CREDIT_REQUEST { OnConnectedUpstream(s, h, data); }
  }

  lemma ActUpstream(s: Stream, step: Step)
    requires StreamOk(s) && !step.DeviceConsume?
    ensures Act(s, step).Live() ==> Act(s, step).upstream == s.upstream
  {
    hide QueuePayload, RepliesOk;
  }

  // ----- Steps

  /** A step that leaves the device's connection and buffer alone, and puts one more packet on the way or none. */
  predicate Leaves(sys: System, after: System, packets: seq<(Header, seq<Byte>)>) {
    && after.device.Live() == sys.device.Live() && after.device.upstream == sys.device.upstream
    && after.started == sys.started && after.toDevice == sys.toDevice + packets
  }

  lemma GuestLeaves(sys: System, step: Step)
    requires Enabled(sys, step)
    requires step.GuestRequest? || step.GuestSend? || step.GuestControl? || step.GuestReset?
    ensures var data := if step.GuestSend? then step.data else [];
            Leaves(sys, Next(sys, step), [(step.h, data)]) && Next(sys, step).sent == sys.sent + |data|
  {
    hide Wrap32;
  }

  lemma ReceiveLeaves(sys: System, step: Step)
    requires Enabled(sys, step) && (step.GuestReceive? || step.GuestReceiveFragment? || step.DiscardData? || step.DeviceTake?)
    ensures var after := Next(sys, step);
            && after.sent == sys.sent
            && (Leaves(sys, after, []) || (step.GuestReceive? && Leaves(sys, after, [(step.answer, [])])))
  {
    hide Wrap32;
    assert sys.toDevice + [] == sys.toDevice;
  }

  lemma LeaveConserves(t: Trace, after: System, packets: seq<(Header, seq<Byte>)>, data: seq<Byte>)
    requires Conserved(t) && SystemOk(after) && Leaves(t.sys, after, packets) && after.sent == t.sys.sent + |data|
    requires if packets == [] then data == [] else |packets| == 1 && packets[0].1 == data
    ensures Conserved(Trace(after, t.sent + data, t.handed))
  {
    hide SystemOk;
    if packets == [] {
      assert t.sys.toDevice + packets == t.sys.toDevice;
    } else {
      assert packets == [packets[0]];
      BytesAppend(t.sys.toDevice, packets[0]);
    }
    var upstream, flying := t.sys.device.upstream, Bytes(t.sys.toDevice);
    assert t.handed + upstream + (flying + data) == (t.handed + upstream + flying) + data;
  }

  lemma GuestStepConserves(t: Trace, step: Step)
    requires Conserved(t) && Enabled(t.sys, step)
    requires step.GuestRequest? || step.GuestSend? || step.GuestControl? || step.GuestReset?
    ensures Conserved(TraceNext(t, step))
  {
    hide SystemOk, Next, Enabled, Conserved, Leaves;
    assert SystemOk(t.sys) by { Parts(t); }
    StepKeeps(t.sys, step);
    GuestLeaves(t.sys, step);
    var data := if step.GuestSend? then step.data else [];
    LeaveConserves(t, Next(t.sys, step), [(step.h, data)], data);
    assert t.handed + [] == t.handed;
  }

  lemma ReceiveConserves(t: Trace, step: Step)
    requires Conserved(t) && Enabled(t.sys, step)
    requires step.GuestReceive? || step.GuestReceiveFragment? || step.DiscardData? || step.DeviceTake?
    ensures Conserved(TraceNext(t, step))
  {
    hide SystemOk, Next, Enabled, Conserved, Leaves;
    assert SystemOk(t.sys) by { Parts(t); }
    StepKeeps(t.sys, step);
    ReceiveLeaves(t.sys, step);
    var after := Next(t.sys, step);
    if Leaves(t.sys, after, []) { LeaveConserves(t, after, [], []); } else { LeaveConserves(t, after, [(step.answer, [])], []); }
    assert t.handed + [] == t.handed && t.sent + [] == t.sent;
  }

  lemma RetiredIsDead(s: Stream)
    ensures !Retire(s).Live()
  {
  }

  /** Before a connection exists nothing was sent. */
  lemma NothingSentYet(t: Trace)
    requires Conserved(t) && !t.sys.started
    ensures t.sent == [] && t.handed == [] && Bytes(t.sys.toDevice) == [] && !t.sys.device.Live()
  {
  }

  /** The device took the first packet. */
  lemma PopConserves(t: Trace, device: Stream)
    requires Conserved(t) && t.sys.toDevice != [] && !Ended(t.sys)
    requires SystemOk(WithDevice(t.sys.(toDevice := t.sys.toDevice[1..]), device))
    requires device.Live() ==> device.upstream == t.sys.device.upstream + t.sys.toDevice[0].1
    requires !t.sys.device.Live() && !device.Live() ==> t.sys.device.upstream == device.upstream == []
    ensures Conserved(Trace(WithDevice(t.sys.(toDevice := t.sys.toDevice[1..]), device), t.sent, t.handed))
  {
    hide SystemOk, Retire;
    DeviceParts(t.sys);
    RetiredIsDead(device);
    var upstream, data, rest := t.sys.device.upstream, t.sys.toDevice[0].1, Bytes(t.sys.toDevice[1..]);
    assert t.sent == t.handed + upstream + (data + rest);
    assert t.handed + (upstream + data) + rest == t.sent;
    if !t.sys.started { NothingSentYet(t); }
  }

  lemma RxConserves(t: Trace)
    requires Conserved(t) && Enabled(t.sys, DeviceRx)
    ensures Conserved(TraceNext(t, DeviceRx))
  {
    hide SystemOk, StreamModel.Rx, StreamOk, Conserved, WithDevice;
    var (h, data) := t.sys.toDevice[0];
    var s := t.sys.device;
    assert SystemOk(t.sys) by { Parts(t); }
    StepKeeps(t.sys, DeviceRx);
    DeviceParts(t.sys);
    FirstPacket(t.sys);
    assert t.sent + [] == t.sent && t.handed + [] == t.handed;
    if Ended(t.sys) {
      EndedPops(t);
    } else {
      RxUpstream(s, h, data);
      DeadBuffer(s);
      RxKeeps(s, h, data);
      DeadBuffer(StreamModel.Rx(s, h, data));
      PopConserves(t, StreamModel.Rx(s, h, data));
      var popped := t.sys.(toDevice := t.sys.toDevice[1..]);
      assert Next(t.sys, DeviceRx) == WithDevice(popped, StreamModel.Rx(s, h, data));
    }
  }

  lemma EndedPops(t: Trace)
    requires Conserved(t) && Ended(t.sys) && t.sys.toDevice != [] && SystemOk(t.sys.(toDevice := t.sys.toDevice[1..]))
    ensures Conserved(t.(sys := t.sys.(toDevice := t.sys.toDevice[1..])))
  {
    hide SystemOk;
  }

  lemma FirstPacket(sys: System)
    requires SystemOk(sys) && sys.toDevice != []
    ensures StreamOk(sys.device) && (sys.toDevice[0].1 != [] ==> sys.toDevice[0].0.op == OP_RW)
    ensures sys.toDevice[0].0.srcPort == sys.device.guestPort && sys.toDevice[0].0.dstPort == sys.device.hostPort
  {
    assert PacketOk(sys.device.guestPort, sys.device.hostPort, sys.toDevice[0]);
  }

  lemma DeadBuffer(s: Stream)
    requires StreamOk(s)
    ensures s.conn.None? ==> s.upstream == []
  {
  }

  /** The host side took `peek` from the front of the buffer, or nothing. */
  lemma MoveConserves(t: Trace, device: Stream, peek: seq<Byte>)
    requires Conserved(t) && SystemOk(WithDevice(t.sys, device)) && peek <= t.sys.device.upstream
    requires device.Live() ==> peek + device.upstream == t.sys.device.upstream
    requires !t.sys.device.Live() ==> t.sys.device.upstream == device.upstream == []
    requires Ended(t.sys) ==> !device.Live()
    ensures Conserved(Trace(WithDevice(t.sys, device), t.sent, t.handed + peek))
  {
    hide SystemOk, Retire;
    DeviceParts(t.sys);
    RetiredIsDead(device);
    var upstream, rest := t.sys.device.upstream, Bytes(t.sys.toDevice);
    if Ended(t.sys) {
      assert t.handed + peek == t.handed;
    } else {
      assert upstream == peek + upstream[|peek|..];
      assert t.sent == (t.handed + peek) + (upstream[|peek|..] + rest);
      assert device.Live() ==> device.upstream == upstream[|peek|..];
      assert (t.handed + peek) + upstream[|peek|..] + rest == t.sent;
    }
  }

  lemma ActConserves(t: Trace, step: Step)
    requires Conserved(t) && Enabled(t.sys, step)
    requires step.DeviceConnect? || step.DeviceDeliver? || step.DeviceShutdown? || step.DeviceRequestCredit? || step.DeviceConsume?
    ensures Conserved(TraceNext(t, step))
  {
    hide SystemOk, Act, StreamOk, Retire, Wrap32, Conserved, WithDevice;
    var s := t.sys.device;
    assert SystemOk(t.sys) by { Parts(t); }
    StepKeeps(t.sys, step);
    DeviceParts(t.sys);
    DeadBuffer(s);
    var peek := if step.DeviceConsume? then PeekUpstream(s, step.count) else [];
    if step.DeviceConsume? {
      Consumes(s, step);
      ConsumeUpstreamTakesPeek(s, step.count);
    } else {
      ActUpstream(s, step);
    }
    if !s.Live() {
      if step.DeviceConnect? { DeadConnect(s, step); } else { DeadActs(s, step); }
    }
    MoveConserves(t, Act(s, step), peek);
    assert t.sent + [] == t.sent;
  }

  lemma Parts(t: Trace)
    requires Conserved(t)
    ensures SystemOk(t.sys)
  {
  }

  lemma DeviceParts(sys: System)
    requires SystemOk(sys)
    ensures StreamOk(sys.device) && (sys.device.Live() ==> sys.started)
  {
  }

  lemma Consumes(s: Stream, step: Step)
    requires step.DeviceConsume?
    ensures Act(s, step) == ConsumeUpstream(s, step.count)
  {
  }

  lemma DeadActs(s: Stream, step: Step)
    requires StreamOk(s) && !s.Live() && !step.DeviceConnect?
    ensures Act(s, step) == s
  {
    ActKeeps(s, step, 0) by { assert Floor(s.replies, 0); }
  }

  lemma DeadConnect(s: Stream, step: Step)
    requires !s.Live()
    ensures step.DeviceConnect? ==> Act(s, step).upstream == s.upstream
  {
    hide QueuePayload;
  }

  lemma StepConserves(t: Trace, step: Step)
    requires Conserved(t) && Enabled(t.sys, step)
    ensures Conserved(TraceNext(t, step))
  {
    hide Conserved, TraceNext;
    match step
    case GuestRequest(_) => GuestStepConserves(t, step);
    case GuestSend(_, _) => GuestStepConserves(t, step);
    case GuestControl(_) => GuestStepConserves(t, step);
    case GuestReset(_) => GuestStepConserves(t, step);
    case GuestReceive(_) => ReceiveConserves(t, step);
    case GuestReceiveFragment => ReceiveConserves(t, step);
    case DiscardData => ReceiveConserves(t, step);
    case DeviceTake(_) => ReceiveConserves(t, step);
    case DeviceRx => RxConserves(t);
    case _ => ActConserves(t, step);
  }

  // ----- Whole runs

  lemma {:induction false} RunConserves(traces: seq<Trace>, steps: seq<Step>, i: nat)
    requires TraceRun(traces, steps) && i < |traces|
    ensures Conserved(traces[i])
  {
    if i == 0 {
      InitialOk(traces[0].sys);
    } else {
      hide Conserved, TraceNext, Enabled, Initial;
      RunConserves(traces, steps, i - 1);
      StepConserves(traces[i - 1], steps[i - 1]);
    }
  }

  lemma InitialOk(sys: System)
    requires Initial(sys)
    ensures SystemOk(sys) && sys.device.upstream == []
  {
    CreditProtocol.RunKeeps([sys], [], 0);
  }

  /** In every interleaving: while the connection lives, the bytes handed on, then the device's buffer, then the data in
      flight are the bytes the guest sent, in order; after it ended, what was handed on is a prefix of what was sent. */
  lemma UpstreamIsConserved(traces: seq<Trace>, steps: seq<Step>, i: nat)
    requires TraceRun(traces, steps) && i < |traces|
    ensures var t := traces[i];
            && t.handed <= t.sent
            && (!Ended(t.sys) ==> t.handed + t.sys.device.upstream + Bytes(t.sys.toDevice) == t.sent)
  {
    RunConserves(traces, steps, i);
  }

  // ----- The switch

  /** Consuming changes one endpoint only, so a connection still current is that one with its stream moved on. */
  lemma StillCurrent(sw: Switch, id: ConnectionId, count: nat)
    requires SwitchOk(sw) && IsCurrent(sw, id) && IsCurrent(SwitchConsume(sw, id, count).0, id)
    ensures var after := SwitchConsume(sw, id, count).0;
            var i := SwitchModel.ConnectionIndex(sw, id).value;
            var t := ConsumeUpstream(sw.endpoints[i].stream, count);
            SwitchModel.ConnectionIndex(after, id) == Some(i) && after.endpoints[i].stream == t && t.Live()
  {
    hide SwitchOk, StreamOk, ConsumeUpstream, SameStream, EndpointOk, FlowOk;
    var i := SwitchModel.ConnectionIndex(sw, id).value;
    var after := SwitchConsume(sw, id, count).0;
    var j := SwitchModel.ConnectionIndex(after, id).value;
    EndpointFacts(sw, i);
    if j != i {
      assert after.endpoints[j] == sw.endpoints[j];
      SamePortsSameIndex(sw, j, i);
    }
  }

  /** Consuming from a connection that stays current leaves exactly the bytes behind those a peek showed. */
  lemma PeekThenConsume(sw: Switch, id: ConnectionId, count: nat)
    requires SwitchOk(sw) && IsCurrent(sw, id)
    ensures var after := SwitchConsume(sw, id, count).0;
            var i := SwitchModel.ConnectionIndex(sw, id).value;
            && Peek(sw, id, count) <= Peek(sw, id, |sw.endpoints[i].stream.upstream|)
            && (IsCurrent(after, id) ==>
                  Peek(sw, id, count) + Peek(after, id, |sw.endpoints[i].stream.upstream|) == Peek(sw, id, |sw.endpoints[i].stream.upstream|))
  {
    hide SwitchOk, StreamOk, ConsumeUpstream, RetireEndpoint;
    var i := SwitchModel.ConnectionIndex(sw, id).value;
    var s := sw.endpoints[i].stream;
    EndpointFacts(sw, i);
    ConsumeUpstreamTakesPeek(s, count);
    var t := ConsumeUpstream(s, count);
    var after := SwitchConsume(sw, id, count).0;
    assert s.upstream[..|s.upstream|] == s.upstream;
    if IsCurrent(after, id) {
      StillCurrent(sw, id, count);
      assert t.upstream[..|t.upstream|] == t.upstream;
    }
  }
}
