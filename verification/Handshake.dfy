/** Opening a connection from either side: who ends up open, over every order of the steps in between. */
module Handshake {
  import opened Words
  import opened VsockWire
  import opened StreamModel
  import opened StreamInvariant
  import opened CreditProtocol

  /** Packets and replies travel; nobody starts anything new. A guest that answers a request does so with `answer`. */
  predicate Travels(step: Step, answer: Header) {
    step.DeviceRx? || step.DeviceTake? || step == GuestReceive(answer)
  }

  /** A run in which one side opens and everything then arrives. */
  predicate Opening(states: seq<System>, steps: seq<Step>, first: Step, answer: Header) {
    && Run(states, steps) && |steps| >= 1 && steps[0] == first
    && (forall k :: 1 <= k < |steps| ==> Travels(steps[k], answer))
    && Settled(states[|steps|])
  }

  predicate Settled(sys: System) {
    sys.toDevice == [] && sys.toGuest == [] && sys.device.replies == []
  }

  /** No reset of an earlier connection is still queued, and the packet is one that may open. */
  predicate CanOpen(s: Stream, h: Header) {
    WellFormedPacket(h, []) && h.fwdCnt == 0 && s.replies == []
  }

  predicate Dead(s: Stream) {
    StreamOk(s) && !s.Live()
  }

  /** Both sides hold the connection, each with the other's window. */
  predicate BothOpen(sys: System, s: Stream, bufAlloc: nat) {
    && sys.device == s.(conn := Some(NewConn(bufAlloc)), connecting := false)
    && sys.guest.phase == Open && sys.guest.peerBufAlloc == s.rxAlloc && sys.guest.peerFwdCnt == 0
  }

  /** The replies on their way to the guest, in order. */
  function Pipe(sys: System): seq<Reply> {
    sys.toGuest + sys.device.replies
  }

  lemma TakeKeepsPipe(sys: System, maxBytes: nat)
    ensures var after := Next(sys, DeviceTake(maxBytes));
            && Pipe(after) == Pipe(sys) && after.toDevice == sys.toDevice && after.guest == sys.guest && after.started == sys.started
            && after.device == sys.device.(replies := after.device.replies)
  {
    hide Wrap32;
  }

  lemma ClosedStays(sys: System, step: Step, answer: Header)
    requires sys.guest.phase == Closed && Enabled(sys, step) && Travels(step, answer)
    ensures Next(sys, step).guest.phase == Closed
  {
    hide Wrap32;
  }

  // ----- The guest opens

  function Response(s: Stream): Reply {
    HostReply(s, OP_RESPONSE, 0, 0, [])
  }

  /** The four states of an accepted request. */
  predicate Accepting(sys: System, s: Stream, h: Header) {
    var joined := s.(conn := Some(NewConn(h.bufAlloc)));
    if sys.toDevice == [(h, [])] then sys.device == s && sys.toGuest == [] && sys.guest.phase == Requested && !sys.started
    else
      && sys.toDevice == []
      && ((sys.device == joined.(replies := [Response(s)]) && sys.toGuest == [] && sys.guest.phase == Requested)
          || (sys.device == joined && sys.toGuest == [Response(s)] && sys.guest.phase == Requested)
          || (sys.toGuest == [] && BothOpen(sys, s, h.bufAlloc)))
  }

  lemma AcceptedByDevice(s: Stream, h: Header)
    requires Dead(s) && CanOpen(s, h) && h.op == OP_REQUEST
    ensures Rx(s, h, []) == s.(conn := Some(NewConn(h.bufAlloc)), replies := [Response(s)])
  {
    assert QueuePayload([]) == [];
  }

  lemma AcceptingStep(sys: System, step: Step, answer: Header, s: Stream, h: Header)
    requires Accepting(sys, s, h) && Enabled(sys, step) && Travels(step, answer)
    requires Dead(s) && CanOpen(s, h) && h.op == OP_REQUEST
    ensures Accepting(Next(sys, step), s, h)
  {
    hide Rx, StreamOk, WellFormedPacket;
    WrapSmall(0);
    hide Wrap32;
    AcceptedByDevice(s, h);
  }

  /** The states of a request that meets a leftover reset, or is answered by one. */
  predicate Refusing(sys: System, h: Header) {
    sys.guest.phase == Closed ||
    (sys.guest.phase == Requested &&
     if sys.toDevice == [(h, [])] then
       && !sys.device.Live() && !sys.started && OnlyResets(Pipe(sys))
       && (Pipe(sys) == [] ==> !(WellFormedPacket(h, []) && h.fwdCnt == 0))
     else
       sys.toDevice == [] && Pipe(sys) != [] && IsRst(Pipe(sys)[0]))
  }

  /** A device without a connection only adds to its queue, and a packet that may not open is answered by a reset. */
  lemma RefusedByDevice(s: Stream, h: Header)
    requires !s.Live() && h.op == OP_REQUEST
    ensures s.replies <= Rx(s, h, []).replies
    ensures s.replies == [] && !(WellFormedPacket(h, []) && h.fwdCnt == 0) ==>
              Rx(s, h, []).replies == [RstReply(h.srcPort, h.dstPort)]
  {
    assert QueuePayload([]) == [];
  }

  lemma RefusingStep(sys: System, step: Step, answer: Header, h: Header)
    requires Refusing(sys, h) && Enabled(sys, step) && Travels(step, answer) && h.op == OP_REQUEST
    ensures Refusing(Next(sys, step), h)
  {
    hide Rx, Wrap32;
    if sys.guest.phase == Closed {
      ClosedStays(sys, step, answer);
    } else {
      match step
      case DeviceTake(maxBytes) => TakeKeepsPipe(sys, maxBytes);
      case DeviceRx =>
        RefusedByDevice(sys.device, h);
        var after := Next(sys, step);
        assert after.device == Rx(sys.device, h, []);
        if Pipe(sys) != [] { assert IsRst(Pipe(sys)[0]) && Pipe(after)[0] == Pipe(sys)[0]; }
      case GuestReceive(_) => assert Pipe(sys)[0] == sys.toGuest[0];
    }
  }

  lemma {:induction false} GuestOpeningRun(states: seq<System>, steps: seq<Step>, h: Header, answer: Header, i: nat)
    requires Run(states, steps) && 1 <= i < |states| && steps[0] == GuestRequest(h)
    requires forall k :: 1 <= k < |steps| ==> Travels(steps[k], answer)
    ensures var s := states[0].device;
            Dead(s) && h.op == OP_REQUEST && if CanOpen(s, h) then Accepting(states[i], s, h) else Refusing(states[i], h)
    decreases i
  {
    hide StreamOk, Wrap32;
    var s := states[0].device;
    if i == 1 {
      assert states[0].toDevice + [(h, [])] == [(h, [])];
      assert states[1] == Next(states[0], steps[0]);
    } else {
      GuestOpeningRun(states, steps, h, answer, i - 1);
      hide Next, Enabled, Accepting, Refusing, CanOpen, Initial;
      if CanOpen(s, h) { AcceptingStep(states[i - 1], steps[i - 1], answer, s, h); } else { RefusingStep(states[i - 1], steps[i - 1], answer, h); }
    }
  }

  /** Once everything has arrived, a guest's request has opened both sides, with each other's windows and the whole window
      to send, if and only if it may open; otherwise the guest was told and is closed. */
  lemma GuestHandshake(states: seq<System>, steps: seq<Step>, h: Header, answer: Header)
    requires Opening(states, steps, GuestRequest(h), answer)
    ensures var s := states[0].device; var sys := states[|steps|];
            if CanOpen(s, h) then BothOpen(sys, s, h.bufAlloc) else sys.guest.phase == Closed
  {
    hide Next, Enabled, Initial, CanOpen;
    GuestOpeningRun(states, steps, h, answer, |steps|);
  }

  /** Such runs exist: request, response, and the guest has it. */
  lemma GuestHandshakeHappens(sys: System, h: Header, answer: Header) returns (states: seq<System>, steps: seq<Step>)
    requires Initial(sys) && CanOpen(sys.device, h) && Addressed(sys, h) && h.op == OP_REQUEST
    requires Addressed(sys, answer) && answer.op == OP_RESPONSE
    ensures Opening(states, steps, GuestRequest(h), answer) && states[0] == sys
  {
    hide Rx, StreamOk, WellFormedPacket, Wrap32;
    AcceptedByDevice(sys.device, h);
    steps := [GuestRequest(h), DeviceRx, DeviceTake(0), GuestReceive(answer)];
    var requested := Next(sys, steps[0]);
    assert requested.toDevice == [(h, [])];
    var responded := Next(requested, steps[1]);
    assert responded.device.replies == [Response(sys.device)];
    var taken := Next(responded, steps[2]);
    assert taken.toGuest == [Response(sys.device)];
    states := [sys, requested, responded, taken, Next(taken, steps[3])];
  }

  // ----- The host opens

  function ConnectRequest(s: Stream): Reply {
    HostReply(s, OP_REQUEST, 0, 0, [])
  }

  /** The request travels to the guest and its answer back. */
  predicate Connecting(sys: System, s: Stream, answer: Header) {
    var opening := s.(connecting := true);
    || (sys.toDevice == [] && sys.device == opening.(replies := [ConnectRequest(s)]) && sys.toGuest == [] && sys.guest.phase == Idle)
    || (sys.toDevice == [] && sys.device == opening && sys.toGuest == [ConnectRequest(s)] && sys.guest.phase == Idle)
    || (&& sys.toDevice == [(answer, [])] && sys.device == opening && sys.toGuest == [] && sys.guest.phase == Open
        && sys.guest.peerBufAlloc == s.rxAlloc && sys.guest.peerFwdCnt == 0)
  }

  /** Both open in the end. */
  predicate Connected(sys: System, s: Stream, answer: Header) {
    sys.toDevice == [] && sys.toGuest == [] && BothOpen(sys, s, answer.bufAlloc)
  }

  /** A leftover reset or the device's reset of a bad answer reaches the guest. */
  predicate Turned(sys: System) {
    || sys.guest.phase == Closed
    || (sys.guest.phase in {Idle, Open} && sys.toDevice == [] && Pipe(sys) != [] && IsRst(Pipe(sys)[0]))
  }

  lemma AnswerArrives(s: Stream, answer: Header)
    requires Dead(s) && s.replies == [] && answer.op == OP_RESPONSE
    ensures var t := Rx(s.(connecting := true), answer, []);
            if CanOpen(s, answer) then t == s.(conn := Some(NewConn(answer.bufAlloc)), connecting := false)
            else !t.Live() && t.replies == [RstReply(answer.srcPort, answer.dstPort)]
  {
    assert QueuePayload([]) == [];
  }

  lemma ConnectingStep(sys: System, step: Step, s: Stream, answer: Header)
    requires Connecting(sys, s, answer) && (sys.device.Live() ==> sys.started) && Enabled(sys, step) && Travels(step, answer)
    requires Dead(s) && s.replies == [] && answer.op == OP_RESPONSE
    ensures var after := Next(sys, step);
            Connecting(after, s, answer) || if CanOpen(s, answer) then Connected(after, s, answer) else Turned(after)
  {
    WrapSmall(0);
    hide Rx, StreamOk, WellFormedPacket, Wrap32;
    AnswerArrives(s, answer);
    if step.DeviceRx? && !CanOpen(s, answer) {
      var t := Rx(s.(connecting := true), answer, []);
      assert Retain(t.replies, OP_RST, true) == t.replies;
    }
  }

  lemma TurnedStep(sys: System, step: Step, answer: Header)
    requires Turned(sys) && Enabled(sys, step) && Travels(step, answer)
    ensures Turned(Next(sys, step))
  {
    hide Rx, Wrap32;
    if sys.guest.phase == Closed {
      ClosedStays(sys, step, answer);
    } else {
      match step
      case DeviceTake(maxBytes) => TakeKeepsPipe(sys, maxBytes);
      case GuestReceive(_) => assert Pipe(sys)[0] == sys.toGuest[0];
    }
  }

  lemma ConnectedStep(sys: System, step: Step, s: Stream, answer: Header)
    requires Connected(sys, s, answer) && s.replies == [] && Enabled(sys, step) && Travels(step, answer)
    ensures Next(sys, step) == sys
  {
    hide Rx, Wrap32;
  }

  predicate HostProgress(sys: System, s: Stream, answer: Header) {
    if s.replies != [] then Turned(sys)
    else Connecting(sys, s, answer) || if CanOpen(s, answer) then Connected(sys, s, answer) else Turned(sys)
  }

  lemma RequestSent(s: Stream)
    requires Dead(s)
    ensures s.replies == [] ==> Request(s).0 == s.(connecting := true, replies := [ConnectRequest(s)])
    ensures s.replies <= Request(s).0.replies
  {
    assert QueuePayload([]) == [];
  }

  lemma {:induction false} HostOpeningRun(states: seq<System>, steps: seq<Step>, answer: Header, i: nat)
    requires Run(states, steps) && 1 <= i < |states| && steps[0] == DeviceConnect && answer.op == OP_RESPONSE
    requires forall k :: 1 <= k < |steps| ==> Travels(steps[k], answer)
    ensures var s := states[0].device; Dead(s) && HostProgress(states[i], s, answer)
    decreases i
  {
    hide StreamOk, Wrap32, Request;
    var s := states[0].device;
    if i == 1 {
      RequestSent(s);
      assert states[1] == Next(states[0], steps[0]);
    } else {
      HostOpeningRun(states, steps, answer, i - 1);
      RunKeeps(states, steps, i - 1);
      var sys := states[i - 1];
      assert sys.device.Live() ==> sys.started;
      hide Next, Enabled, Connecting, Connected, Turned, CanOpen, Initial, SystemOk;
      if s.replies == [] && Connecting(sys, s, answer) {
        ConnectingStep(sys, steps[i - 1], s, answer);
      } else if s.replies == [] && CanOpen(s, answer) {
        ConnectedStep(sys, steps[i - 1], s, answer);
      } else {
        TurnedStep(sys, steps[i - 1], answer);
      }
    }
  }

  /** Once everything has arrived, a connection the host requested is open on both sides if and only if no leftover reset
      preceded the request and the guest's answer may open; otherwise the guest is closed. */
  lemma HostHandshake(states: seq<System>, steps: seq<Step>, answer: Header)
    requires Opening(states, steps, DeviceConnect, answer) && answer.op == OP_RESPONSE
    ensures var s := states[0].device; var sys := states[|steps|];
            if CanOpen(s, answer) then BothOpen(sys, s, answer.bufAlloc) else sys.guest.phase == Closed
  {
    hide Next, Enabled, Initial, WellFormedPacket;
    HostOpeningRun(states, steps, answer, |steps|);
  }
}
