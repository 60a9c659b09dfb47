/** Batched credit updates never stall the guest: once everything in flight has arrived and been consumed,
    the guest may send more than half of the window. */
module CreditProgress {
  import opened Words
  import opened VsockWire
  import opened StreamModel
  import opened StreamInvariant
  import opened CreditProtocol

  /** Some queued credit update advertises at least `total`. */
  predicate Carries(replies: seq<Reply>, total: nat) {
    exists i :: 0 <= i < |replies| && Announces(replies[i], total)
  }

  predicate Announces(r: Reply, total: nat) {
    r.op == OP_CREDIT_UPDATE && total <= r.fwd
  }

  /** What the device counts as advertised has reached the guest or is still on its way to it. */
  predicate Covered(sys: System) {
    sys.device.conn.Some? && sys.guest.phase == Open ==>
      var advertised := sys.device.conn.value.advertised;
      advertised <= sys.seen || Carries(sys.toGuest, advertised) || Carries(sys.device.replies, advertised)
  }

  /** A surviving connection keeps its announcement queued, or queues one for the new advertised total. */
  predicate Announced(s: Stream, t: Stream) {
    s.conn.Some? && t.conn.Some? ==>
      || Carries(t.replies, t.conn.value.advertised)
      || (t.conn.value.advertised == s.conn.value.advertised
          && (Carries(s.replies, s.conn.value.advertised) ==> Carries(t.replies, s.conn.value.advertised)))
  }

  lemma CarriesAppend(replies: seq<Reply>, r: Reply, total: nat)
    ensures Carries(replies, total) ==> Carries(replies + [r], total)
    ensures Announces(r, total) ==> Carries(replies + [r], total)
  {
    if Carries(replies, total) {
      var i :| 0 <= i < |replies| && Announces(replies[i], total);
      assert (replies + [r])[i] == replies[i];
    }
    assert (replies + [r])[|replies|] == r;
  }

  lemma {:induction false} CarriesRetain(replies: seq<Reply>, total: nat)
    ensures Carries(replies, total) ==> Carries(Retain(replies, OP_RW, false), total)
  {
    if Carries(replies, total) {
      var i :| 0 <= i < |replies| && Announces(replies[i], total);
      var rest := Retain(replies[1..], OP_RW, false);
      var kept := Retain(replies, OP_RW, false);
      if i == 0 {
        assert kept[0] == replies[0];
      } else {
        assert replies[1..][i - 1] == replies[i];
        CarriesRetain(replies[1..], total);
        var j :| 0 <= j < |rest| && Announces(rest[j], total);
        assert kept[|kept| - |rest| + j] == rest[j];
      }
    }
  }

  lemma QueueReplyAnnounced(s: Stream, r: Reply)
    ensures Announced(s, QueueReply(s, r).0)
  {
    hide QueuePayload, Carries;
    if s.conn.Some? {
      CarriesAppend(s.replies, r, s.conn.value.advertised);
      CarriesAppend(s.replies, r, r.fwd);
    }
  }

  lemma RespondAnnounced(s: Stream, fwd: nat, op: nat, flags: nat)
    ensures Announced(s, Respond(s, fwd, op, flags).0)
    ensures Respond(s, fwd, op, flags).0.connecting == s.connecting
  {
    hide QueuePayload;
    if op == OP_CREDIT_UPDATE && EndsWithCreditUpdate(s.replies) {
      var t := Respond(s, fwd, op, flags).0;
      assert Announces(t.replies[|t.replies| - 1], fwd);
    } else {
      QueueReplyAnnounced(s, HostReply(s, op, flags, fwd, []));
    }
  }

  lemma NoteAnnounced(s: Stream, h: Header)
    ensures Announced(s, NotePeerCredit(s, h).0)
    ensures !s.connecting ==> !NotePeerCredit(s, h).0.connecting
  {
    hide QueuePayload, Carries, Nearest, Respond;
    if s.conn.Some? {
      var ack := Nearest(h.fwdCnt, s.conn.value.sent);
      if s.conn.value.acked <= ack {
        RespondAnnounced(s.(conn := Some(Credited(s.conn.value, h.bufAlloc, ack))), s.conn.value.consumed, OP_CREDIT_UPDATE, 0);
      }
    }
  }

  lemma RxAnnounced(s: Stream, h: Header, data: seq<Byte>)
    requires s.conn.Some? && StreamOk(s)
    ensures Announced(s, Rx(s, h, data)) && !Rx(s, h, data).connecting
  {
    hide QueuePayload, Carries, NotePeerCredit, Respond, StreamOk;
    Budgets(s);
    NoteAnnounced(s, h);
    var (noted, kept) := NotePeerCredit(s, h);
    if noted.conn.Some? {
      CarriesRetain(noted.replies, noted.conn.value.advertised);
      CarriesRetain(noted.replies, s.conn.value.advertised);
      RespondAnnounced(noted.(conn := Some(noted.conn.value.(receiveCreditRequested := noted.upstream != []))),
                       noted.conn.value.consumed, OP_CREDIT_UPDATE, 0);
    }
  }

  lemma ActAnnounced(s: Stream, step: Step)
    requires s.conn.Some? && !s.connecting
    ensures Announced(s, Act(s, step)) && !Act(s, step).connecting
  {
    hide QueuePayload, Carries, Respond;
    var c := s.conn.value;
    match step
    case DeviceDeliver(data) =>
      CarriesAppend(s.replies, HostReply(s, OP_RW, 0, c.consumed, data), c.advertised);
      QueueReplyAnnounced(s, HostReply(s, OP_CREDIT_REQUEST, 0, c.consumed, []));
    case DeviceShutdown => RespondAnnounced(s.(conn := Some(c.(txShutdown := true))), c.consumed, OP_SHUTDOWN, FLAG_SHUTDOWN_SEND);
    case DeviceRequestCredit => QueueReplyAnnounced(s, HostReply(s, OP_CREDIT_REQUEST, 0, c.consumed, []));
    case DeviceConsume(count) =>
      var n := Min(count, |s.upstream|);
      if n != 0 {
        var drained := s.(upstream := s.upstream[n..]);
        RespondAnnounced(drained.(conn := Some(Advanced(drained, n))), c.consumed + n, OP_CREDIT_UPDATE, 0);
      }
    case _ =>
  }

  /** Moving the head of the queue to the back of the channel loses no announcement. */
  lemma TakeCovers(sys: System, maxBytes: nat)
    requires Covered(sys)
    ensures Covered(Next(sys, DeviceTake(maxBytes)))
  {
    hide QueuePayload;
    var s := sys.device;
    if TakeReply(s, maxBytes).1.Some? && s.conn.Some? {
      var r := s.replies[0];
      var advertised := s.conn.value.advertised;
      CarriesAppend(sys.toGuest, r, advertised);
      if Carries(s.replies, advertised) && !Announces(r, advertised) {
        var i :| 0 <= i < |s.replies| && Announces(s.replies[i], advertised);
        assert s.replies[1..][i - 1] == s.replies[i];
      }
    }
  }

  /** Before the guest opens the connection it has sent nothing, so nothing was consumed. */
  lemma NothingAdvertised(sys: System)
    requires SystemOk(sys) && sys.device.conn.Some? && (sys.guest.phase == Idle || sys.guest.phase == Requested)
    ensures sys.device.conn.value.advertised == 0
  {
    hide Ordered;
  }

  lemma ReceiveCovers(sys: System, step: Step)
    requires Covered(sys) && Enabled(sys, step)
    requires step.GuestReceive? || step.GuestReceiveFragment? || step.DiscardData?
    requires SystemOk(sys)
    ensures Covered(Next(sys, step))
  {
    hide QueuePayload, SystemOk, Wrap32;
    ChannelHead(sys);
    if sys.device.conn.Some? && (sys.guest.phase == Idle || sys.guest.phase == Requested) { NothingAdvertised(sys); }
    if sys.device.conn.Some? && sys.guest.phase == Open {
      var advertised := sys.device.conn.value.advertised;
      if Carries(sys.toGuest, advertised) && !Announces(sys.toGuest[0], advertised) {
        var i :| 0 <= i < |sys.toGuest| && Announces(sys.toGuest[i], advertised);
        assert sys.toGuest[1..][i - 1] == sys.toGuest[i];
      }
    }
  }

  lemma DeviceCovers(sys: System, device: Stream)
    requires Covered(sys) && sys.device.conn.Some? && Announced(sys.device, device)
    ensures Covered(WithDevice(sys, device))
  {
    hide Carries, Retain;
  }

  lemma RxOpensEmpty(s: Stream, h: Header, data: seq<Byte>)
    requires s.conn.None?
    ensures Rx(s, h, data).conn.Some? ==> Rx(s, h, data).conn.value.advertised == 0
  {
    hide QueuePayload;
  }

  lemma RequestOpensNothing(s: Stream)
    ensures Act(s, DeviceConnect).conn == s.conn
    ensures s.conn.Some? ==> Act(s, DeviceConnect) == s
  {
  }

  lemma StepCovers(sys: System, step: Step)
    requires SystemOk(sys) && Covered(sys) && Enabled(sys, step)
    ensures Covered(Next(sys, step))
  {
    hide Carries, Rx, Act, SystemOk;
    match step
    case GuestReceive(_) => ReceiveCovers(sys, step);
    case GuestReceiveFragment => ReceiveCovers(sys, step);
    case DiscardData => ReceiveCovers(sys, step);
    case DeviceTake(maxBytes) => TakeCovers(sys, maxBytes);
    case DeviceRx =>
      if sys.device.conn.Some? {
        SystemParts(sys);
        RxAnnounced(sys.device, sys.toDevice[0].0, sys.toDevice[0].1);
        DeviceCovers(sys, Rx(sys.device, sys.toDevice[0].0, sys.toDevice[0].1));
      } else {
        RxOpensEmpty(sys.device, sys.toDevice[0].0, sys.toDevice[0].1);
      }
    case DeviceConnect => RequestOpensNothing(sys.device);
    case GuestRequest(_) =>
    case GuestSend(_, _) =>
    case GuestControl(_) =>
    case GuestReset(_) =>
    case _ =>
      SystemParts(sys);
      ActKeeps(sys.device, step, 0);
      if sys.device.conn.Some? {
        ActAnnounced(sys.device, step);
        DeviceCovers(sys, Act(sys.device, step));
      }
  }

  lemma {:induction false} RunCovers(states: seq<System>, steps: seq<Step>, i: nat)
    requires Run(states, steps) && i < |states|
    ensures SystemOk(states[i]) && Covered(states[i])
  {
    if i == 0 {
      RunKeeps(states, steps, 0);
    } else {
      hide SystemOk, Next, Enabled, Initial, Covered;
      RunCovers(states, steps, i - 1);
      StepCovers(states[i - 1], steps[i - 1]);
      StepKeeps(states[i - 1], steps[i - 1]);
    }
  }

  /** Nothing is in flight, queued or buffered. */
  predicate Quiescent(sys: System) {
    sys.toGuest == [] && sys.toDevice == [] && sys.device.replies == [] && sys.device.upstream == []
  }

  /** In every quiescent state of every run the guest may send the whole window, less what was rightly left unadvertised:
      more than half of it, and all of it on the agent port. */
  lemma DeferredCreditNeverStalls(states: seq<System>, steps: seq<Step>, i: nat)
    requires Run(states, steps) && i < |states|
    requires Quiescent(states[i]) && states[i].device.conn.Some? && states[i].guest.phase == Open
    ensures var sys := states[i]; 0 < sys.device.rxAlloc ==> 2 * SendCredit(sys.guest) > sys.device.rxAlloc
    ensures var sys := states[i]; sys.device.hostPort == AGENT_PORT ==> SendCredit(sys.guest) == sys.device.rxAlloc
  {
    hide Next, Enabled, Initial, SystemOk;
    var sys := states[i];
    RunCovers(states, steps, i);
    SystemParts(sys);
    SendCreditIsExact(sys.guest, sys.device.rxAlloc, sys.sent, sys.seen);
  }

  // ----- Asking for credit

  /** A request for credit with acceptable fields is answered by an update for everything consumed, after which the guest
      may send all but what is buffered; only a full queue that does not end in an update drops the connection instead. */
  lemma CreditRequestAnswered(s: Stream, h: Header)
    requires StreamOk(s) && s.conn.Some? && WellFormedPacket(h, []) && h.op == OP_CREDIT_REQUEST && NotePeerCredit(s, h).1
    ensures var t := Rx(s, h, []); var noted := NotePeerCredit(s, h).0;
            if CanQueue(noted, 0) || EndsWithCreditUpdate(noted.replies) then
              && t.conn.Some? && t.conn.value.advertised == t.conn.value.consumed == s.conn.value.consumed
              && t.replies != [] && Announces(t.replies[|t.replies| - 1], s.conn.value.consumed)
              && t.replies[|t.replies| - 1].fwd == s.conn.value.consumed
            else t.conn.None?
  {
    hide QueuePayload, NotePeerCredit, StreamOk, FlushCredit, CanQueue, Announces, EndsWithCreditUpdate;
    Budgets(s);
    NoteConsumes(s, h);
    var noted := NotePeerCredit(s, h).0;
    var c := noted.conn.value.(receiveCreditRequested := noted.upstream != []);
    SameRoom(noted, c);
    FlushAnswers(noted.(conn := Some(c)));
  }

  lemma SameRoom(s: Stream, c: Conn)
    ensures CanQueue(s.(conn := Some(c)), 0) == CanQueue(s, 0)
  {
  }

  lemma FlushAnswers(s: Stream)
    requires s.conn.Some?
    ensures var c := s.conn.value; var t := FlushCredit(s, c.consumed).0;
            if CanQueue(s, 0) || EndsWithCreditUpdate(s.replies) then
              && t.conn == Some(c.(advertised := c.consumed)) && t.replies != []
              && Announces(t.replies[|t.replies| - 1], c.consumed) && t.replies[|t.replies| - 1].fwd == c.consumed
            else t.conn.None?
  {
    hide QueuePayload;
  }

  lemma NoteConsumes(s: Stream, h: Header)
    requires s.conn.Some? && NotePeerCredit(s, h).1
    ensures NotePeerCredit(s, h).0.conn.Some? && NotePeerCredit(s, h).0.conn.value.consumed == s.conn.value.consumed
  {
    hide QueuePayload, Nearest;
  }

  /** Data refused for lack of the guest's credit leaves a request for credit queued, unless one is open or the queue full. */
  lemma RefusedDataAsks(s: Stream, data: seq<Byte>)
    requires s.conn.Some? && !s.conn.value.txShutdown && AvailableSendCredit(s) < |data| <= s.maxTx
    ensures var (t, result) := Deliver(s, data);
            && result == Err(Backpressure) && t.conn.Some?
            && (t.conn.value.creditRequested <==> s.conn.value.creditRequested || CanQueue(s, 0))
            && t.replies == s.replies + (if !s.conn.value.creditRequested && CanQueue(s, 0)
                                         then [HostReply(s, OP_CREDIT_REQUEST, 0, s.conn.value.consumed, [])] else [])
  {
    hide QueuePayload;
    assert s.replies + [] == s.replies;
  }
}
