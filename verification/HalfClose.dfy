/** Closing one direction: the guest sees the end of the data after all of it, and a closed direction stays closed. */
module HalfClose {
  import opened Words
  import opened VsockWire
  import opened StreamModel
  import opened StreamInvariant

  /** A connected stream, the replies taken from it since it opened, and whether the host's shutdown was accepted. */
  datatype Session = Session(s: Stream, taken: seq<Reply>, shut: bool)

  datatype Step =
    | Receive(h: Header, data: seq<Byte>)
    | DeliverStep(data: seq<Byte>)
    | ShutdownStep
    | RequestCreditStep
    | ConsumeStep(count: nat)
    | TakeStep(maxBytes: nat)

  function Next(x: Session, step: Step): Session {
    match step
    case Receive(h, data) => x.(s := Rx(x.s, h, data))
    case DeliverStep(data) => x.(s := Deliver(x.s, data).0)
    case ShutdownStep => x.(s := Shutdown(x.s).0, shut := x.shut || Shutdown(x.s).1.Ok?)
    case RequestCreditStep => x.(s := RequestCredit(x.s).0)
    case ConsumeStep(count) => x.(s := ConsumeUpstream(x.s, count))
    case TakeStep(maxBytes) =>
      var (s, reply) := TakeReply(x.s, maxBytes);
      x.(s := s, taken := x.taken + if reply.Some? then [reply.value] else [])
  }

  predicate IsEnd(r: Reply) {
    r.op == OP_SHUTDOWN
  }

  /** Everything the guest gets, in order. */
  function All(taken: seq<Reply>, s: Stream): seq<Reply> {
    taken + s.replies
  }

  predicate HasEnd(q: seq<Reply>) {
    exists i :: 0 <= i < |q| && IsEnd(q[i])
  }

  /** One end of data at most, of the sending direction, and no data after it. */
  predicate Clean(q: seq<Reply>) {
    && (forall i :: 0 <= i < |q| && IsEnd(q[i]) ==> q[i].flags == FLAG_SHUTDOWN_SEND)
    && (forall i, j :: 0 <= i < j < |q| && IsEnd(q[i]) ==> !IsEnd(q[j]) && q[j].op != OP_RW)
  }

  /** The host's side is shut exactly when the guest was told so or closed its receiving side. */
  predicate SessionOk(x: Session) {
    x.s.conn.Some? ==>
      var c := x.s.conn.value; var q := All(x.taken, x.s);
      && Clean(q)
      && (c.txShutdown <==> HasEnd(q) || c.peerReceiveClosed)
      && (x.shut ==> c.txShutdown)
  }

  // ----- Replies come and go

  lemma AppendQuiet(q: seq<Reply>, r: Reply)
    requires Clean(q) && r.op != OP_RW && !IsEnd(r)
    ensures Clean(q + [r]) && (HasEnd(q + [r]) <==> HasEnd(q))
  {
    if HasEnd(q) {
      var i :| 0 <= i < |q| && IsEnd(q[i]);
      assert IsEnd((q + [r])[i]);
    }
    if HasEnd(q + [r]) {
      var i :| 0 <= i < |q + [r]| && IsEnd((q + [r])[i]);
      assert IsEnd(q[i]);
    }
  }

  lemma AppendOpen(q: seq<Reply>, r: Reply)
    requires Clean(q) && !HasEnd(q) && (IsEnd(r) ==> r.flags == FLAG_SHUTDOWN_SEND)
    ensures Clean(q + [r]) && (HasEnd(q + [r]) <==> IsEnd(r))
  {
    assert forall i :: 0 <= i < |q| ==> !IsEnd(q[i]);
    assert (q + [r])[|q|] == r;
  }

  /** The same operations and flags. */
  lemma Relabelled(q: seq<Reply>, p: seq<Reply>)
    requires Clean(q) && |p| == |q| && forall i :: 0 <= i < |q| ==> p[i].op == q[i].op && p[i].flags == q[i].flags
    ensures Clean(p) && (HasEnd(p) <==> HasEnd(q))
  {
    if HasEnd(q) {
      var i :| 0 <= i < |q| && IsEnd(q[i]);
      assert IsEnd(p[i]);
    }
    if HasEnd(p) {
      var i :| 0 <= i < |p| && IsEnd(p[i]);
      assert IsEnd(q[i]);
    }
  }

  /** Dropping queued data keeps the rest in order. */
  lemma {:induction false} DropData(taken: seq<Reply>, replies: seq<Reply>)
    requires Clean(taken + replies)
    ensures var kept := taken + Retain(replies, OP_RW, false);
            Clean(kept) && (HasEnd(kept) <==> HasEnd(taken + replies))
    decreases |replies|
  {
    if replies != [] {
      var first, rest := replies[0], replies[1..];
      assert taken + replies == (taken + [first]) + rest;
      DropData(taken + [first], rest);
      var kept := Retain(rest, OP_RW, false);
      if first.op == OP_RW {
        RemoveData(taken, first, kept);
        assert Retain(replies, OP_RW, false) == kept;
      } else {
        assert (taken + [first]) + kept == taken + Retain(replies, OP_RW, false);
      }
    }
  }

  lemma RemoveData(a: seq<Reply>, r: Reply, b: seq<Reply>)
    requires Clean(a + [r] + b) && !IsEnd(r)
    ensures Clean(a + b) && (HasEnd(a + b) <==> HasEnd(a + [r] + b))
  {
    var q, p := a + [r] + b, a + b;
    assert forall i :: 0 <= i < |p| ==> p[i] == q[if i < |a| then i else i + 1];
    if HasEnd(q) {
      var i :| 0 <= i < |q| && IsEnd(q[i]);
      assert IsEnd(p[if i < |a| then i else i - 1]);
    }
    if HasEnd(p) {
      var i :| 0 <= i < |p| && IsEnd(p[i]);
      assert IsEnd(q[if i < |a| then i else i + 1]);
    }
  }

  // ----- Operations

  /** A control reply that is no end of data. */
  lemma RespondOk(x: Session, fwd: nat, op: nat, flags: nat)
    requires SessionOk(x) && x.s.conn.Some? && op != OP_RW && op != OP_SHUTDOWN
    ensures var t := Respond(x.s, fwd, op, flags).0;
            SessionOk(x.(s := t)) && t.conn.Some? && t.conn.value == x.s.conn.value.(advertised := t.conn.value.advertised)
  {
    hide Clean, HasEnd, CanQueue;
    var s := x.s;
    var t := Respond(s, fwd, op, flags).0;
    var q := All(x.taken, s);
    if op == OP_CREDIT_UPDATE && EndsWithCreditUpdate(s.replies) {
      Relabelled(q, All(x.taken, t));
    } else if t.replies != s.replies {
      var r := HostReply(s, op, flags, fwd, []);
      AppendQuiet(q, r);
      assert All(x.taken, t) == q + [r];
    }
  }

  lemma FlushOk(x: Session, fwd: nat)
    requires SessionOk(x) && x.s.conn.Some?
    ensures SessionOk(x.(s := FlushCredit(x.s, fwd).0))
  {
    hide SessionOk, Respond;
    RespondOk(x, fwd, OP_CREDIT_UPDATE, 0);
    NoConnection(x.(s := DropConnection(Respond(x.s, fwd, OP_CREDIT_UPDATE, 0).0)));
  }

  lemma NoConnection(x: Session)
    ensures x.s.conn.None? ==> SessionOk(x)
  {
  }

  /** Credit fields of the connection do not matter here. */
  lemma SameEnds(x: Session, c: Conn)
    requires SessionOk(x) && x.s.conn.Some?
    requires c.txShutdown == x.s.conn.value.txShutdown && c.peerReceiveClosed == x.s.conn.value.peerReceiveClosed
    ensures SessionOk(x.(s := x.s.(conn := Some(c)))) && forall up :: SessionOk(x.(s := x.s.(conn := Some(c), upstream := up)))
  {
    hide Clean, HasEnd;
  }

  lemma NoteOk(x: Session, h: Header)
    requires SessionOk(x) && x.s.conn.Some?
    ensures SessionOk(x.(s := NotePeerCredit(x.s, h).0))
  {
    hide SessionOk, FlushCredit, Nearest, Rst;
    var c := x.s.conn.value;
    var ack := Nearest(h.fwdCnt, c.sent);
    NoConnection(x.(s := DropConnection(Rst(x.s, x.s.guestPort, x.s.hostPort))));
    if c.acked <= ack <= c.sent {
      SameEnds(x, Credited(c, h.bufAlloc, ack));
      FlushOk(x.(s := x.s.(conn := Some(Credited(c, h.bufAlloc, ack)))), c.consumed);
    }
  }

  lemma OnShutdownOk(x: Session, flags: nat)
    requires SessionOk(x) && x.s.conn.Some?
    ensures SessionOk(x.(s := OnShutdown(x.s, flags)))
  {
    hide Clean, HasEnd, Retain;
    DropData(x.taken, x.s.replies);
  }

  lemma OnDataOk(x: Session, h: Header, data: seq<Byte>)
    requires SessionOk(x) && x.s.conn.Some?
    ensures SessionOk(x.(s := OnData(x.s, h, data)))
  {
    hide Clean, HasEnd, Rst;
  }

  lemma OnCreditRequestOk(x: Session)
    requires SessionOk(x) && x.s.conn.Some?
    ensures SessionOk(x.(s := OnCreditRequest(x.s)))
  {
    hide SessionOk, FlushCredit;
    var c := x.s.conn.value.(receiveCreditRequested := x.s.upstream != []);
    SameEnds(x, c);
    FlushOk(x.(s := x.s.(conn := Some(c))), c.consumed);
  }

  lemma ConnectedOk(x: Session, h: Header, data: seq<Byte>)
    requires SessionOk(x) && x.s.conn.Some?
    ensures SessionOk(x.(s := OnConnected(x.s, h, data)))
  {
    hide SessionOk, NotePeerCredit, OnShutdown, OnData, OnCreditRequest, Rst;
    NoteOk(x, h);
    var noted := NotePeerCredit(x.s, h).0;
    var y := x.(s := noted);
    NoConnection(x.(s := RejectPacket(x.s, h)));
    if noted.conn.Some? {
      OnShutdownOk(y, h.flags);
      OnDataOk(y, h, data);
      OnCreditRequestOk(y);
    }
  }

  lemma ReceiveOk(x: Session, h: Header, data: seq<Byte>)
    requires SessionOk(x) && x.s.conn.Some? && !x.s.connecting
    ensures SessionOk(x.(s := Rx(x.s, h, data)))
  {
    hide SessionOk, OnConnected, Rst;
    ConnectedOk(x, h, data);
    NoConnection(x.(s := RejectPacket(x.s, h)));
    NoConnection(x.(s := DropConnection(x.s)));
    var dropped := RejectPacket(x.s, h).(connecting := false);
    NoConnection(x.(s := dropped));
  }

  lemma DeliverOk(x: Session, data: seq<Byte>)
    requires SessionOk(x) && x.s.conn.Some?
    ensures SessionOk(x.(s := Deliver(x.s, data).0))
  {
    hide Clean, HasEnd, SendCapacity, AvailableSendCredit;
    var s, c := x.s, x.s.conn.value;
    RequestCreditOk(x);
    if !c.txShutdown && data != [] && |data| <= SendCapacity(s) {
      var r := HostReply(s, OP_RW, 0, c.consumed, data);
      AppendOpen(All(x.taken, s), r);
      assert All(x.taken, Deliver(s, data).0) == All(x.taken, s) + [r];
    }
  }

  lemma RequestCreditOk(x: Session)
    requires SessionOk(x) && x.s.conn.Some?
    ensures SessionOk(x.(s := RequestCredit(x.s).0))
  {
    hide Clean, HasEnd;
    var s := x.s;
    var r := HostReply(s, OP_CREDIT_REQUEST, 0, s.conn.value.consumed, []);
    if RequestCredit(s).0.replies != s.replies {
      AppendQuiet(All(x.taken, s), r);
      assert All(x.taken, RequestCredit(s).0) == All(x.taken, s) + [r];
    }
  }

  lemma ShutdownOk(x: Session)
    requires SessionOk(x) && x.s.conn.Some?
    ensures SessionOk(Next(x, ShutdownStep))
  {
    hide Clean, HasEnd, CanQueue;
    var s, c := x.s, x.s.conn.value;
    if !c.txShutdown && CanQueue(s, 0) {
      var r := HostReply(s, OP_SHUTDOWN, FLAG_SHUTDOWN_SEND, c.consumed, []);
      AppendOpen(All(x.taken, s), r);
      assert CanQueue(s.(conn := Some(c.(txShutdown := true))), 0) by { SameRoom(s, c.(txShutdown := true)); }
      assert All(x.taken, Shutdown(s).0) == All(x.taken, s) + [r];
    }
  }

  lemma SameRoom(s: Stream, c: Conn)
    ensures CanQueue(s.(conn := Some(c)), 0) == CanQueue(s, 0)
  {
  }

  lemma ConsumeOk(x: Session, count: nat)
    requires SessionOk(x) && x.s.conn.Some?
    ensures SessionOk(x.(s := ConsumeUpstream(x.s, count)))
  {
    hide SessionOk, FlushCredit;
    var n := Min(count, |x.s.upstream|);
    if n != 0 {
      var drained := x.s.(upstream := x.s.upstream[n..]);
      SameEnds(x, Advanced(drained, n));
      var y := x.(s := drained.(conn := Some(Advanced(drained, n))));
      assert y.s == x.s.(conn := Some(Advanced(drained, n)), upstream := drained.upstream);
      FlushOk(y, Advanced(drained, n).consumed);
    }
  }

  lemma TakeOk(x: Session, maxBytes: nat)
    requires SessionOk(x)
    ensures SessionOk(Next(x, TakeStep(maxBytes)))
  {
    hide Clean, HasEnd;
    if TakeReply(x.s, maxBytes).1.Some? {
      assert x.taken + x.s.replies == (x.taken + [x.s.replies[0]]) + x.s.replies[1..];
    } else {
      assert x.taken + [] == x.taken;
    }
  }

  lemma StepOk(x: Session, step: Step)
    requires SessionOk(x) && x.s.conn.Some? && !x.s.connecting
    ensures SessionOk(Next(x, step))
  {
    hide SessionOk, Rx, Deliver, RequestCredit, ConsumeUpstream;
    match step
    case Receive(h, data) => ReceiveOk(x, h, data);
    case DeliverStep(data) => DeliverOk(x, data);
    case ShutdownStep => ShutdownOk(x);
    case RequestCreditStep => RequestCreditOk(x);
    case ConsumeStep(count) => ConsumeOk(x, count);
    case TakeStep(maxBytes) => TakeOk(x, maxBytes);
  }

  // ----- Whole runs of one connection

  /** Through all steps the connection stays open. */
  predicate Lives(x: Session, steps: seq<Step>, after: Session)
    decreases |steps|
  {
    && x.s.conn.Some? && !x.s.connecting
    && if steps == [] then after == x else Lives(Next(x, steps[0]), steps[1..], after)
  }

  /** A connection just opened; earlier replies in the queue carry neither data nor an end. */
  predicate IsOpened(x: Session) {
    && x.s.conn.Some? && !x.s.conn.value.txShutdown && !x.s.conn.value.peerReceiveClosed && x.taken == [] && !x.shut
    && forall i :: 0 <= i < |x.s.replies| ==> !IsEnd(x.s.replies[i]) && x.s.replies[i].op != OP_RW
  }

  lemma {:induction false} RunOk(x: Session, steps: seq<Step>, after: Session)
    requires SessionOk(x) && Lives(x, steps, after)
    ensures SessionOk(after) && after.s.conn.Some?
    decreases |steps|
  {
    hide SessionOk, Next;
    if steps != [] {
      StepOk(x, steps[0]);
      RunOk(Next(x, steps[0]), steps[1..], after);
    }
  }

  /** While a connection lives, whatever happens: of all the replies the guest gets, at most one ends the data, it says that
      the host sends no more, and no data follows it. After the host's shutdown was accepted it is there, unless the guest
      closed its receiving side; before, it is not. */
  lemma EndOfData(opened_: Session, steps: seq<Step>, x: Session)
    requires IsOpened(opened_) && Lives(opened_, steps, x)
    ensures x.s.conn.Some? && Clean(All(x.taken, x.s))
    ensures x.shut ==> HasEnd(All(x.taken, x.s)) || x.s.conn.value.peerReceiveClosed
    ensures !x.s.conn.value.txShutdown ==> !HasEnd(All(x.taken, x.s)) && !x.shut
  {
    assert opened_.taken + opened_.s.replies == opened_.s.replies;
    hide Next;
    RunOk(opened_, steps, x);
  }

  // ----- The guest's half-close

  /** A shutdown packet with acceptable credit closes exactly the directions it names, for good: a closed receiving side
      leaves no data queued and refuses more, and data on a closed sending side ends the connection. */
  lemma GuestCloses(s: Stream, h: Header, data: seq<Byte>, more: Header, bytes: seq<Byte>)
    requires StreamOk(s) && s.conn.Some? && WellFormedPacket(h, data) && h.op == OP_SHUTDOWN && more.op == OP_RW
    ensures var t := Rx(s, h, data);
            t.conn.Some? ==>
              && t.conn.value.peerReceiveClosed == (s.conn.value.peerReceiveClosed || h.flags == 1 || h.flags == 3)
              && t.conn.value.rxShutdown == (s.conn.value.rxShutdown || h.flags == 2 || h.flags == 3)
              && (h.flags != 2 ==> QueuePayload(t.replies) == [] && Deliver(t, bytes) == (t, Err(UnknownConnection)))
              && (h.flags >= 2 ==> !Rx(t, more, bytes).Live())
  {
    hide QueuePayload, StreamOk, NotePeerCredit, Retain, Rst;
    Budgets(s);
    NotePeerCreditKeeps(s, h);
    var (noted, kept) := NotePeerCredit(s, h);
    NoteKeepsEnds(s, h);
    if kept && noted.conn.Some? {
      OnShutdownKeeps(noted, h.flags);
      var t := OnShutdown(noted, h.flags);
      Budgets(t);
      RejectEnds(t, more);
      assert 1 <= h.flags <= 3;
    }
  }

  lemma RejectEnds(t: Stream, h: Header)
    ensures !RejectPacket(t, h).Live()
  {
    hide QueuePayload;
  }

  lemma NoteKeepsEnds(s: Stream, h: Header)
    requires s.conn.Some?
    ensures var (t, kept) := NotePeerCredit(s, h);
            && (kept ==> t.conn.Some? && t.conn.value.peerReceiveClosed == s.conn.value.peerReceiveClosed
                         && t.conn.value.rxShutdown == s.conn.value.rxShutdown)
            && (!kept ==> t.conn.None?)
  {
    hide QueuePayload, Nearest;
  }
}
