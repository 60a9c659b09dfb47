/** What every operation of a stream keeps. */
module StreamInvariant {
  import opened Words
  import opened VsockWire
  import opened StreamModel

  predicate IsRst(r: Reply) {
    r.op == OP_RST
  }

  /** Replies carry payload exactly when they are data, and go between the stream's own ports. */
  predicate ReplyOk(guestPort: nat, hostPort: nat, rxAlloc: nat, r: Reply) {
    && (r.payload != [] <==> r.op == OP_RW)
    && |r.payload| <= MAX_PACKET_DATA_BYTES
    && (!IsRst(r) ==> r.bufAlloc == rxAlloc)
    && r.srcPort == hostPort && r.dstPort == guestPort
    && r.flags == if r.op == OP_SHUTDOWN then FLAG_SHUTDOWN_SEND else 0
  }

  predicate RepliesOk(guestPort: nat, hostPort: nat, rxAlloc: nat, replies: seq<Reply>) {
    forall i :: 0 <= i < |replies| ==> ReplyOk(guestPort, hostPort, rxAlloc, replies[i])
  }

  /** Unadvertised consumption is zero or below half of the smaller window; always zero on the agent port. */
  predicate DeferralOk(s: Stream, c: Conn) {
    && c.advertised <= c.consumed
    && (c.consumed == c.advertised || MayDefer(s, c, c.consumed))
  }

  predicate ConnOk(s: Stream, c: Conn) {
    && |s.upstream| <= s.rxAlloc
    && c.acked <= c.sent <= c.acked + s.maxTx
    && DeferralOk(s, c)
    && (c.peerReceiveClosed ==> c.txShutdown && QueueBytes(s.replies) == 0)
    && (c.receiveCreditRequested ==> s.upstream != [])
  }

  predicate StreamOk(s: Stream) {
    && s.rxAlloc < HALF_U32 && s.maxTx < HALF_U32
    && |s.replies| <= MAX_QUEUED_REPLIES
    && QueueBytes(s.replies) <= s.maxTx
    && RepliesOk(s.guestPort, s.hostPort, s.rxAlloc, s.replies)
    && !(s.conn.Some? && s.connecting)
    && (s.conn.None? ==> s.upstream == [])
    && (s.conn.Some? ==> ConnOk(s, s.conn.value))
  }

  function Consumed(s: Stream): nat {
    if s.conn.Some? then s.conn.value.consumed else 0
  }

  /** Once a reply of the connection is queued, only replies of it with no smaller total follow. */
  predicate Precedes(r: Reply, later: Reply) {
    !IsRst(r) ==> !IsRst(later) && r.fwd <= later.fwd
  }

  /** Leftover resets come first; after them the advertised totals never decrease and none is ahead. */
  predicate InOrder(replies: seq<Reply>, consumed: nat) {
    && (forall i, j {:trigger Precedes(replies[i], replies[j])} ::
          0 <= i < j < |replies| ==> Precedes(replies[i], replies[j]))
    && (forall i :: 0 <= i < |replies| && !IsRst(replies[i]) ==> replies[i].fwd <= consumed)
  }

  predicate OnlyResets(replies: seq<Reply>) {
    forall i :: 0 <= i < |replies| ==> IsRst(replies[i])
  }

  predicate Ordered(s: Stream) {
    if s.Live() then InOrder(s.replies, Consumed(s)) else OnlyResets(s.replies)
  }

  /** The identity and budgets of a stream never change. */
  predicate SameStream(s: Stream, t: Stream) {
    s.guestPort == t.guestPort && s.hostPort == t.hostPort && s.rxAlloc == t.rxAlloc && s.maxTx == t.maxTx
  }

  /** A step keeps the invariant; the order survives unless a live connection was dropped. */
  predicate Keeps(s: Stream, t: Stream) {
    && SameStream(s, t)
    && StreamOk(t)
    && (Ordered(s) && (t.Live() || !s.Live()) ==> Ordered(t))
  }

  predicate SameLiveness(s: Stream, t: Stream) {
    s.conn.Some? == t.conn.Some? && s.connecting == t.connecting
  }

  // ----- Queue payloads

  lemma {:induction false} PayloadConcat(a: seq<Reply>, b: seq<Reply>)
    ensures QueuePayload(a + b) == QueuePayload(a) + QueuePayload(b)
  {
    if a == [] {
      assert a + b == b;
    } else {
      assert (a + b)[1..] == a[1..] + b;
      PayloadConcat(a[1..], b);
      assert a[0].payload + (QueuePayload(a[1..]) + QueuePayload(b))
          == (a[0].payload + QueuePayload(a[1..])) + QueuePayload(b);
    }
  }

  lemma PayloadAppend(a: seq<Reply>, r: Reply)
    ensures QueuePayload(a + [r]) == QueuePayload(a) + r.payload
  {
    PayloadConcat(a, [r]);
    assert QueuePayload([r]) == r.payload + [];
  }

  /** Changing the last reply's advertised total leaves the payloads alone. */
  lemma PayloadRestamp(a: seq<Reply>, fwd: nat)
    requires a != []
    ensures QueuePayload(a[|a| - 1 := a[|a| - 1].(fwd := fwd)]) == QueuePayload(a)
  {
    var last := |a| - 1;
    PayloadAppend(a[..last], a[last]);
    PayloadAppend(a[..last], a[last].(fwd := fwd));
    assert a == a[..last] + [a[last]];
    assert a[last := a[last].(fwd := fwd)] == a[..last] + [a[last].(fwd := fwd)];
  }

  /** A queue without data carries no payload. */
  lemma {:induction false} NoDataNoPayload(a: seq<Reply>)
    requires forall i :: 0 <= i < |a| ==> a[i].payload == []
    ensures QueuePayload(a) == []
  {
    if a != [] {
      NoDataNoPayload(a[1..]);
    }
  }

  lemma {:induction false} RetainIsSublist(a: seq<Reply>, op: nat, keep: bool)
    ensures var b := Retain(a, op, keep);
            && |b| <= |a|
            && (forall i :: 0 <= i < |b| ==> b[i] in a && (b[i].op == op) == keep)
  {
    if a != [] {
      RetainIsSublist(a[1..], op, keep);
    }
  }

  /** The reply every later one of an ordered queue comes after. */
  lemma FirstPrecedes(a: seq<Reply>, consumed: nat, r: Reply)
    requires a != [] && InOrder(a, consumed) && r in a[1..]
    ensures Precedes(a[0], r)
  {
    var k :| 0 <= k < |a[1..]| && a[1..][k] == r;
    assert Precedes(a[0], a[k + 1]);
  }

  lemma RestInOrder(a: seq<Reply>, consumed: nat)
    requires a != [] && InOrder(a, consumed)
    ensures InOrder(a[1..], consumed) && (!IsRst(a[0]) ==> a[0].fwd <= consumed)
  {
    forall i, j | 0 <= i < j < |a[1..]|
      ensures Precedes(a[1..][i], a[1..][j])
    {
      assert Precedes(a[i + 1], a[j + 1]);
    }
  }

  lemma PrependInOrder(r: Reply, rest: seq<Reply>, consumed: nat)
    requires InOrder(rest, consumed) && (!IsRst(r) ==> r.fwd <= consumed)
    requires forall i :: 0 <= i < |rest| ==> Precedes(r, rest[i])
    ensures InOrder([r] + rest, consumed)
  {
    var all := [r] + rest;
    forall i, j | 0 <= i < j < |all|
      ensures Precedes(all[i], all[j])
    {
      if i > 0 { assert Precedes(rest[i - 1], rest[j - 1]); }
    }
  }

  lemma {:induction false} RetainKeepsOrder(a: seq<Reply>, op: nat, keep: bool, consumed: nat)
    requires InOrder(a, consumed)
    ensures InOrder(Retain(a, op, keep), consumed)
  {
    hide InOrder, Precedes;
    if a == [] {
      assert Retain(a, op, keep) == a;
    } else {
      RestInOrder(a, consumed);
      RetainKeepsOrder(a[1..], op, keep, consumed);
      RetainIsSublist(a[1..], op, keep);
      var rest := Retain(a[1..], op, keep);
      forall i | 0 <= i < |rest|
        ensures Precedes(a[0], rest[i])
      {
        FirstPrecedes(a, consumed, rest[i]);
      }
      PrependInOrder(a[0], rest, consumed);
      assert Retain(a, op, keep) == (if (a[0].op == op) == keep then [a[0]] else []) + rest;
      assert [] + rest == rest;
    }
  }

  // ----- Building blocks

  /** What queuing a reply without payload leaves as it was. */
  predicate OnlyQueued(s: Stream, t: Stream) {
    && SameStream(s, t) && t.connecting == s.connecting && t.upstream == s.upstream
    && t.conn.Some? == s.conn.Some? && Consumed(t) == Consumed(s)
    && QueuePayload(t.replies) == QueuePayload(s.replies)
  }

  lemma AppendKeepsOrder(a: seq<Reply>, r: Reply, consumed: nat)
    ensures InOrder(a, consumed) && !IsRst(r) && r.fwd == consumed ==> InOrder(a + [r], consumed)
    ensures OnlyResets(a) && IsRst(r) ==> OnlyResets(a + [r])
  {
  }

  lemma RestampKeepsOrder(a: seq<Reply>, consumed: nat)
    requires EndsWithCreditUpdate(a) && InOrder(a, consumed)
    ensures InOrder(a[|a| - 1 := a[|a| - 1].(fwd := consumed)], consumed)
  {
  }

  lemma QueueReplyKeeps(s: Stream, r: Reply)
    requires StreamOk(s) && ReplyOk(s.guestPort, s.hostPort, s.rxAlloc, r) && r.op != OP_RW
    requires r.op == OP_CREDIT_UPDATE ==> r.fwd == Consumed(s)
    ensures StreamOk(QueueReply(s, r).0) && OnlyQueued(s, QueueReply(s, r).0)
  {
    PayloadAppend(s.replies, r);
    assert QueuePayload(s.replies) + [] == QueuePayload(s.replies);
  }

  lemma RespondKeeps(s: Stream, op: nat, flags: nat)
    requires StreamOk(s) && op != OP_RW && op != OP_RST && flags == if op == OP_SHUTDOWN then FLAG_SHUTDOWN_SEND else 0
    ensures var t := Respond(s, Consumed(s), op, flags).0;
            && StreamOk(t) && OnlyQueued(s, t)
            && (InOrder(s.replies, Consumed(s)) ==> InOrder(t.replies, Consumed(s)))
  {
    if op == OP_CREDIT_UPDATE && EndsWithCreditUpdate(s.replies) {
      PayloadRestamp(s.replies, Consumed(s));
      if InOrder(s.replies, Consumed(s)) { RestampKeepsOrder(s.replies, Consumed(s)); }
    } else {
      var r := HostReply(s, op, flags, Consumed(s), []);
      QueueReplyKeeps(s, r);
      AppendKeepsOrder(s.replies, r, Consumed(s));
    }
  }

  lemma RstKeeps(s: Stream, guestPort: nat, hostPort: nat)
    requires StreamOk(s) && guestPort == s.guestPort && hostPort == s.hostPort
    ensures var t := Rst(s, guestPort, hostPort);
            && StreamOk(t) && OnlyQueued(s, t) && t.conn == s.conn
            && (OnlyResets(s.replies) ==> OnlyResets(t.replies))
  {
    QueueReplyKeeps(s, RstReply(guestPort, hostPort));
    AppendKeepsOrder(s.replies, RstReply(guestPort, hostPort), 0);
  }

  /** A retired stream is empty apart from resets, so its queued bytes are zero. */
  lemma RetireKeeps(s: Stream)
    requires StreamOk(s)
    ensures var t := Retire(s);
            StreamOk(t) && SameStream(s, t) && !t.Live() && OnlyResets(t.replies) && QueuePayload(t.replies) == []
  {
    RetainIsSublist(s.replies, OP_RST, true);
    NoDataNoPayload(Retain(s.replies, OP_RST, true));
  }

  lemma Budgets(s: Stream)
    requires StreamOk(s)
    ensures s.rxAlloc < HALF_U32 && s.maxTx < HALF_U32
    ensures s.conn.None? ==> s.upstream == []
    ensures !(s.conn.Some? && s.connecting)
  {
  }

  // ----- Operations

  /** A flush overwrites the advertised total. */
  lemma FlushIgnoresAdvertised(s: Stream, fwd: nat, advertised: nat)
    requires s.conn.Some?
    ensures FlushCredit(s.(conn := Some(s.conn.value.(advertised := advertised))), fwd) == FlushCredit(s, fwd)
  {
  }

  /** A flush either advertises everything consumed or drops the connection. */
  predicate Flushed(s: Stream, t: Stream) {
    && SameStream(s, t) && StreamOk(t)
    && (t.Live() ==> && OnlyQueued(s, t) && t.conn.Some?
                     && t.conn.value.advertised == t.conn.value.consumed
                     && (InOrder(s.replies, Consumed(s)) ==> InOrder(t.replies, Consumed(s))))
  }

  lemma FlushKeeps(s: Stream)
    requires s.conn.Some? && !s.connecting
    requires StreamOk(s.(conn := Some(s.conn.value.(advertised := s.conn.value.consumed))))
    ensures var (t, kept) := FlushCredit(s, Consumed(s));
            Flushed(s, t) && t.Live() == kept
  {
    FlushIgnoresAdvertised(s, Consumed(s), Consumed(s));
    RespondKeeps(s.(conn := Some(s.conn.value.(advertised := s.conn.value.consumed))), OP_CREDIT_UPDATE, 0);
  }

  lemma NotePeerCreditKeeps(s: Stream, h: Header)
    requires StreamOk(s)
    ensures var (t, kept) := NotePeerCredit(s, h);
            Keeps(s, t) && t.connecting == s.connecting && t.conn.Some? == kept
  {
    if s.conn.Some? {
      var c := s.conn.value;
      var ack := Nearest(h.fwdCnt, c.sent);
      if ack > c.sent {
        RstKeeps(s, s.guestPort, s.hostPort);
      } else if ack >= c.acked {
        if h.bufAlloc < c.peerBufAlloc && c.consumed != c.advertised {
          FlushKeeps(s.(conn := Some(Credited(c, h.bufAlloc, ack))));
        }
      }
    }
  }

  lemma RejectPacketKeeps(s: Stream, h: Header)
    requires StreamOk(s) && h.srcPort == s.guestPort && h.dstPort == s.hostPort
    ensures Keeps(s, RejectPacket(s, h)) && !RejectPacket(s, h).Live()
  {
    if h.op != OP_RST {
      RstKeeps(s, h.srcPort, h.dstPort);
    }
  }

  lemma OnRequestKeeps(s: Stream, h: Header)
    requires StreamOk(s) && h.srcPort == s.guestPort && h.dstPort == s.hostPort
    ensures Keeps(s, OnRequest(s, h))
  {
    if h.fwdCnt != 0 || s.Live() {
      RejectPacketKeeps(s, h);
    } else {
      RespondKeeps(s, OP_RESPONSE, 0);
      if Ordered(s) { assert InOrder(s.replies, 0); }
    }
  }

  lemma DroppedData(s: Stream)
    requires RepliesOk(s.guestPort, s.hostPort, s.rxAlloc, s.replies)
    ensures var kept := Retain(s.replies, OP_RW, false);
            |kept| <= |s.replies| && RepliesOk(s.guestPort, s.hostPort, s.rxAlloc, kept) && QueuePayload(kept) == []
  {
    var kept := Retain(s.replies, OP_RW, false);
    RetainIsSublist(s.replies, OP_RW, false);
    NoDataNoPayload(kept);
  }

  lemma OnShutdownKeeps(s: Stream, flags: nat)
    requires StreamOk(s) && s.conn.Some?
    ensures Keeps(s, OnShutdown(s, flags)) && OnShutdown(s, flags).conn.Some?
    ensures ClosesReceive(flags) ==> QueuePayload(OnShutdown(s, flags).replies) == []
  {
    hide RepliesOk, QueuePayload, InOrder, Retain;
    if ClosesReceive(flags) {
      DroppedData(s);
      if Ordered(s) { RetainKeepsOrder(s.replies, OP_RW, false, Consumed(s)); }
    }
  }

  lemma OnDataKeeps(s: Stream, h: Header, data: seq<Byte>)
    requires StreamOk(s) && s.conn.Some? && h.srcPort == s.guestPort && h.dstPort == s.hostPort
    ensures Keeps(s, OnData(s, h, data))
  {
    if !Fits(s, data) { RstKeeps(s, h.srcPort, h.dstPort); }
  }

  lemma OnCreditRequestKeeps(s: Stream)
    requires StreamOk(s) && s.conn.Some?
    ensures Keeps(s, OnCreditRequest(s))
  {
    FlushKeeps(s.(conn := Some(s.conn.value.(receiveCreditRequested := s.upstream != []))));
  }

  lemma OnConnectedKeeps(s: Stream, h: Header, data: seq<Byte>)
    requires StreamOk(s) && !s.connecting && h.srcPort == s.guestPort && h.dstPort == s.hostPort
    ensures Keeps(s, OnConnected(s, h, data))
  {
    if s.conn.None? {
      RstKeeps(s, h.srcPort, h.dstPort);
    } else if h.op == OP_RW && s.conn.value.rxShutdown {
      RejectPacketKeeps(s, h);
    } else {
      NotePeerCreditKeeps(s, h);
      var (noted, ok) := NotePeerCredit(s, h);
      if ok {
        if h.op == OP_SHUTDOWN { OnShutdownKeeps(noted, h.flags); }
        else if h.op == OP_RW { OnDataKeeps(noted, h, data); }
        else if h.op == OP_CREDIT_REQUEST { OnCreditRequestKeeps(noted); }
      }
    }
  }

  lemma RxKeeps(s: Stream, h: Header, data: seq<Byte>)
    requires StreamOk(s) && h.srcPort == s.guestPort && h.dstPort == s.hostPort
    ensures Keeps(s, Rx(s, h, data))
  {
    RejectPacketKeeps(s, h);
    OnRequestKeeps(s, h);
    if !s.connecting { OnConnectedKeeps(s, h, data); }
  }

  /** After a packet no host-initiated connection is still waiting: it was accepted or it ended. */
  lemma RxNeverConnects(s: Stream, h: Header, data: seq<Byte>)
    requires StreamOk(s)
    ensures !Rx(s, h, data).connecting
  {
    hide StreamOk, QueuePayload, NotePeerCredit, Respond;
    Budgets(s);
    NotePeerCreditKeeps(s, h);
    if s.conn.None? { var t := Respond(s, 0, OP_RESPONSE, 0); RespondKeepsConnecting(s, 0, OP_RESPONSE, 0); }
    var noted := NotePeerCredit(s, h).0;
    if noted.conn.Some? {
      RespondKeepsConnecting(noted.(conn := Some(noted.conn.value.(receiveCreditRequested := noted.upstream != []))),
                             noted.conn.value.consumed, OP_CREDIT_UPDATE, 0);
    }
  }

  lemma RespondKeepsConnecting(s: Stream, fwd: nat, op: nat, flags: nat)
    ensures Respond(s, fwd, op, flags).0.connecting == s.connecting
  {
  }

  lemma RequestKeeps(s: Stream)
    requires StreamOk(s)
    ensures Keeps(s, Request(s).0)
  {
    if !s.Live() {
      var r := HostReply(s, OP_REQUEST, 0, 0, []);
      QueueReplyKeeps(s, r);
      if Ordered(s) {
        assert InOrder(s.replies, 0);
        AppendKeepsOrder(s.replies, r, 0);
      }
    }
  }

  lemma RequestCreditKeeps(s: Stream)
    requires StreamOk(s)
    ensures Keeps(s, RequestCredit(s).0) && SameLiveness(s, RequestCredit(s).0)
    ensures QueuePayload(RequestCredit(s).0.replies) == QueuePayload(s.replies)
  {
    if s.conn.Some? && !s.conn.value.creditRequested {
      var r := HostReply(s, OP_CREDIT_REQUEST, 0, Consumed(s), []);
      QueueReplyKeeps(s, r);
      AppendKeepsOrder(s.replies, r, Consumed(s));
    }
  }

  lemma DeliverKeeps(s: Stream, data: seq<Byte>)
    requires StreamOk(s)
    ensures Keeps(s, Deliver(s, data).0) && SameLiveness(s, Deliver(s, data).0)
    ensures QueuePayload(Deliver(s, data).0.replies) == QueuePayload(s.replies) + (if Deliver(s, data).1.Ok? then data else [])
  {
    RequestCreditKeeps(s);
    if s.conn.Some? && !s.conn.value.txShutdown && 0 < |data| <= SendCapacity(s) {
      var r := HostReply(s, OP_RW, 0, Consumed(s), data);
      PayloadAppend(s.replies, r);
      AppendKeepsOrder(s.replies, r, Consumed(s));
    }
  }

  lemma ShutdownKeeps(s: Stream)
    requires StreamOk(s)
    ensures Keeps(s, Shutdown(s).0) && SameLiveness(s, Shutdown(s).0)
    ensures QueuePayload(Shutdown(s).0.replies) == QueuePayload(s.replies)
  {
    if s.conn.Some? && !s.conn.value.txShutdown && CanQueue(s, 0) {
      RespondKeeps(s.(conn := Some(s.conn.value.(txShutdown := true))), OP_SHUTDOWN, FLAG_SHUTDOWN_SEND);
    }
  }

  lemma LaterConsumption(replies: seq<Reply>, earlier: nat, later: nat)
    requires earlier <= later
    ensures InOrder(replies, earlier) ==> InOrder(replies, later)
  {
  }

  lemma AdvancedOk(s: Stream, count: nat, advertised: nat)
    requires s.conn.Some? && !s.connecting
    requires StreamOk(s.(conn := Some(s.conn.value.(receiveCreditRequested := false))))
    requires advertised <= Advanced(s, count).consumed
    requires advertised == Advanced(s, count).consumed || MayDefer(s, s.conn.value.(advertised := advertised), Advanced(s, count).consumed)
    ensures StreamOk(s.(conn := Some(Advanced(s, count).(advertised := advertised))))
  {
  }

  lemma AdvanceReceiveCreditKeeps(s: Stream, count: nat)
    requires s.conn.Some? && !s.connecting
    requires StreamOk(s.(conn := Some(s.conn.value.(receiveCreditRequested := false))))
    ensures Keeps(s, AdvanceReceiveCredit(s, count))
  {
    LaterConsumption(s.replies, s.conn.value.consumed, Advanced(s, count).consumed);
    if Defers(s, count) {
      AdvancedOk(s, count, s.conn.value.advertised);
    } else {
      AdvancedOk(s, count, Advanced(s, count).consumed);
      FlushKeeps(s.(conn := Some(Advanced(s, count))));
    }
  }

  lemma ConsumeUpstreamKeeps(s: Stream, maxBytes: nat)
    requires StreamOk(s)
    ensures Keeps(s, ConsumeUpstream(s, maxBytes))
    ensures !s.connecting ==> !ConsumeUpstream(s, maxBytes).connecting
  {
    var count := Min(maxBytes, |s.upstream|);
    if count != 0 {
      AdvanceReceiveCreditKeeps(s.(upstream := s.upstream[count..]), count);
    }
  }

  /** A peek shows exactly the bytes that consuming as many removes, from the front. */
  lemma ConsumeUpstreamTakesPeek(s: Stream, count: nat)
    requires StreamOk(s)
    ensures var t := ConsumeUpstream(s, count);
            && PeekUpstream(s, count) <= s.upstream
            && (t.Live() ==> PeekUpstream(s, count) + t.upstream == s.upstream)
  {
    hide QueuePayload, RepliesOk;
    var n := Min(count, |s.upstream|);
    assert s.upstream[..n] + s.upstream[n..] == s.upstream;
  }

  lemma TakeReplyKeeps(s: Stream, maxBytes: nat)
    requires StreamOk(s)
    ensures Keeps(s, TakeReply(s, maxBytes).0) && SameLiveness(s, TakeReply(s, maxBytes).0)
  {
  }
}
