/** The device's stream connection: u32 counters that wrap, updated in place.

    Every method is proved to move the unbounded `model` exactly as the specification function of the same
    name does, so the wrapping counters stay the low 32 bits of the true totals over every run. */
module StreamConnection {
  import opened Words
  import opened VsockWire
  import opened StreamModel
  import opened StreamInvariant

  datatype Connection = Connection(
    peerBufAlloc: nat, peerFwdCnt: nat, rxReceived: nat, rxFwdCnt: nat, rxCreditUpdateFwdCnt: nat,
    isReceiveCreditRequested: bool, txFwdCnt: nat, isCreditRequested: bool,
    txShutdown: bool, peerReceiveClosed: bool, rxShutdown: bool)

  datatype Packet = Packet(connectionNumber: nat, header: Header, payload: seq<Byte>)

  function QueuedBytes(c: Connection): nat {
    Wrap32(c.rxReceived - c.rxFwdCnt)
  }

  function UnackedBytes(sent: nat, acknowledged: nat): nat {
    Wrap32(sent - acknowledged)
  }

  predicate AckAhead(acknowledged: nat, sent: nat) {
    acknowledged != sent && Wrap32(acknowledged - sent) < HALF_U32
  }

  /** The modular test decides the order of two totals less than half the range apart. */
  lemma AckAheadIsGreater(a: int, b: int)
    requires -HALF_U32 <= a - b < HALF_U32
    ensures AckAhead(Wrap32(a), Wrap32(b)) <==> a > b
    ensures Wrap32(a) == Wrap32(b) <==> a == b
  {
    WrappedDifference(a, b);
  }

  function HostHeader(hostPort: nat, guestPort: nat): Header {
    Header(HOST_CID, GUEST_CID, hostPort, guestPort, 0, TYPE_STREAM, 0, 0, 0, 0)
  }

  /** The packet that a model reply stands for. */
  function Wire(r: Reply): Packet {
    Packet(0, HostHeader(r.srcPort, r.dstPort).(op := r.op, flags := r.flags, bufAlloc := r.bufAlloc,
                                                fwdCnt := Wrap32(r.fwd), len := Wrap32(|r.payload|)), r.payload)
  }

  /** The header with the two ends exchanged. */
  function Mirror(h: Header): Header {
    h.(srcCid := h.dstCid, dstCid := h.srcCid, srcPort := h.dstPort, dstPort := h.srcPort)
  }

  /** What the device sends follows the rules it applies to what it receives: seen from the other end, every reply of a
      stream is a well-formed packet from the stream's guest port to its host port. */
  lemma RepliesAreWellFormed(s: Stream, i: nat)
    requires StreamOk(s) && i < |s.replies|
    ensures var p := Wire(s.replies[i]); var h := Mirror(p.header);
            WellFormedPacket(h, p.payload) && h.srcPort == s.guestPort && h.dstPort == s.hostPort
  {
    hide QueuePayload, ConnOk;
    assert ReplyOk(s.guestPort, s.hostPort, s.rxAlloc, s.replies[i]);
    WrapSmall(|s.replies[i].payload|);
  }

  function WireAll(replies: seq<Reply>): seq<Packet> {
    seq(|replies|, i requires 0 <= i < |replies| => Wire(replies[i]))
  }

  /** The wrapped image of a model connection with `buffered` bytes received but not consumed. */
  function WireConn(m: Option<Conn>, buffered: nat): Option<Connection> {
    if m.None? then None
    else
      var c := m.value;
      Some(Connection(c.peerBufAlloc, Wrap32(c.acked), Wrap32(c.consumed + buffered), Wrap32(c.consumed),
                      Wrap32(c.advertised), c.receiveCreditRequested, Wrap32(c.sent), c.creditRequested,
                      c.txShutdown, c.peerReceiveClosed, c.rxShutdown))
  }

  /** `VecDeque::retain` on packets. */
  function RetainPackets(packets: seq<Packet>, op: nat, keep: bool): seq<Packet> {
    if packets == [] then []
    else (if (packets[0].header.op == op) == keep then [packets[0]] else [])
         + RetainPackets(packets[1..], op, keep)
  }

  lemma {:induction false} WireRetain(replies: seq<Reply>, op: nat, keep: bool)
    ensures RetainPackets(WireAll(replies), op, keep) == WireAll(Retain(replies, op, keep))
  {
    if replies != [] {
      WireRetain(replies[1..], op, keep);
      assert WireAll(replies)[1..] == WireAll(replies[1..]);
      WireConcat(if (replies[0].op == op) == keep then [replies[0]] else [], Retain(replies[1..], op, keep));
    }
  }

  lemma WireConcat(a: seq<Reply>, b: seq<Reply>)
    ensures WireAll(a + b) == WireAll(a) + WireAll(b)
  {
  }

  lemma WireAppend(a: seq<Reply>, r: Reply)
    ensures WireAll(a + [r]) == WireAll(a) + [Wire(r)]
  {
  }

  lemma WireRestamp(a: seq<Reply>, fwd: nat)
    requires a != []
    ensures var last := |a| - 1; var p := WireAll(a);
            p[last := p[last].(header := p[last].header.(fwdCnt := Wrap32(fwd)))] == WireAll(a[last := a[last].(fwd := fwd)])
  {
  }

  lemma WireLast(a: seq<Reply>)
    ensures |WireAll(a)| == |a| && (a != [] ==> WireAll(a)[|a| - 1] == Wire(a[|a| - 1]))
  {
  }

  lemma WireTail(a: seq<Reply>)
    requires a != []
    ensures WireAll(a)[0] == Wire(a[0]) && WireAll(a)[1..] == WireAll(a[1..])
  {
  }

  class StreamConnection {
    var connection: Option<Connection>
    var isConnecting: bool
    const guestPort: nat
    const hostPort: nat
    const rxAlloc: nat
    const maxTxBytes: nat
    var upstream: seq<Byte>
    var replies: seq<Packet>
    var replyBytes: nat
    ghost var model: Stream

    /** The concrete fields are the wrapped image of the model, with `buffered` bytes received but not consumed. */
    ghost predicate MatchesWith(buffered: nat)
      reads this
    {
      && guestPort == model.guestPort && hostPort == model.hostPort
      && rxAlloc == model.rxAlloc && maxTxBytes == model.maxTx
      && isConnecting == model.connecting
      && upstream == model.upstream
      && replies == WireAll(model.replies)
      && replyBytes == QueueBytes(model.replies)
      && connection == WireConn(model.conn, buffered)
    }

    ghost predicate Matches()
      reads this
    {
      MatchesWith(|upstream|)
    }

    ghost predicate Valid()
      reads this
    {
      Matches() && StreamOk(model)
    }

    constructor (guestPort: nat, hostPort: nat, rxAlloc: nat, maxTxBytes: nat)
      requires rxAlloc < HALF_U32 && maxTxBytes < HALF_U32
      ensures Valid() && model == NewStream(guestPort, hostPort, rxAlloc, maxTxBytes)
    {
      this.guestPort, this.hostPort, this.rxAlloc, this.maxTxBytes := guestPort, hostPort, rxAlloc, maxTxBytes;
      connection, isConnecting, upstream, replies, replyBytes := None, false, [], [], 0;
      model := NewStream(guestPort, hostPort, rxAlloc, maxTxBytes);
    }

    method CanQueueReply(payloadLen: nat) returns (room: bool)
      requires Matches()
      ensures room == CanQueue(model, payloadLen)
    {
      room := |replies| < MAX_QUEUED_REPLIES && replyBytes + payloadLen <= maxTxBytes;
    }

    method QueueReply(packet: Packet, ghost reply: Reply) returns (queued: bool)
      requires Matches() && packet == Wire(reply)
      modifies this
      ensures Matches() && (model, queued) == StreamModel.QueueReply(old(model), reply)
    {
      queued := CanQueueReply(|packet.payload|);
      if queued {
        PayloadAppend(model.replies, reply);
        WireAppend(model.replies, reply);
        replyBytes := replyBytes + |packet.payload|;
        replies := replies + [packet];
        if packet.header.op == OP_CREDIT_UPDATE && connection.Some? {
          connection := Some(connection.value.(rxCreditUpdateFwdCnt := packet.header.fwdCnt));
        }
        model := StreamModel.QueueReply(model, reply).0;
      }
    }

    method Rst(guestPort: nat, hostPort: nat)
      requires Matches()
      modifies this
      ensures Matches() && model == StreamModel.Rst(old(model), guestPort, hostPort)
    {
      var packet := Packet(0, HostHeader(hostPort, guestPort).(op := OP_RST), []);
      var _ := QueueReply(packet, RstReply(guestPort, hostPort));
    }

    method Respond(snapshot: Connection, op: nat, flags: nat, ghost fwd: nat) returns (queued: bool)
      requires Matches() && snapshot.rxFwdCnt == Wrap32(fwd)
      modifies this
      ensures Matches() && (model, queued) == StreamModel.Respond(old(model), fwd, op, flags)
    {
      hide WireAll, QueuePayload, Wrap32;
      WireLast(model.replies);
      WrapSmall(0);
      if op == OP_CREDIT_UPDATE && |replies| > 0 && replies[|replies| - 1].header.op == OP_CREDIT_UPDATE {
        var last := |replies| - 1;
        PayloadRestamp(model.replies, fwd);
        WireRestamp(model.replies, fwd);
        replies := replies[last := replies[last].(header := replies[last].header.(fwdCnt := snapshot.rxFwdCnt))];
        if connection.Some? {
          connection := Some(connection.value.(rxCreditUpdateFwdCnt := snapshot.rxFwdCnt));
        }
        model := StreamModel.Respond(model, fwd, op, flags).0;
        return true;
      }
      var header := HostHeader(hostPort, guestPort).(op := op, flags := flags, bufAlloc := rxAlloc,
                                                     fwdCnt := snapshot.rxFwdCnt);
      queued := QueueReply(Packet(0, header, []), HostReply(model, op, flags, fwd, []));
    }

    method DropConnection()
      requires Matches()
      modifies this
      ensures Matches() && model == StreamModel.DropConnection(old(model))
    {
      connection := None;
      isConnecting := false;
      upstream := [];
      model := StreamModel.DropConnection(model);
    }

    /** The stream's part of retiring an endpoint: only resets stay queued, so no payload does. */
    method Retire()
      requires Valid()
      modifies this
      ensures Valid() && model == StreamModel.Retire(old(model))
    {
      RetireKeeps(model);
      WireRetain(model.replies, OP_RST, true);
      DropConnection();
      replies := RetainPackets(replies, OP_RST, true);
      replyBytes := 0;
      model := model.(replies := Retain(model.replies, OP_RST, true));
    }

    /** Drops the queue without touching the byte count, which must already be zero. */
    method ClearReplies()
      requires Valid() && QueueBytes(model.replies) == 0
      modifies this
      ensures Valid() && model == old(model).(replies := [])
    {
      assert QueuePayload([]) == [];
      replies := [];
      model := model.(replies := []);
    }

    method NotePeerCredit(header: Header) returns (kept: bool)
      requires Valid() && IsHeader(header)
      modifies this
      ensures Valid() && (model, kept) == StreamModel.NotePeerCredit(old(model), header)
    {
      hide WireAll, QueuePayload, Wrap32, RepliesOk, StreamModel.Respond, StreamModel.Rst;
      NotePeerCreditKeeps(model, header);
      if connection.None? {
        return false;
      }
      var c := connection.value;
      ghost var m := model.conn.value;
      var acknowledged := header.fwdCnt;
      ghost var ack := Nearest(acknowledged, m.sent);
      NearestIsUnique(acknowledged, m.sent, ack);
      AckAheadIsGreater(ack, m.sent);
      if AckAhead(acknowledged, c.txFwdCnt) {
        Rst(guestPort, hostPort);
        DropConnection();
        return false;
      }
      AckAheadIsGreater(ack, m.acked);
      if acknowledged != c.peerFwdCnt && !AckAhead(acknowledged, c.peerFwdCnt) {
        return true;
      }
      WrappedDifference(m.sent, ack);
      WrappedDifference(m.sent, m.acked);
      var unacked := UnackedBytes(c.txFwdCnt, acknowledged);
      if unacked > Min(maxTxBytes, U32_LIMIT - 1) {
        assert false;
      }
      var priorAvailable := SaturatingSub(c.peerBufAlloc, UnackedBytes(c.txFwdCnt, c.peerFwdCnt));
      var available := SaturatingSub(header.bufAlloc, unacked);
      AckAheadIsGreater(m.consumed, m.advertised);
      var flushReceiveCredit := header.bufAlloc < c.peerBufAlloc && c.rxFwdCnt != c.rxCreditUpdateFwdCnt;
      c := c.(peerBufAlloc := header.bufAlloc, peerFwdCnt := acknowledged);
      if available > priorAvailable {
        c := c.(isCreditRequested := false);
      }
      connection := Some(c);
      model := model.(conn := Some(Credited(m, header.bufAlloc, ack)));
      if flushReceiveCredit {
        var queued := Respond(c, OP_CREDIT_UPDATE, 0, m.consumed);
        if !queued {
          DropConnection();
          return false;
        }
      }
      return true;
    }

    method RejectPacket(header: Header)
      requires Matches()
      modifies this
      ensures Matches() && model == StreamModel.RejectPacket(old(model), header)
    {
      if header.op != OP_RST {
        Rst(header.srcPort, header.dstPort);
      }
      if connection.Some? || isConnecting {
        DropConnection();
      }
    }

    method Rx(header: Header, data: seq<Byte>)
      requires Valid() && IsHeader(header) && header.srcPort == guestPort && header.dstPort == hostPort
      modifies this
      ensures Valid() && model == StreamModel.Rx(old(model), header, data)
    {
      RxKeeps(model, header, data);
      if header.type_ != TYPE_STREAM || header.srcCid != GUEST_CID || header.dstCid != HOST_CID
         || (header.op == OP_RW) != (header.len > 0) || header.len > MAX_PACKET_DATA_BYTES
         || |data| != header.len
         || (header.op == OP_SHUTDOWN && (header.flags == 0 || header.flags > 3))
         || (header.op != OP_SHUTDOWN && header.flags != 0) {
        RejectPacket(header);
        return;
      }
      if isConnecting && header.op != OP_RESPONSE && header.op != OP_RST {
        RejectPacket(header);
        return;
      }
      if header.op == OP_REQUEST {
        OnRequest(header);
      } else if header.op == OP_RESPONSE {
        OnResponse(header);
      } else if header.op == OP_RST {
        OnRst();
      } else if header.op == OP_SHUTDOWN || header.op == OP_RW
                || header.op == OP_CREDIT_UPDATE || header.op == OP_CREDIT_REQUEST {
        OnConnected(header, data);
      } else {
        RejectPacket(header);
      }
    }

    method OnConnected(header: Header, data: seq<Byte>)
      requires Valid() && IsHeader(header) && !isConnecting && header.srcPort == guestPort && header.dstPort == hostPort
      requires |data| == header.len
      modifies this
      ensures Matches() && model == StreamModel.OnConnected(old(model), header, data)
    {
      if connection.None? {
        Rst(header.srcPort, header.dstPort);
        return;
      }
      if header.op == OP_RW && connection.value.rxShutdown {
        RejectPacket(header);
        return;
      }
      NotePeerCreditKeeps(model, header);
      var kept := NotePeerCredit(header);
      if !kept {
        return;
      }
      if header.op == OP_SHUTDOWN {
        OnShutdown(header.flags);
      } else if header.op == OP_RW {
        OnData(header, data);
      } else if header.op == OP_CREDIT_REQUEST {
        OnCreditRequest();
      }
    }

    method OnRequest(header: Header)
      requires Valid()
      modifies this
      ensures Matches() && model == StreamModel.OnRequest(old(model), header)
    {
      if header.fwdCnt != 0 || connection.Some? || isConnecting {
        RejectPacket(header);
        return;
      }
      var accepted := Connection(header.bufAlloc, 0, 0, 0, 0, false, 0, false, false, false, false);
      var queued := Respond(accepted, OP_RESPONSE, 0, 0);
      if queued {
        connection := Some(accepted);
        model := model.(conn := Some(NewConn(header.bufAlloc)));
      }
    }

    method OnResponse(header: Header)
      requires Valid()
      modifies this
      ensures Matches() && model == StreamModel.OnResponse(old(model), header)
    {
      if !isConnecting || header.fwdCnt != 0 {
        RejectPacket(header);
        isConnecting := false;
        model := model.(connecting := false);
        return;
      }
      isConnecting := false;
      connection := Some(Connection(header.bufAlloc, 0, 0, 0, 0, false, 0, false, false, false, false));
      model := StreamModel.OnResponse(model, header);
    }

    method Request() returns (queued: bool)
      requires Valid()
      modifies this
      ensures Valid() && (model, queued) == StreamModel.Request(old(model))
    {
      RequestKeeps(model);
      if connection.Some? || isConnecting {
        return false;
      }
      var header := HostHeader(hostPort, guestPort).(op := OP_REQUEST, bufAlloc := rxAlloc);
      queued := QueueReply(Packet(0, header, []), HostReply(model, OP_REQUEST, 0, 0, []));
      if queued {
        isConnecting := true;
        model := model.(connecting := true);
      }
    }

    method OnRst()
      requires Matches()
      modifies this
      ensures Matches() && model == StreamModel.OnRst(old(model))
    {
      if connection.Some? || isConnecting {
        DropConnection();
      }
    }

    /** Sets the queued byte count to zero without recounting: only data replies carry payload. */
    method OnShutdown(flags: nat)
      requires Valid() && connection.Some?
      modifies this
      ensures Matches() && model == StreamModel.OnShutdown(old(model), flags)
    {
      OnShutdownKeeps(model, flags);
      WireRetain(model.replies, OP_RW, false);
      model := StreamModel.OnShutdown(model, flags);
      if ClosesReceive(flags) {
        connection := Some(connection.value.(txShutdown := true, peerReceiveClosed := true));
        replies := RetainPackets(replies, OP_RW, false);
        replyBytes := 0;
      }
      if ClosesSend(flags) {
        connection := Some(connection.value.(rxShutdown := true));
      }
    }

    method OnData(header: Header, data: seq<Byte>)
      requires Valid() && connection.Some? && |data| == header.len
      modifies this
      ensures Matches() && model == StreamModel.OnData(old(model), header, data)
    {
      ghost var m := model.conn.value;
      WrappedDifference(m.consumed + |upstream|, m.consumed);
      if QueuedBytes(connection.value) + header.len > rxAlloc || |upstream| + |data| > rxAlloc {
        Rst(header.srcPort, header.dstPort);
        DropConnection();
        return;
      }
      WrappedSum(m.consumed + |upstream|, |data|);
      connection := Some(connection.value.(rxReceived := Wrap32(connection.value.rxReceived + header.len)));
      upstream := upstream + data;
      model := model.(upstream := model.upstream + data);
    }

    method OnCreditRequest()
      requires Valid() && connection.Some?
      modifies this
      ensures Matches() && model == StreamModel.OnCreditRequest(old(model))
    {
      ghost var m := model.conn.value;
      WrappedDifference(m.consumed + |upstream|, m.consumed);
      var c := connection.value.(isReceiveCreditRequested := QueuedBytes(connection.value) != 0);
      connection := Some(c);
      model := model.(conn := Some(m.(receiveCreditRequested := upstream != [])));
      var queued := Respond(c, OP_CREDIT_UPDATE, 0, m.consumed);
      if !queued {
        DropConnection();
      }
    }

    method RequestCredit() returns (requested: bool)
      requires Valid()
      modifies this
      ensures Valid() && (model, requested) == StreamModel.RequestCredit(old(model))
    {
      hide WireAll, QueuePayload, Wrap32, RepliesOk;
      WrapSmall(0);
      RequestCreditKeeps(model);
      if connection.None? || connection.value.isCreditRequested {
        return false;
      }
      var header := HostHeader(hostPort, guestPort).(op := OP_CREDIT_REQUEST, bufAlloc := rxAlloc,
                                                     fwdCnt := connection.value.rxFwdCnt);
      requested := QueueReply(Packet(0, header, []),
                              HostReply(model, OP_CREDIT_REQUEST, 0, model.conn.value.consumed, []));
      if requested {
        connection := Some(connection.value.(isCreditRequested := true));
        model := model.(conn := Some(model.conn.value.(creditRequested := true)));
      }
    }

    method AvailableSendCredit() returns (credit: nat)
      requires Valid()
      ensures credit == StreamModel.AvailableSendCredit(model)
    {
      if connection.None? || connection.value.txShutdown {
        return 0;
      }
      WrappedDifference(model.conn.value.sent, model.conn.value.acked);
      var unacknowledged := UnackedBytes(connection.value.txFwdCnt, connection.value.peerFwdCnt);
      credit := Min(SaturatingSub(connection.value.peerBufAlloc, unacknowledged),
                    SaturatingSub(maxTxBytes, unacknowledged));
    }

    method SendCapacity() returns (capacity: nat)
      requires Valid()
      ensures capacity == StreamModel.SendCapacity(model)
    {
      if |replies| >= MAX_QUEUED_REPLIES - RESERVED_CONTROL_REPLY_SLOTS {
        return 0;
      }
      var credit := AvailableSendCredit();
      capacity := Min(Min(credit, MAX_PACKET_DATA_BYTES), SaturatingSub(maxTxBytes, replyBytes));
    }

    method Deliver(data: seq<Byte>) returns (result: Result<()>)
      requires Valid()
      modifies this
      ensures Valid() && (model, result) == StreamModel.Deliver(old(model), data)
    {
      hide WireAll, QueuePayload, Wrap32, RepliesOk;
      DeliverKeeps(model, data);
      if connection.None? || connection.value.txShutdown {
        return Err(UnknownConnection);
      }
      if data == [] {
        return Ok(());
      }
      if |data| >= U32_LIMIT {
        return Err(Backpressure);
      }
      var capacity := SendCapacity();
      if |data| > capacity {
        if |data| <= maxTxBytes {
          var credit := AvailableSendCredit();
          if |data| > credit {
            var _ := RequestCredit();
          }
        }
        return Err(Backpressure);
      }
      var before := connection.value;
      ghost var m := model.conn.value;
      WrappedSum(m.sent, |data|);
      WrapSmall(|data|);
      connection := Some(before.(txFwdCnt := Wrap32(before.txFwdCnt + |data|)));
      model := model.(conn := Some(m.(sent := m.sent + |data|)));
      var header := HostHeader(hostPort, guestPort).(len := |data|, op := OP_RW, bufAlloc := rxAlloc,
                                                     fwdCnt := before.rxFwdCnt);
      var queued := QueueReply(Packet(0, header, data), HostReply(model, OP_RW, 0, m.consumed, data));
      if !queued {
        assert false;
      }
      return Ok(());
    }

    method Shutdown() returns (result: Result<()>)
      requires Valid()
      modifies this
      ensures Valid() && (model, result) == StreamModel.Shutdown(old(model))
    {
      ShutdownKeeps(model);
      if connection.None? {
        return Err(UnknownConnection);
      }
      if connection.value.txShutdown {
        return Ok(());
      }
      var room := CanQueueReply(0);
      if !room {
        return Err(Backpressure);
      }
      var snapshot := connection.value.(txShutdown := true);
      connection := Some(snapshot);
      model := model.(conn := Some(model.conn.value.(txShutdown := true)));
      var queued := Respond(snapshot, OP_SHUTDOWN, FLAG_SHUTDOWN_SEND, model.conn.value.consumed);
      if !queued {
        assert false;
      }
      return Ok(());
    }

    /** Counts consumed bytes; the snapshot is the connection before an answered credit request is cleared. */
    method CountConsumed(count: nat) returns (snapshot: Connection)
      requires MatchesWith(|upstream| + count) && connection.Some? && |upstream| + count <= rxAlloc < HALF_U32
      requires model.conn.value.advertised <= model.conn.value.consumed && model.conn.value.consumed - model.conn.value.advertised < HALF_U32
      modifies this`connection, this`model
      ensures Matches() && model == old(model).(conn := Some(Advanced(old(model), count)))
      ensures var m := old(model).conn.value;
              && snapshot.rxFwdCnt == Wrap32(m.consumed + count)
              && snapshot.isReceiveCreditRequested == m.receiveCreditRequested && snapshot.peerBufAlloc == m.peerBufAlloc
              && Wrap32(snapshot.rxFwdCnt - snapshot.rxCreditUpdateFwdCnt) == m.consumed + count - m.advertised
    {
      hide WireAll, QueuePayload, Wrap32;
      ghost var m := model.conn.value;
      WrappedSum(m.consumed, count);
      WrappedDifference(m.consumed + count + |upstream|, m.consumed + count);
      WrappedDifference(m.consumed + count, m.advertised);
      snapshot := connection.value;
      snapshot := snapshot.(rxFwdCnt := Wrap32(snapshot.rxFwdCnt + count));
      connection := Some(if QueuedBytes(snapshot) == 0 then snapshot.(isReceiveCreditRequested := false) else snapshot);
      model := model.(conn := Some(Advanced(model, count)));
    }

    method AdvanceReceiveCredit(count: nat)
      requires MatchesWith(|upstream| + count) && connection.Some? && !isConnecting
      requires StreamOk(model.(conn := Some(model.conn.value.(receiveCreditRequested := false))))
      requires |upstream| + count <= rxAlloc
      modifies this
      ensures Matches() && model == StreamModel.AdvanceReceiveCredit(old(model), count)
    {
      hide WireAll, QueuePayload, Wrap32, RepliesOk;
      ghost var m := model.conn.value;
      var snapshot := CountConsumed(count);
      WireLast(model.replies);
      if hostPort != AGENT_PORT && !snapshot.isReceiveCreditRequested
         && Wrap32(snapshot.rxFwdCnt - snapshot.rxCreditUpdateFwdCnt) < Min(rxAlloc, snapshot.peerBufAlloc) / 2
         && (replies == [] || replies[|replies| - 1].header.op != OP_CREDIT_UPDATE) {
        return;
      }
      var queued := Respond(snapshot, OP_CREDIT_UPDATE, 0, m.consumed + count);
      if !queued {
        DropConnection();
      }
    }

    method ConsumeUpstream(maxBytes: nat)
      requires Valid()
      modifies this
      ensures Valid() && model == StreamModel.ConsumeUpstream(old(model), maxBytes)
      ensures connection.Some? ==> StreamModel.PeekUpstream(old(model), maxBytes) + upstream == old(upstream)
    {
      hide WireAll, QueuePayload, Wrap32, RepliesOk, StreamModel.AdvanceReceiveCredit, StreamModel.PeekUpstream;
      ConsumeUpstreamKeeps(model, maxBytes);
      ConsumeUpstreamTakesPeek(model, maxBytes);
      var count := Min(maxBytes, |upstream|);
      if count != 0 {
        upstream := upstream[count..];
        model := model.(upstream := upstream);
        AdvanceReceiveCredit(count);
      }
    }

    method TakeReply(maxBytes: nat) returns (packet: Option<Packet>)
      requires Valid()
      modifies this
      ensures Valid()
      ensures var (after, reply) := StreamModel.TakeReply(old(model), maxBytes);
              model == after && packet == (if reply.Some? then Some(Wire(reply.value)) else None)
    {
      TakeReplyKeeps(model, maxBytes);
      if replies == [] || |replies[0].payload| > maxBytes {
        return None;
      }
      WireTail(model.replies);
      packet := Some(replies[0]);
      replies := replies[1..];
      replyBytes := replyBytes - |packet.value.payload|;
      model := StreamModel.TakeReply(model, maxBytes).0;
    }
  }
}
