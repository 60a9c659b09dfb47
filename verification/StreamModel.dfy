/** One vsock stream with unbounded counters: the specification that the wrapping `StreamConnection` refines.

    The u32 counters of the device become the totals they stand for, the received total is the consumed
    total plus the buffered bytes, and the queued-reply byte count is the sum over the queue. */
module StreamModel {
  import opened Words
  import opened VsockWire

  /** A queued reply; `fwd` is the consumed total its header advertises, before wrapping. */
  datatype Reply = Reply(
    srcPort: nat, dstPort: nat, op: nat, flags: nat, bufAlloc: nat, fwd: nat, payload: seq<Byte>)

  datatype Conn = Conn(
    peerBufAlloc: nat,
    acked: nat,                    // bytes the peer has acknowledged
    consumed: nat,                 // bytes handed on from the upstream buffer
    advertised: nat,               // consumed total in the last standalone credit update
    receiveCreditRequested: bool,
    sent: nat,                     // bytes accepted for the peer
    creditRequested: bool,
    txShutdown: bool,
    peerReceiveClosed: bool,
    rxShutdown: bool)

  datatype Stream = Stream(
    conn: Option<Conn>, connecting: bool, guestPort: nat, hostPort: nat, rxAlloc: nat, maxTx: nat,
    upstream: seq<Byte>, replies: seq<Reply>)
  {
    predicate Live() {
      conn.Some? || connecting
    }
  }

  function NewStream(guestPort: nat, hostPort: nat, rxAlloc: nat, maxTx: nat): Stream {
    Stream(None, false, guestPort, hostPort, rxAlloc, maxTx, [], [])
  }

  function NewConn(peerBufAlloc: nat): Conn {
    Conn(peerBufAlloc, 0, 0, 0, false, 0, false, false, false, false)
  }

  /** The payloads of a reply queue, in order. */
  function QueuePayload(replies: seq<Reply>): seq<Byte> {
    if replies == [] then [] else replies[0].payload + QueuePayload(replies[1..])
  }

  /** Total payload bytes in a reply queue. */
  function QueueBytes(replies: seq<Reply>): nat {
    |QueuePayload(replies)|
  }

  /** The replies whose operation is (or is not) `op`, in order: `VecDeque::retain`. */
  function Retain(replies: seq<Reply>, op: nat, keep: bool): seq<Reply> {
    if replies == [] then []
    else (if (replies[0].op == op) == keep then [replies[0]] else []) + Retain(replies[1..], op, keep)
  }

  predicate CanQueue(s: Stream, bytes: nat) {
    |s.replies| < MAX_QUEUED_REPLIES && QueueBytes(s.replies) + bytes <= s.maxTx
  }

  /** Appends a reply when the queue has room; a standalone credit update counts as advertised. */
  function QueueReply(s: Stream, r: Reply): (Stream, bool) {
    if !CanQueue(s, |r.payload|) then (s, false)
    else (Advertise(s.(replies := s.replies + [r]), r.op, r.fwd), true)
  }

  function Advertise(s: Stream, op: nat, fwd: nat): Stream {
    if op == OP_CREDIT_UPDATE && s.conn.Some? then s.(conn := Some(s.conn.value.(advertised := fwd))) else s
  }

  function RstReply(guestPort: nat, hostPort: nat): Reply {
    Reply(hostPort, guestPort, OP_RST, 0, 0, 0, [])
  }

  function HostReply(s: Stream, op: nat, flags: nat, fwd: nat, payload: seq<Byte>): Reply {
    Reply(s.hostPort, s.guestPort, op, flags, s.rxAlloc, fwd, payload)
  }

  function Rst(s: Stream, guestPort: nat, hostPort: nat): Stream {
    QueueReply(s, RstReply(guestPort, hostPort)).0
  }

  predicate EndsWithCreditUpdate(replies: seq<Reply>) {
    |replies| > 0 && replies[|replies| - 1].op == OP_CREDIT_UPDATE
  }

  function Respond(s: Stream, fwd: nat, op: nat, flags: nat): (Stream, bool) {
    if op == OP_CREDIT_UPDATE && EndsWithCreditUpdate(s.replies) then
      var last := |s.replies| - 1;
      (Advertise(s.(replies := s.replies[last := s.replies[last].(fwd := fwd)]), op, fwd), true)
    else
      QueueReply(s, HostReply(s, op, flags, fwd, []))
  }

  function DropConnection(s: Stream): Stream {
    s.(conn := None, connecting := false, upstream := [])
  }

  /** What `Endpoint::retire` leaves of its stream: nothing but queued resets. */
  function Retire(s: Stream): Stream {
    DropConnection(s).(replies := Retain(s.replies, OP_RST, true))
  }

  /** Queues a credit update for everything consumed, dropping the connection when it does not fit. */
  function FlushCredit(s: Stream, fwd: nat): (Stream, bool) {
    var (next, queued) := Respond(s, fwd, OP_CREDIT_UPDATE, 0);
    if queued then (next, true) else (DropConnection(next), false)
  }

  /** The connection after an accepted acknowledgement; a request for credit stays open unless credit grew. */
  function Credited(c: Conn, bufAlloc: nat, ack: nat): Conn {
    var wider := SaturatingSub(bufAlloc, c.sent - ack) > SaturatingSub(c.peerBufAlloc, c.sent - c.acked);
    c.(peerBufAlloc := bufAlloc, acked := ack, creditRequested := c.creditRequested && !wider)
  }

  /** Applies a packet's credit fields; false means the connection was dropped.

      The acknowledged total is the one nearest to the sent total that the wrapped field can stand for. */
  function NotePeerCredit(s: Stream, h: Header): (Stream, bool) {
    if s.conn.None? then (s, false) else
    var c := s.conn.value;
    var ack := Nearest(h.fwdCnt, c.sent);
    if ack > c.sent then (DropConnection(Rst(s, s.guestPort, s.hostPort)), false)
    else if ack < c.acked then (s, true)
    else
      var next := s.(conn := Some(Credited(c, h.bufAlloc, ack)));
      if h.bufAlloc < c.peerBufAlloc && c.consumed != c.advertised then FlushCredit(next, c.consumed)
      else (next, true)
  }

  function RejectPacket(s: Stream, h: Header): Stream {
    var reset := if h.op != OP_RST then Rst(s, h.srcPort, h.dstPort) else s;
    if reset.Live() then DropConnection(reset) else reset
  }

  predicate WellFormedPacket(h: Header, data: seq<Byte>) {
    && h.type_ == TYPE_STREAM
    && h.srcCid == GUEST_CID
    && h.dstCid == HOST_CID
    && (h.op == OP_RW <==> h.len > 0)
    && h.len <= MAX_PACKET_DATA_BYTES
    && |data| == h.len
    && (h.op == OP_SHUTDOWN ==> 1 <= h.flags <= 3)
    && (h.op != OP_SHUTDOWN ==> h.flags == 0)
  }

  function Rx(s: Stream, h: Header, data: seq<Byte>): Stream {
    if !WellFormedPacket(h, data) then RejectPacket(s, h)
    else if s.connecting && h.op != OP_RESPONSE && h.op != OP_RST then RejectPacket(s, h)
    else if h.op == OP_REQUEST then OnRequest(s, h)
    else if h.op == OP_RESPONSE then OnResponse(s, h)
    else if h.op == OP_RST then OnRst(s)
    else if OP_SHUTDOWN <= h.op <= OP_CREDIT_REQUEST then OnConnected(s, h, data)
    else RejectPacket(s, h)
  }

  function OnConnected(s: Stream, h: Header, data: seq<Byte>): Stream {
    if s.conn.None? then Rst(s, h.srcPort, h.dstPort)
    else if h.op == OP_RW && s.conn.value.rxShutdown then RejectPacket(s, h)
    else
      var (noted, ok) := NotePeerCredit(s, h);
      if !ok || noted.conn.None? then noted
      else if h.op == OP_SHUTDOWN then OnShutdown(noted, h.flags)
      else if h.op == OP_RW then OnData(noted, h, data)
      else if h.op == OP_CREDIT_REQUEST then OnCreditRequest(noted)
      else noted
  }

  function OnRequest(s: Stream, h: Header): Stream {
    if h.fwdCnt != 0 || s.Live() then RejectPacket(s, h)
    else
      var (next, queued) := Respond(s, 0, OP_RESPONSE, 0);
      if queued then next.(conn := Some(NewConn(h.bufAlloc))) else next
  }

  function OnResponse(s: Stream, h: Header): Stream {
    if !s.connecting || h.fwdCnt != 0 then RejectPacket(s, h).(connecting := false)
    else s.(connecting := false, conn := Some(NewConn(h.bufAlloc)))
  }

  function Request(s: Stream): (Stream, bool) {
    if s.Live() then (s, false)
    else
      var (next, queued) := QueueReply(s, HostReply(s, OP_REQUEST, 0, 0, []));
      (if queued then next.(connecting := true) else next, queued)
  }

  function OnRst(s: Stream): Stream {
    if s.Live() then DropConnection(s) else s
  }

  function OnShutdown(s: Stream, flags: nat): Stream
    requires s.conn.Some?
  {
    var c := s.conn.value;
    var closed := if ClosesReceive(flags) then
                    s.(conn := Some(c.(txShutdown := true, peerReceiveClosed := true)),
                       replies := Retain(s.replies, OP_RW, false))
                  else s;
    if ClosesSend(flags) then closed.(conn := Some(closed.conn.value.(rxShutdown := true))) else closed
  }

  /** The overflow test of `on_data`. */
  predicate Fits(s: Stream, data: seq<Byte>) {
    |s.upstream| + |data| <= s.rxAlloc
  }

  function OnData(s: Stream, h: Header, data: seq<Byte>): Stream
    requires s.conn.Some?
  {
    if Fits(s, data) then s.(upstream := s.upstream + data)
    else DropConnection(Rst(s, h.srcPort, h.dstPort))
  }

  function OnCreditRequest(s: Stream): Stream
    requires s.conn.Some?
  {
    var c := s.conn.value.(receiveCreditRequested := s.upstream != []);
    FlushCredit(s.(conn := Some(c)), c.consumed).0
  }

  function RequestCredit(s: Stream): (Stream, bool) {
    if s.conn.None? || s.conn.value.creditRequested then (s, false)
    else
      var (next, queued) := QueueReply(s, HostReply(s, OP_CREDIT_REQUEST, 0, s.conn.value.consumed, []));
      if queued && next.conn.Some? then (next.(conn := Some(next.conn.value.(creditRequested := true))), true)
      else (next, false)
  }

  function AvailableSendCredit(s: Stream): nat {
    if s.conn.None? || s.conn.value.txShutdown then 0
    else
      var unacked := s.conn.value.sent - s.conn.value.acked;
      Min(SaturatingSub(s.conn.value.peerBufAlloc, unacked), SaturatingSub(s.maxTx, unacked))
  }

  function SendCapacity(s: Stream): nat {
    if |s.replies| >= MAX_QUEUED_REPLIES - RESERVED_CONTROL_REPLY_SLOTS then 0
    else Min(Min(AvailableSendCredit(s), MAX_PACKET_DATA_BYTES), SaturatingSub(s.maxTx, QueueBytes(s.replies)))
  }

  function Deliver(s: Stream, data: seq<Byte>): (Stream, Result<()>) {
    if s.conn.None? || s.conn.value.txShutdown then (s, Err(UnknownConnection))
    else if data == [] then (s, Ok(()))
    else if |data| > SendCapacity(s) then
      var next := if AvailableSendCredit(s) < |data| <= s.maxTx then RequestCredit(s).0 else s;
      (next, Err(Backpressure))
    else
      var c := s.conn.value;
      (s.(conn := Some(c.(sent := c.sent + |data|)),
          replies := s.replies + [HostReply(s, OP_RW, 0, c.consumed, data)]), Ok(()))
  }

  function Shutdown(s: Stream): (Stream, Result<()>) {
    if s.conn.None? then (s, Err(UnknownConnection))
    else if s.conn.value.txShutdown then (s, Ok(()))
    else if !CanQueue(s, 0) then (s, Err(Backpressure))
    else
      var c := s.conn.value.(txShutdown := true);
      (Respond(s.(conn := Some(c)), c.consumed, OP_SHUTDOWN, FLAG_SHUTDOWN_SEND).0, Ok(()))
  }

  /** Consumption that may stay unadvertised: less than half of the smaller window, never on the agent port. */
  predicate MayDefer(s: Stream, c: Conn, consumed: nat) {
    && s.hostPort != AGENT_PORT
    && 2 * (consumed - c.advertised) + 2 <= Min(s.rxAlloc, c.peerBufAlloc)
  }

  /** The connection after `count` more bytes were consumed. */
  function Advanced(s: Stream, count: nat): Conn
    requires s.conn.Some?
  {
    var c := s.conn.value;
    c.(consumed := c.consumed + count, receiveCreditRequested := c.receiveCreditRequested && s.upstream != [])
  }

  predicate Defers(s: Stream, count: nat)
    requires s.conn.Some?
  {
    && MayDefer(s, s.conn.value, s.conn.value.consumed + count)
    && !s.conn.value.receiveCreditRequested
    && !EndsWithCreditUpdate(s.replies)
  }

  function AdvanceReceiveCredit(s: Stream, count: nat): Stream {
    if s.conn.None? then s
    else
      var next := s.(conn := Some(Advanced(s, count)));
      if Defers(s, count) then next else FlushCredit(next, Advanced(s, count).consumed).0
  }

  /** The oldest buffered bytes. */
  function PeekUpstream(s: Stream, maxBytes: nat): seq<Byte> {
    s.upstream[..Min(maxBytes, |s.upstream|)]
  }

  function ConsumeUpstream(s: Stream, maxBytes: nat): Stream {
    var count := Min(maxBytes, |s.upstream|);
    if count == 0 then s else AdvanceReceiveCredit(s.(upstream := s.upstream[count..]), count)
  }

  function TakeReply(s: Stream, maxBytes: nat): (Stream, Option<Reply>) {
    if s.replies == [] || |s.replies[0].payload| > maxBytes then (s, None)
    else (s.(replies := s.replies[1..]), Some(s.replies[0]))
  }
}
