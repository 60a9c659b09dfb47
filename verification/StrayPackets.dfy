/** Packets outside a connection, and packets that end one. */
module StrayPackets {
  import opened Words
  import opened VsockWire
  import opened StreamModel
  import opened StreamInvariant

  /** A reset, well formed or not, ends whatever there is and is never answered. */
  lemma ResetEnds(s: Stream, h: Header, data: seq<Byte>)
    requires StreamOk(s) && h.op == OP_RST
    ensures var t := Rx(s, h, data);
            !t.Live() && t.upstream == [] && t.replies == s.replies
  {
    hide QueuePayload, RepliesOk;
    Budgets(s);
  }

  /** The packet opens a connection on a stream that has none. */
  predicate Opens(h: Header, data: seq<Byte>) {
    WellFormedPacket(h, data) && h.op == OP_REQUEST && h.fwdCnt == 0
  }

  /** Without a connection every packet but a reset and an opening request is answered by exactly one reset to its sender,
      if there is room, and nothing else happens. */
  lemma StrayIsReset(s: Stream, h: Header, data: seq<Byte>)
    requires StreamOk(s) && !s.Live() && h.op != OP_RST && !Opens(h, data)
    ensures Rx(s, h, data) == s.(replies := s.replies + if CanQueue(s, 0) then [RstReply(h.srcPort, h.dstPort)] else [])
  {
    hide QueuePayload, RepliesOk;
    assert s.replies + [] == s.replies;
  }

  /** The packet belongs to an established connection: data, a shutdown or credit, and no data after the guest closed its
      sending side. */
  predicate Belongs(s: Stream, h: Header, data: seq<Byte>)
    requires s.conn.Some?
  {
    WellFormedPacket(h, data) && OP_SHUTDOWN <= h.op <= OP_CREDIT_REQUEST && !(h.op == OP_RW && s.conn.value.rxShutdown)
  }

  /** Any other packet ends an established connection, and the guest is told by one reset behind what is queued. */
  lemma ForeignPacketEnds(s: Stream, h: Header, data: seq<Byte>)
    requires StreamOk(s) && s.conn.Some? && h.op != OP_RST && !Belongs(s, h, data)
    ensures Rx(s, h, data)
            == s.(conn := None, upstream := [], replies := s.replies + if CanQueue(s, 0) then [RstReply(h.srcPort, h.dstPort)] else [])
  {
    hide QueuePayload, RepliesOk;
    Budgets(s);
    assert s.replies + [] == s.replies;
  }
}
