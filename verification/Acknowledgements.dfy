/** What a wrapped acknowledgement does, in terms of the unbounded total the peer meant. */
module Acknowledgements {
  import opened Words
  import opened VsockWire
  import opened StreamModel
  import opened StreamInvariant

  /** How much more the peer's window takes. */
  function FreeWindow(c: Conn): nat {
    var unacked := c.sent - c.acked;
    if c.peerBufAlloc <= unacked then 0 else c.peerBufAlloc - unacked
  }

  /** `n` is any total, within half the word range of the bytes sent, that the 32-bit field can stand for. One ahead
      of the bytes sent resets the connection, one behind the last accepted changes nothing, and any other becomes
      the acknowledged total unless the credit update for a shrunk window no longer fits the queue; an open request for
      credit stays open exactly while the peer's window has not grown. */
  lemma AcknowledgementCases(s: Stream, h: Header, n: int)
    requires StreamOk(s) && s.conn.Some? && IsHeader(h)
    requires Wrap32(n) == h.fwdCnt && s.conn.value.sent - HALF_U32 <= n < s.conn.value.sent + HALF_U32
    ensures var (t, kept) := NotePeerCredit(s, h); var c := s.conn.value;
            && (n > c.sent ==> !kept && !t.Live() && t.upstream == [] && t.replies == Rst(s, s.guestPort, s.hostPort).replies)
            && (n < c.acked ==> kept && t == s)
            && (c.acked <= n <= c.sent ==>
                  if kept then
                    && t.conn.Some? && t.conn.value.acked == n && t.conn.value.sent == c.sent
                    && t.conn.value.peerBufAlloc == h.bufAlloc && t.conn.value.consumed == c.consumed
                    && t.upstream == s.upstream
                    && (t.conn.value.creditRequested <==> c.creditRequested && FreeWindow(t.conn.value) <= FreeWindow(c))
                  else
                    && !t.Live() && h.bufAlloc < c.peerBufAlloc && c.consumed != c.advertised
                    && |s.replies| == MAX_QUEUED_REPLIES)
  {
    hide Wrap32, RepliesOk, QueuePayload;
    NearestIsUnique(h.fwdCnt, s.conn.value.sent, n);
    var c := s.conn.value;
    if c.acked <= n <= c.sent && h.bufAlloc < c.peerBufAlloc && c.consumed != c.advertised {
      FlushFailsOnlyWhenFull(s.(conn := Some(Credited(c, h.bufAlloc, n))), c.consumed);
    }
  }

  lemma FlushFailsOnlyWhenFull(s: Stream, fwd: nat)
    requires s.conn.Some? && |s.replies| <= MAX_QUEUED_REPLIES && QueueBytes(s.replies) <= s.maxTx && !s.connecting
    ensures var (t, queued) := FlushCredit(s, fwd);
            && (!queued ==> |s.replies| == MAX_QUEUED_REPLIES && !t.Live())
            && (queued ==> && t.conn == Some(s.conn.value.(advertised := fwd)) && t.upstream == s.upstream)
  {
    hide QueuePayload;
  }
}
