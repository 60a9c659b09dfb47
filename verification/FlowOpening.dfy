/** When the switch opens a flow, and what the guest then gets. */
module FlowOpening {
  import opened Words
  import opened VsockWire
  import opened StreamModel
  import opened StreamInvariant
  import opened SwitchModel
  import opened SwitchInvariant
  import opened Generations
  import Handshake

  // ----- Rejections

  predicate Concerns(r: Stamped, guestPort: nat, hostPort: nat) {
    r.reply.dstPort == guestPort && r.reply.srcPort == hostPort
  }

  /** The positions of the rejections that stay. */
  function Kept(rejected: seq<Stamped>, guestPort: nat, hostPort: nat): (kept: seq<nat>)
    ensures forall k :: 0 <= k < |kept| ==> kept[k] < |rejected|
    ensures forall i, j :: 0 <= i < j < |kept| ==> kept[i] < kept[j]
    ensures forall i :: 0 <= i < |rejected| ==> (i in kept <==> !Concerns(rejected[i], guestPort, hostPort))
  {
    if rejected == [] then []
    else
      var last := |rejected| - 1;
      var before := Kept(rejected[..last], guestPort, hostPort);
      if Concerns(rejected[last], guestPort, hostPort) then before else before + [last]
  }

  lemma {:induction false} ForgiveAppend(rejected: seq<Stamped>, r: Stamped, guestPort: nat, hostPort: nat)
    ensures Forgive(rejected + [r], guestPort, hostPort)
            == Forgive(rejected, guestPort, hostPort) + if Concerns(r, guestPort, hostPort) then [] else [r]
  {
    if rejected == [] {
      assert rejected + [r] == [r];
    } else {
      ForgiveAppend(rejected[1..], r, guestPort, hostPort);
      assert (rejected + [r])[1..] == rejected[1..] + [r];
    }
  }

  /** Exactly the rejections for the port pair go; the others stay in order. */
  lemma {:induction false} ForgiveExactly(rejected: seq<Stamped>, guestPort: nat, hostPort: nat)
    ensures var kept := Kept(rejected, guestPort, hostPort); var after := Forgive(rejected, guestPort, hostPort);
            |after| == |kept| && forall k :: 0 <= k < |kept| ==> after[k] == rejected[kept[k]]
    decreases |rejected|
  {
    if rejected != [] {
      var last := |rejected| - 1;
      ForgiveExactly(rejected[..last], guestPort, hostPort);
      ForgiveAppend(rejected[..last], rejected[last], guestPort, hostPort);
      assert rejected[..last] + [rejected[last]] == rejected;
    }
  }

  lemma NoneLeft(rejected: seq<Stamped>, guestPort: nat, hostPort: nat)
    ensures forall k :: 0 <= k < |Forgive(rejected, guestPort, hostPort)| ==> !Concerns(Forgive(rejected, guestPort, hostPort)[k], guestPort, hostPort)
  {
    hide Concerns;
    ForgiveExactly(rejected, guestPort, hostPort);
    var kept := Kept(rejected, guestPort, hostPort);
    forall k | 0 <= k < |kept|
      ensures !Concerns(rejected[kept[k]], guestPort, hostPort)
    {
      assert kept[k] in kept;
    }
  }

  /** A rejection is answered to its sender and passes the currency test until the port pair changes hands. */
  lemma RejectionIsCurrent(sw: Switch, h: Header)
    requires h.op != OP_RST && |sw.rejected| < MAX_REJECTED_RESETS
    ensures var after := Reject(sw, h); var r := after.rejected[|sw.rejected|];
            && after.rejected[..|sw.rejected|] == sw.rejected && |after.rejected| == |sw.rejected| + 1
            && r.reply == RstReply(h.srcPort, h.dstPort) && IsReplyCurrent(after, r)
  {
    hide IndexFrom;
    var r := RstReply(h.srcPort, h.dstPort);
    assert r.op != OP_RW && r.dstPort == h.srcPort && r.srcPort == h.dstPort;
  }

  // ----- Opening

  predicate IsOpeningRequest(h: Header) {
    WellFormedPacket(h, []) && h.op == OP_REQUEST && h.fwdCnt == 0
  }

  /** A guest's opening request to the TCP or UDP port, between ports not in use and within capacity, opens a flow: its
      identity is current, the guest's window is noted, and of everything queued for these ports only the response is left. */
  lemma NewFlowOpens(sw: Switch, h: Header)
    requires SwitchOk(sw) && sw.networkEnabled && IsOpeningRequest(h)
    requires (h.dstPort == TCP_PORT || h.dstPort == UDP_PORT) && IsFlowGuestPort(h.srcPort)
    requires EndpointIndex(sw, h.srcPort, h.dstPort).None? && FlowCount(sw) < sw.capacity
    ensures var (after, touched) := SwitchRx(sw, h, []); var i := |sw.endpoints|;
            && touched == Some(ConnectionId(if h.dstPort == TCP_PORT then Tcp else Udp, h.srcPort, h.dstPort, sw.next))
            && |after.endpoints| == i + 1 && after.endpoints[..i] == sw.endpoints && ConnectionIndex(after, touched.value) == Some(i)
            && after.endpoints[i].stream.conn == Some(NewConn(h.bufAlloc))
            && after.endpoints[i].stream.replies == [HostReply(after.endpoints[i].stream, OP_RESPONSE, 0, 0, [])]
            && forall k :: 0 <= k < |after.rejected| ==> !Concerns(after.rejected[k], h.srcPort, h.dstPort)
  {
    hide SwitchOk, EndpointOk, FlowOk, Forgive, Renews, IndexFrom, StreamModel.Rx, WellFormedPacket, Concerns;
    var role := if h.dstPort == TCP_PORT then Tcp else Udp;
    var e := NewEndpoint(role, h.srcPort, h.dstPort, sw.next);
    assert OpensFlow(sw, role, h, []) by { OpeningFields(h); }
    NewStreamOk(e.stream);
    Handshake.AcceptedByDevice(e.stream, h);
    var (after, touched) := SwitchRx(sw, h, []);
    var i := |sw.endpoints|;
    assert after.endpoints == sw.endpoints + [e.(stream := StreamModel.Rx(e.stream, h, []))];
    SwitchRxSteps(sw, h, []);
    CurrentAt(after, touched.value, i);
    NoneLeft(sw.rejected, h.srcPort, h.dstPort);
  }

  lemma OpeningFields(h: Header)
    requires IsOpeningRequest(h)
    ensures h.type_ == TYPE_STREAM && h.srcCid == GUEST_CID && h.dstCid == HOST_CID && h.len == 0 && h.flags == 0
  {
  }

  lemma NewStreamOk(s: Stream)
    requires s == NewStream(s.guestPort, s.hostPort, s.rxAlloc, s.maxTx) && s.rxAlloc < HALF_U32 && s.maxTx < HALF_U32
    ensures StreamOk(s)
  {
    assert QueuePayload([]) == [];
  }

  /** The host's request for a connection is accepted exactly when the network is enabled, the port is a publication port not
      in use, and there is capacity; and then a request to the guest is all that is queued on the new endpoint. */
  lemma ConnectSucceedsIff(sw: Switch, hostPort: nat)
    requires SwitchOk(sw)
    ensures var (after, result) := ConnectPublication(sw, hostPort); var i := |sw.endpoints|;
            && (result.Ok? <==> sw.networkEnabled && IsPublicationHostPort(hostPort) && FlowCount(sw) < sw.capacity
                                && EndpointIndex(sw, PUBLICATION_PORT, hostPort).None?)
            && (result.Err? ==> after.endpoints == sw.endpoints)
            && (result.Ok? ==>
                  && |after.endpoints| == i + 1 && after.endpoints[..i] == sw.endpoints && after.endpoints[i].stream.connecting
                  && after.endpoints[i].stream.replies == [HostReply(after.endpoints[i].stream, OP_REQUEST, 0, 0, [])])
  {
    hide SwitchOk, IndexFrom;
    if IsPublicationHostPort(hostPort) { RequestedFlow(hostPort, sw.next); }
    var s := NewStream(PUBLICATION_PORT, hostPort, RxBudget(Publication), TxBudget(Publication));
    NewStreamOk(s);
    Handshake.RequestSent(s);
  }
}
