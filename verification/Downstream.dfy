/** Downstream bytes through the switch and the receive ring: nothing is lost, duplicated or reordered. */
module Downstream {
  import opened Words
  import opened VsockWire
  import opened StreamModel
  import opened StreamInvariant
  import opened SwitchModel
  import opened SwitchInvariant

  // ----- What an operation does to queued payload

  predicate OpenReceive(e: Endpoint) {
    !(e.stream.conn.Some? && e.stream.conn.value.peerReceiveClosed)
  }

  function Queued(e: Endpoint): seq<Byte> {
    QueuePayload(e.stream.replies)
  }

  /** The same connection with the same queued bytes, as long as the guest still receives. */
  predicate Preserves(e: Endpoint, f: Endpoint) {
    SameConnection(e, f) && (OpenReceive(f) ==> OpenReceive(e) && Queued(f) == Queued(e))
  }

  predicate Inherits(endpoints: seq<Endpoint>, next: nat, f: Endpoint) {
    || (next <= f.number && Queued(f) == [])
    || exists i :: 0 <= i < |endpoints| && Preserves(endpoints[i], f)
  }

  predicate KeepsQueues(sw: Switch, after: Switch) {
    forall j :: 0 <= j < |after.endpoints| ==> Inherits(sw.endpoints, sw.next, after.endpoints[j])
  }

  lemma NotePayload(s: Stream, h: Header)
    requires StreamOk(s)
    ensures var (t, kept) := NotePeerCredit(s, h);
            kept ==> && t.conn.Some? && QueuePayload(t.replies) == QueuePayload(s.replies)
                     && t.conn.value.peerReceiveClosed == s.conn.value.peerReceiveClosed
  {
    hide QueuePayload, StreamOk, Respond, Nearest;
    if s.conn.Some? {
      var c := s.conn.value;
      var ack := Nearest(h.fwdCnt, c.sent);
      if c.acked <= ack <= c.sent { FlushPayload(s.(conn := Some(Credited(c, h.bufAlloc, ack))), c.consumed); }
    }
  }

  lemma FlushPayload(s: Stream, fwd: nat)
    requires s.conn.Some?
    ensures var (t, kept) := FlushCredit(s, fwd);
            && (kept ==> && t.conn.Some? && QueuePayload(t.replies) == QueuePayload(s.replies)
                         && t.conn.value.peerReceiveClosed == s.conn.value.peerReceiveClosed)
            && (!kept ==> !t.Live())
  {
    if EndsWithCreditUpdate(s.replies) {
      PayloadRestamp(s.replies, fwd);
    } else {
      PayloadAppend(s.replies, HostReply(s, OP_CREDIT_UPDATE, 0, fwd, []));
    }
  }

  /** A packet from the guest leaves the bytes queued for it alone, unless the guest closes its receiving side. */
  lemma RxPayload(s: Stream, h: Header, data: seq<Byte>)
    requires StreamOk(s)
    ensures var t := Rx(s, h, data);
            t.conn.Some? && !t.conn.value.peerReceiveClosed ==>
              && (s.conn.Some? ==> !s.conn.value.peerReceiveClosed)
              && QueuePayload(t.replies) == QueuePayload(s.replies)
  {
    hide QueuePayload, StreamOk, NotePeerCredit, FlushCredit, Retain;
    Budgets(s);
    if s.conn.Some? {
      NotePayload(s, h);
      var (noted, kept) := NotePeerCredit(s, h);
      if kept {
        FlushPayload(noted.(conn := Some(noted.conn.value.(receiveCreditRequested := noted.upstream != []))), noted.conn.value.consumed);
      } else {
        NotePeerCreditKeeps(s, h);
      }
    } else {
      RespondPayload(s, OP_RESPONSE);
    }
  }

  lemma RespondPayload(s: Stream, op: nat)
    requires op != OP_CREDIT_UPDATE
    ensures QueuePayload(Respond(s, 0, op, 0).0.replies) == QueuePayload(s.replies)
  {
    PayloadAppend(s.replies, HostReply(s, op, 0, 0, []));
  }

  lemma ConsumePayload(s: Stream, maxBytes: nat)
    requires StreamOk(s) && s.conn.Some?
    ensures var t := ConsumeUpstream(s, maxBytes);
            t.conn.Some? ==> && QueuePayload(t.replies) == QueuePayload(s.replies)
                             && t.conn.value.peerReceiveClosed == s.conn.value.peerReceiveClosed
  {
    hide QueuePayload, FlushCredit, StreamOk;
    var n := Min(maxBytes, |s.upstream|);
    if n != 0 {
      var drained := s.(upstream := s.upstream[n..]);
      FlushPayload(drained.(conn := Some(Advanced(drained, n))), Advanced(drained, n).consumed);
    }
  }

  lemma OtherPayload(s: Stream, data: seq<Byte>)
    requires StreamOk(s) && s.conn.Some?
    ensures ClosedSame(s, RequestCredit(s).0) && ClosedSame(s, Deliver(s, data).0) && ClosedSame(s, Shutdown(s).0)
  {
    hide QueuePayload;
  }

  predicate ClosedSame(s: Stream, t: Stream) {
    s.conn.Some? && t.conn.Some? && s.conn.value.peerReceiveClosed == t.conn.value.peerReceiveClosed
  }

  /** An endpoint without a connection holds only resets, which carry nothing. */
  lemma QuietEndpoint(e: Endpoint)
    requires EndpointOk(e) && !e.stream.Live()
    ensures Queued(e) == []
  {
    assert forall i :: 0 <= i < |e.stream.replies| ==> IsRst(e.stream.replies[i]);
    NoDataNoPayload(e.stream.replies);
  }

  // ----- One endpoint changes

  lemma ReplaceKeepsQueues(sw: Switch, i: nat, f: Endpoint, next': nat)
    requires i < |sw.endpoints|
    requires Preserves(sw.endpoints[i], f) || (sw.next <= f.number && Queued(f) == [])
    ensures KeepsQueues(sw, sw.(endpoints := sw.endpoints[i := f], next := next'))
  {
    var after := sw.endpoints[i := f];
    forall j | 0 <= j < |after|
      ensures Inherits(sw.endpoints, sw.next, after[j])
    {
      assert j != i ==> Preserves(sw.endpoints[j], after[j]);
    }
  }

  lemma SameEndpointsKeepQueues(sw: Switch, after: Switch)
    requires sw.endpoints == after.endpoints
    ensures KeepsQueues(sw, after)
  {
    forall j | 0 <= j < |after.endpoints|
      ensures Inherits(sw.endpoints, sw.next, after.endpoints[j])
    {
      assert Preserves(sw.endpoints[j], after.endpoints[j]);
    }
  }

  lemma AppendKeepsQueues(sw: Switch, f: Endpoint, after: Switch)
    requires f.number == sw.next && Queued(f) == [] && after.endpoints == sw.endpoints + [f]
    ensures KeepsQueues(sw, after)
  {
    forall j | 0 <= j < |after.endpoints|
      ensures Inherits(sw.endpoints, sw.next, after.endpoints[j])
    {
      assert j < |sw.endpoints| ==> Preserves(sw.endpoints[j], after.endpoints[j]);
    }
  }

  lemma RemoveKeepsQueues(sw: Switch, i: nat, after: Switch)
    requires i < |sw.endpoints| && after.endpoints == sw.endpoints[..i] + sw.endpoints[i + 1..]
    ensures KeepsQueues(sw, after)
  {
    forall j | 0 <= j < |after.endpoints|
      ensures Inherits(sw.endpoints, sw.next, after.endpoints[j])
    {
      assert Preserves(sw.endpoints[if j < i then j else j + 1], after.endpoints[j]);
    }
  }

  lemma KeepsQueuesTransitive(a: Switch, b: Switch, c: Switch)
    requires KeepsQueues(a, b) && KeepsQueues(b, c) && a.next <= b.next
    requires forall j :: 0 <= j < |b.endpoints| ==> b.endpoints[j].number < b.next
    requires forall j :: 0 <= j < |c.endpoints| && !OpenReceive(c.endpoints[j]) ==> Queued(c.endpoints[j]) == []
    ensures KeepsQueues(a, c)
  {
    hide Queued, SameStream;
    forall j | 0 <= j < |c.endpoints|
      ensures Inherits(a.endpoints, a.next, c.endpoints[j])
    {
      var f := c.endpoints[j];
      assert Inherits(b.endpoints, b.next, f);
      if b.next > f.number || Queued(f) != [] {
        var k :| 0 <= k < |b.endpoints| && Preserves(b.endpoints[k], f);
        assert Inherits(a.endpoints, a.next, b.endpoints[k]);
        if a.next <= b.endpoints[k].number && Queued(b.endpoints[k]) == [] {
          assert OpenReceive(f) ==> Queued(f) == [];
        } else {
          var i :| 0 <= i < |a.endpoints| && Preserves(a.endpoints[i], b.endpoints[k]);
          PreservesTransitive(a.endpoints[i], b.endpoints[k], f);
        }
      }
    }
  }

  lemma PreservesTransitive(e: Endpoint, f: Endpoint, g: Endpoint)
    requires Preserves(e, f) && Preserves(f, g)
    ensures Preserves(e, g)
  {
    hide Queued;
  }

  // ----- Operations other than delivering and taking

  lemma RxAtKeepsQueues(sw: Switch, i: nat, h: Header, data: seq<Byte>)
    requires SwitchOk(sw) && i < |sw.endpoints| && sw.endpoints[i].retiring.None?
    requires HasPorts(sw.endpoints[i], h.srcPort, h.dstPort)
    ensures KeepsQueues(sw, RxAt(sw, i, h, data))
  {
    hide StreamOk, SwitchOk, Ordered, StreamModel.Rx, Retire;
    EndpointFacts(sw, i);
    var e := sw.endpoints[i];
    var s := StreamModel.Rx(e.stream, h, data);
    var f := e.(stream := s);
    RxKeeps(e.stream, h, data);
    RxNeverConnects(e.stream, h, data);
    RxPayload(e.stream, h, data);
    Budgets(e.stream);
    if e.stream.Live() && !s.Live() {
      RetireKeeps(s);
      ReplaceKeepsQueues(sw, i, RetireEndpoint(f, sw.next), sw.next + 1);
      assert sw.endpoints[i := f][i := RetireEndpoint(f, sw.next)] == sw.endpoints[i := RetireEndpoint(f, sw.next)];
    } else {
      StillPreserves(e, s);
      ReplaceKeepsQueues(sw, i, f, sw.next);
    }
  }

  /** A stream step that keeps the payload of a receiving connection preserves the endpoint. */
  lemma StillPreserves(e: Endpoint, s: Stream)
    requires EndpointOk(e) && e.retiring.None? && Keeps(e.stream, s) && (s.Live() || !e.stream.Live())
    requires !s.connecting
    requires s.conn.Some? && !s.conn.value.peerReceiveClosed ==>
               (e.stream.conn.Some? ==> !e.stream.conn.value.peerReceiveClosed) && QueuePayload(s.replies) == QueuePayload(e.stream.replies)
    ensures Preserves(e, e.(stream := s))
  {
    hide StreamOk, QueuePayload;
    Budgets(e.stream);
    Budgets(s);
    if !s.Live() {
      QuietEndpoint(e);
      QuietEndpoint(e.(stream := s));
    }
  }

  lemma SwitchRxKeepsQueues(sw: Switch, h: Header, data: seq<Byte>)
    requires SwitchOk(sw)
    ensures KeepsQueues(sw, SwitchRx(sw, h, data).0)
  {
    hide SwitchOk, RxAt, StreamModel.Rx, KeepsQueues;
    SameEndpointsKeepQueues(sw, Reject(sw, h));
    var role := Classify(sw, h.srcPort, h.dstPort);
    var index := EndpointIndex(sw, h.srcPort, h.dstPort);
    if role.Some? && index.None? && OpensFlow(sw, role.value, h, data) {
      NewFlowKeepsQueues(sw, role.value, h, data);
    } else if role.Some? && index.Some? && sw.endpoints[index.value].retiring.None? {
      RxAtKeepsQueues(sw, index.value, h, data);
    }
  }

  lemma NewFlowKeepsQueues(sw: Switch, role: Role, h: Header, data: seq<Byte>)
    requires OpensFlow(sw, role, h, data)
    ensures var forgiven := sw.(rejected := Forgive(sw.rejected, h.srcPort, h.dstPort));
            KeepsQueues(sw, RxAt(AddEndpoint(forgiven, role, h.srcPort, h.dstPort), |sw.endpoints|, h, data))
  {
    hide StreamModel.Rx, StreamOk;
    var forgiven := sw.(rejected := Forgive(sw.rejected, h.srcPort, h.dstPort));
    var e := NewEndpoint(role, h.srcPort, h.dstPort, sw.next);
    var f := e.(stream := StreamModel.Rx(e.stream, h, data));
    OpenedFlowIsQuiet(e.stream, h, data);
    assert (sw.endpoints + [e])[|sw.endpoints| := f] == sw.endpoints + [f];
    AppendKeepsQueues(sw, f, RxAt(AddEndpoint(forgiven, role, h.srcPort, h.dstPort), |sw.endpoints|, h, data));
  }

  lemma OpenedFlowIsQuiet(s: Stream, h: Header, data: seq<Byte>)
    requires s == NewStream(s.guestPort, s.hostPort, s.rxAlloc, s.maxTx)
    ensures QueuePayload(StreamModel.Rx(s, h, data).replies) == []
  {
    var t := StreamModel.Rx(s, h, data);
    assert QueuePayload([]) == [];
    assert forall i :: 0 <= i < |t.replies| ==> t.replies[i].payload == [];
    NoDataNoPayload(t.replies);
  }

  lemma ConnectKeepsQueues(sw: Switch, hostPort: nat)
    ensures KeepsQueues(sw, ConnectPublication(sw, hostPort).0)
  {
    var after := ConnectPublication(sw, hostPort).0;
    if after.endpoints == sw.endpoints {
      SameEndpointsKeepQueues(sw, after);
    } else {
      var e := NewEndpoint(Publication, PUBLICATION_PORT, hostPort, sw.next);
      var f := e.(stream := Request(e.stream).0);
      NoDataNoPayload(f.stream.replies);
      assert (sw.endpoints + [e])[|sw.endpoints| := f] == sw.endpoints + [f];
      AppendKeepsQueues(sw, f, after);
    }
  }

  lemma ReleaseKeepsQueues(sw: Switch, id: ConnectionId)
    ensures KeepsQueues(sw, RetireConnection(sw, id).0)
  {
    hide QueuePayload, KeepsQueues;
    var (after, released) := RetireConnection(sw, id);
    if !released {
      SameEndpointsKeepQueues(sw, sw);
    } else {
      var i := EndpointIndex(sw, id.guestPort, id.hostPort).value;
      if i >= FIXED_ENDPOINTS {
        RemoveKeepsQueues(sw, i, after);
      } else {
        var f := sw.endpoints[i].(retiring := None, number := sw.next);
        NoDataNoPayload(f.stream.replies);
        ReplaceKeepsQueues(sw, i, f, sw.next + 1);
        SameQueues(sw, sw.(endpoints := sw.endpoints[i := f], next := sw.next + 1), after);
      }
    }
  }

  lemma SameQueues(sw: Switch, a: Switch, b: Switch)
    requires KeepsQueues(sw, a) && a.endpoints == b.endpoints
    ensures KeepsQueues(sw, b)
  {
  }

  /** Retiring an endpoint after any change of its stream. */
  lemma RetireKeepsQueues(sw: Switch, i: nat, s: Stream)
    requires i < |sw.endpoints| && StreamOk(s) && (sw.endpoints[i].stream.Live() && sw.endpoints[i].retiring.None?)
    ensures KeepsQueues(sw, RetireAt(SetStream(sw, i, s), i))
  {
    hide StreamOk, Retire;
    RetireKeeps(s);
    var f := sw.endpoints[i].(stream := s);
    ReplaceKeepsQueues(sw, i, RetireEndpoint(f, sw.next), sw.next + 1);
    assert sw.endpoints[i := f][i := RetireEndpoint(f, sw.next)] == sw.endpoints[i := RetireEndpoint(f, sw.next)];
  }

  lemma ResetAtKeepsQueues(sw: Switch, i: nat)
    requires SwitchOk(sw) && i < |sw.endpoints|
    ensures KeepsQueues(sw, ResetAt(sw, i))
  {
    hide SwitchOk, StreamOk, Rst, KeepsQueues;
    SameEndpointsKeepQueues(sw, sw);
    var s := sw.endpoints[i].stream;
    if s.Live() {
      LiveNotRetiring(sw, i);
      RstKeeps(s, s.guestPort, s.hostPort);
      RetireKeepsQueues(sw, i, Rst(s, s.guestPort, s.hostPort));
    }
  }

  /** Numbers are allocated and closed connections hold no data. */
  lemma TransitivityFacts(sw: Switch)
    requires SwitchOk(sw)
    ensures forall j :: 0 <= j < |sw.endpoints| ==> sw.endpoints[j].number < sw.next
    ensures forall j :: 0 <= j < |sw.endpoints| && !OpenReceive(sw.endpoints[j]) ==> Queued(sw.endpoints[j]) == []
  {
    forall j | 0 <= j < |sw.endpoints|
      ensures sw.endpoints[j].number < sw.next && (!OpenReceive(sw.endpoints[j]) ==> Queued(sw.endpoints[j]) == [])
    {
      EndpointFacts(sw, j);
    }
  }

  lemma {:induction false} ResetFromKeepsQueues(sw: Switch, i: nat)
    requires SwitchOk(sw) && i <= |sw.endpoints|
    ensures KeepsQueues(sw, ResetFrom(sw, i))
    decreases |sw.endpoints| - i
  {
    hide SwitchOk, KeepsQueues, ResetAt, Renews;
    if i == |sw.endpoints| {
      SameEndpointsKeepQueues(sw, sw);
    } else {
      ResetAtSteps(sw, i);
      ResetAtKeepsQueues(sw, i);
      var next := ResetAt(sw, i);
      ResetFromKeepsQueues(next, i + 1);
      ResetFromSteps(next, i + 1);
      TransitivityFacts(next);
      TransitivityFacts(ResetFrom(sw, i));
      NextGrows(sw, next);
      KeepsQueuesTransitive(sw, next, ResetFrom(sw, i));
    }
  }

  lemma NextGrows(sw: Switch, after: Switch)
    requires Renews(sw, after)
    ensures sw.next <= after.next
  {
  }

  lemma ClearAtKeepsQueues(sw: Switch, i: nat)
    requires SwitchOk(sw) && i < |sw.endpoints|
    ensures KeepsQueues(sw, ClearAt(sw, i))
  {
    hide SwitchOk, StreamOk, KeepsQueues, Ordered, Retire;
    EndpointFacts(sw, i);
    var e := sw.endpoints[i];
    var cleared := ClearAt(sw, i).endpoints[i];
    NoDataNoPayload(cleared.stream.replies);
    if e.stream.Live() {
      ReplaceKeepsQueues(sw, i, cleared, sw.next + 1);
      assert sw.endpoints[i := RetireEndpoint(e, sw.next)][i := cleared] == sw.endpoints[i := cleared];
    } else {
      QuietEndpoint(e);
      ReplaceKeepsQueues(sw, i, cleared, sw.next);
    }
  }

  lemma {:induction false} ClearFromKeepsQueues(sw: Switch, i: nat)
    requires SwitchOk(sw) && i <= |sw.endpoints|
    ensures KeepsQueues(sw, ClearFrom(sw, i))
    decreases |sw.endpoints| - i
  {
    hide SwitchOk, KeepsQueues, ClearAt, Renews;
    if i == |sw.endpoints| {
      SameEndpointsKeepQueues(sw, sw);
    } else {
      ClearAtSteps(sw, i);
      ClearAtKeepsQueues(sw, i);
      var next := ClearAt(sw, i);
      ClearFromKeepsQueues(next, i + 1);
      ClearFromSteps(next, i + 1);
      TransitivityFacts(next);
      TransitivityFacts(ClearFrom(sw, i));
      NextGrows(sw, next);
      KeepsQueuesTransitive(sw, next, ClearFrom(sw, i));
    }
  }

  lemma ConnectionKeepsQueues(sw: Switch, id: ConnectionId, maxBytes: nat)
    requires SwitchOk(sw)
    ensures KeepsQueues(sw, SwitchRequestCredit(sw, id).0)
    ensures KeepsQueues(sw, SwitchShutdown(sw, id).0)
    ensures KeepsQueues(sw, SwitchConsume(sw, id, maxBytes).0)
  {
    hide SwitchOk, StreamOk, Ordered, KeepsQueues, RequestCredit, Shutdown, ConsumeUpstream, RetireAt, Keeps;
    SameEndpointsKeepQueues(sw, sw);
    var index := ConnectionIndex(sw, id);
    if index.Some? {
      var i := index.value;
      var e := sw.endpoints[i];
      LiveNotRetiring(sw, i);
      EndpointFacts(sw, i);
      Budgets(e.stream);
      OtherPayload(e.stream, []);
      RequestCreditKeeps(e.stream);
      StillPreserves(e, RequestCredit(e.stream).0);
      ReplaceKeepsQueues(sw, i, e.(stream := RequestCredit(e.stream).0), sw.next);
      ShutdownKeeps(e.stream);
      StillPreserves(e, Shutdown(e.stream).0);
      ReplaceKeepsQueues(sw, i, e.(stream := Shutdown(e.stream).0), sw.next);
      ConsumeKeepsQueues(sw, i, maxBytes);
    }
  }

  lemma ConsumeKeepsQueues(sw: Switch, i: nat, maxBytes: nat)
    requires SwitchOk(sw) && i < |sw.endpoints| && sw.endpoints[i].stream.conn.Some?
    ensures var s := ConsumeUpstream(sw.endpoints[i].stream, maxBytes);
            && (s.conn.Some? ==> KeepsQueues(sw, SetStream(sw, i, s)))
            && KeepsQueues(sw, RetireAt(SetStream(sw, i, s), i))
  {
    hide SwitchOk, StreamOk, Ordered, KeepsQueues, ConsumeUpstream;
    var e := sw.endpoints[i];
    LiveNotRetiring(sw, i);
    EndpointFacts(sw, i);
    Budgets(e.stream);
    var s := ConsumeUpstream(e.stream, maxBytes);
    ConsumeUpstreamKeeps(e.stream, maxBytes);
    ConsumePayload(e.stream, maxBytes);
    RetireKeepsQueues(sw, i, s);
    if s.conn.Some? {
      StillPreserves(e, s);
      ReplaceKeepsQueues(sw, i, e.(stream := s), sw.next);
    }
  }

  /** No operation but delivering and taking changes the bytes queued for a connection that still receives. */
  lemma ApplyKeepsQueues(sw: Switch, op: Op)
    requires SwitchOk(sw) && |sw.endpoints| >= FIXED_ENDPOINTS && !op.DeliverOp? && !op.TakeOp?
    ensures KeepsQueues(sw, Apply(sw, op))
  {
    hide SwitchOk, KeepsQueues, SwitchRx, ConnectPublication, RetireConnection, ClearFrom, ResetFrom,
      SwitchRequestCredit, SwitchShutdown, SwitchConsume, ResetAt;
    match op
    case RxOp(h, data) => SwitchRxKeepsQueues(sw, h, data);
    case ConnectOp(hostPort) => ConnectKeepsQueues(sw, hostPort);
    case ReleaseOp(id) => ReleaseKeepsQueues(sw, id);
    case ResetAllOp =>
      ClearFromKeepsQueues(sw, 0);
      SameQueues(sw, ClearFrom(sw, 0), ResetConnections(sw));
    case DisableNetworkOp =>
      var disabled := sw.(networkEnabled := false);
      assert SwitchOk(disabled) by { DisabledOk(sw); }
      ResetFromKeepsQueues(disabled, Min(1, |sw.endpoints|));
      SameStart(disabled, sw, DisableNetwork(sw));
    case RequestCreditOp(id) => ConnectionKeepsQueues(sw, id, 0);
    case ShutdownOp(id) => ConnectionKeepsQueues(sw, id, 0);
    case ResetOp(id) =>
      SameEndpointsKeepQueues(sw, sw);
      var index := EndpointIndex(sw, id.guestPort, id.hostPort);
      if index.Some? { ResetAtKeepsQueues(sw, index.value); }
    case ConsumeOp(id, maxBytes) => ConnectionKeepsQueues(sw, id, maxBytes);
  }

  lemma DisabledOk(sw: Switch)
    requires SwitchOk(sw)
    ensures SwitchOk(sw.(networkEnabled := false))
  {
  }

  lemma SameStart(a: Switch, b: Switch, after: Switch)
    requires KeepsQueues(a, after) && a.endpoints == b.endpoints && a.next == b.next
    ensures KeepsQueues(b, after)
  {
  }
}
