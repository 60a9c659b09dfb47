/** The invariant of the switch, and which connections survive each operation. */
module SwitchInvariant {
  import opened Words
  import opened Modular
  import opened VsockWire
  import opened StreamModel
  import opened StreamInvariant
  import opened SwitchModel

  predicate EndpointOk(e: Endpoint) {
    && StreamOk(e.stream)
    && Ordered(e.stream)
    && e.stream.rxAlloc == RxBudget(e.role) && e.stream.maxTx == TxBudget(e.role)
    && PortsOf(e.role, e.stream.guestPort, e.stream.hostPort)
    && !(e.stream.Live() && e.retiring.Some?)
  }

  /** A flow endpoint exists only while its connection lives or its number is being released. */
  predicate FlowOk(e: Endpoint) {
    (e.stream.Live() || e.retiring.Some?) && e.role != Agent && e.role != Control
  }

  predicate NumberOk(e: Endpoint, next: nat) {
    0 < e.number < next && (e.retiring.Some? ==> 0 < e.retiring.value < e.number)
  }

  predicate Distinct(e: Endpoint, f: Endpoint) {
    && (e.stream.guestPort != f.stream.guestPort || e.stream.hostPort != f.stream.hostPort)
    && e.number != f.number
    && e.retiring != Some(f.number) && f.retiring != Some(e.number)
  }

  predicate EndpointsOk(endpoints: seq<Endpoint>, next: nat) {
    && |endpoints| >= FIXED_ENDPOINTS
    && endpoints[0].role == Agent && HasPorts(endpoints[0], AGENT_PORT, AGENT_PORT)
    && endpoints[1].role == Control && HasPorts(endpoints[1], CONTROL_PORT, CONTROL_PORT)
    && (forall i :: 0 <= i < |endpoints| ==> EndpointOk(endpoints[i]) && NumberOk(endpoints[i], next))
    && (forall i :: FIXED_ENDPOINTS <= i < |endpoints| ==> FlowOk(endpoints[i]))
    && (forall i, j {:trigger Distinct(endpoints[i], endpoints[j])} ::
          0 <= i < j < |endpoints| ==> Distinct(endpoints[i], endpoints[j]))
  }

  predicate RejectedOk(rejected: seq<Stamped>, next: nat) {
    && |rejected| <= MAX_REJECTED_RESETS
    && forall i :: 0 <= i < |rejected| ==> rejected[i].number < next && IsRst(rejected[i].reply) && rejected[i].reply.payload == []
  }

  predicate SwitchOk(sw: Switch) {
    && EndpointsOk(sw.endpoints, sw.next)
    && FlowCount(sw) <= sw.capacity <= MAX_NETWORK_SOCKETS
    && RejectedOk(sw.rejected, sw.next)
    && 3 <= sw.next
  }

  // ----- Classification

  /** A port pair classifies to a role exactly when it is one of the role's pairs and the network allows the role. */
  lemma ClassifyIsPortsOf(sw: Switch, guestPort: nat, hostPort: nat, role: Role)
    ensures Classify(sw, guestPort, hostPort) == Some(role) <==> PortsOf(role, guestPort, hostPort) && Allowed(sw, role)
  {
  }

  /** Packets for an endpoint's ports classify to the endpoint's own role, or to none once the network is disabled. */
  lemma EndpointClassifies(sw: Switch, i: nat)
    requires SwitchOk(sw) && i < |sw.endpoints|
    ensures var e := sw.endpoints[i];
            Classify(sw, e.stream.guestPort, e.stream.hostPort) == if Allowed(sw, e.role) then Some(e.role) else None
  {
    hide StreamOk, Ordered, IsRst;
    assert EndpointOk(sw.endpoints[i]);
  }

  // ----- One endpoint changes

  /** The same connection, still established if it was. */
  predicate SameConnection(e: Endpoint, f: Endpoint) {
    && e.number == f.number && e.role == f.role && SameStream(e.stream, f.stream)
    && (e.stream.conn.Some? ==> f.stream.conn.Some?)
  }

  /** What an endpoint may become: the same connection, or a retired or released one under a new number. */
  predicate Succeeds(e: Endpoint, f: Endpoint, next: nat, next': nat) {
    && next <= next'
    && e.role == f.role && SameStream(e.stream, f.stream)
    && EndpointOk(f)
    && (FlowOk(e) ==> FlowOk(f))
    && ((SameConnection(e, f) && f.retiring == e.retiring)
        || (next <= f.number < next' && (f.retiring.Some? ==> f.retiring == Some(e.number))))
  }

  lemma ReplaceOk(sw: Switch, i: nat, f: Endpoint, next': nat)
    requires SwitchOk(sw) && i < |sw.endpoints| && Succeeds(sw.endpoints[i], f, sw.next, next')
    ensures SwitchOk(sw.(endpoints := sw.endpoints[i := f], next := next'))
  {
    hide EndpointOk, FlowOk, IsRst;
    var after := sw.endpoints[i := f];
    forall j, k | 0 <= j < k < |after|
      ensures Distinct(after[j], after[k])
    {
      assert Distinct(sw.endpoints[j], sw.endpoints[k]);
      assert NumberOk(sw.endpoints[j], sw.next) && NumberOk(sw.endpoints[k], sw.next);
    }
  }

  lemma AppendOk(sw: Switch, f: Endpoint, next': nat)
    requires SwitchOk(sw) && FlowCount(sw) < sw.capacity
    requires EndpointOk(f) && FlowOk(f) && sw.next <= f.number < next' && f.retiring.None?
    requires forall i :: 0 <= i < |sw.endpoints| ==> !HasPorts(sw.endpoints[i], f.stream.guestPort, f.stream.hostPort)
    ensures SwitchOk(sw.(endpoints := sw.endpoints + [f], next := next'))
  {
    hide EndpointOk, FlowOk, IsRst;
    var after := sw.endpoints + [f];
    forall j, k | 0 <= j < k < |after|
      ensures Distinct(after[j], after[k])
    {
      assert NumberOk(sw.endpoints[j], sw.next);
      if k < |sw.endpoints| { assert Distinct(sw.endpoints[j], sw.endpoints[k]); }
    }
  }

  lemma RemoveOk(sw: Switch, i: nat)
    requires SwitchOk(sw) && FIXED_ENDPOINTS <= i < |sw.endpoints|
    ensures SwitchOk(sw.(endpoints := sw.endpoints[..i] + sw.endpoints[i + 1..]))
  {
    hide EndpointOk, FlowOk, IsRst;
    var after := sw.endpoints[..i] + sw.endpoints[i + 1..];
    forall j, k | 0 <= j < k < |after|
      ensures Distinct(after[j], after[k])
    {
      assert Distinct(sw.endpoints[if j < i then j else j + 1], sw.endpoints[if k < i then k else k + 1]);
    }
  }

  lemma {:induction false} ForgiveOk(rejected: seq<Stamped>, guestPort: nat, hostPort: nat, next: nat)
    requires forall i :: 0 <= i < |rejected| ==> rejected[i].number < next && IsRst(rejected[i].reply) && rejected[i].reply.payload == []
    ensures var kept := Forgive(rejected, guestPort, hostPort);
            && |kept| <= |rejected|
            && forall i :: 0 <= i < |kept| ==> kept[i].number < next && IsRst(kept[i].reply) && kept[i].reply.payload == []
  {
    if rejected != [] { ForgiveOk(rejected[1..], guestPort, hostPort, next); }
  }

  // ----- Endpoint transitions

  lemma RetiredSucceeds(e: Endpoint, s: Stream, next: nat)
    requires EndpointOk(e) && e.retiring.None? && StreamOk(s) && SameStream(e.stream, s)
    ensures Succeeds(e, RetireEndpoint(e.(stream := s), next), next, next + 1)
  {
    hide StreamOk, Retire;
    RetireKeeps(s);
  }

  /** A stream step that keeps the invariant: the endpoint lives on, or is retired under the next number. */
  lemma StepSucceeds(e: Endpoint, s: Stream, next: nat)
    requires EndpointOk(e) && e.retiring.None? && Keeps(e.stream, s) && (s.connecting ==> e.stream.connecting)
    ensures s.Live() || !e.stream.Live() ==> Succeeds(e, e.(stream := s), next, next)
    ensures Succeeds(e, RetireEndpoint(e.(stream := s), next), next, next + 1)
  {
    hide StreamOk, InOrder, Retire;
    Budgets(e.stream);
    RetiredSucceeds(e, s, next);
  }

  // ----- Which connections survive

  /** An endpoint after a step holds a connection it held before, or a number that was not yet allocated. */
  predicate Descends(endpoints: seq<Endpoint>, next: nat, f: Endpoint) {
    next <= f.number || exists i :: 0 <= i < |endpoints| && SameConnection(endpoints[i], f)
  }

  predicate Renews(sw: Switch, after: Switch) {
    && sw.next <= after.next
    && forall j :: 0 <= j < |after.endpoints| ==> Descends(sw.endpoints, sw.next, after.endpoints[j])
  }

  /** One step of the switch. */
  predicate Steps(sw: Switch, after: Switch) {
    SwitchOk(after) && Renews(sw, after)
  }

  lemma SameEndpointsRenew(sw: Switch, after: Switch)
    requires sw.endpoints == after.endpoints && sw.next <= after.next
    ensures Renews(sw, after)
  {
    forall j | 0 <= j < |after.endpoints|
      ensures Descends(sw.endpoints, sw.next, after.endpoints[j])
    {
      assert SameConnection(sw.endpoints[j], after.endpoints[j]);
    }
  }

  lemma RenewsTransitive(a: Switch, b: Switch, c: Switch)
    requires Renews(a, b) && Renews(b, c)
    ensures Renews(a, c)
  {
    forall j | 0 <= j < |c.endpoints|
      ensures Descends(a.endpoints, a.next, c.endpoints[j])
    {
      var f := c.endpoints[j];
      if f.number < a.next {
        assert Descends(b.endpoints, b.next, f);
        var k :| 0 <= k < |b.endpoints| && SameConnection(b.endpoints[k], f);
        assert Descends(a.endpoints, a.next, b.endpoints[k]);
        var i :| 0 <= i < |a.endpoints| && SameConnection(a.endpoints[i], b.endpoints[k]);
        assert SameConnection(a.endpoints[i], f);
      }
    }
  }

  lemma ReplaceSteps(sw: Switch, i: nat, f: Endpoint, next': nat)
    requires SwitchOk(sw) && i < |sw.endpoints| && Succeeds(sw.endpoints[i], f, sw.next, next')
    ensures Steps(sw, sw.(endpoints := sw.endpoints[i := f], next := next'))
  {
    hide EndpointOk, FlowOk, SwitchOk;
    ReplaceOk(sw, i, f, next');
    var after := sw.endpoints[i := f];
    forall j | 0 <= j < |after|
      ensures Descends(sw.endpoints, sw.next, after[j])
    {
      assert SameConnection(sw.endpoints[j], sw.endpoints[j]);
      assert j == i && after[j].number < sw.next ==> SameConnection(sw.endpoints[j], after[j]);
    }
  }

  lemma AppendSteps(sw: Switch, f: Endpoint)
    requires SwitchOk(sw) && FlowCount(sw) < sw.capacity
    requires EndpointOk(f) && FlowOk(f) && f.number == sw.next && f.retiring.None?
    requires forall i :: 0 <= i < |sw.endpoints| ==> !HasPorts(sw.endpoints[i], f.stream.guestPort, f.stream.hostPort)
    ensures Steps(sw, sw.(endpoints := sw.endpoints + [f], next := sw.next + 1))
  {
    hide EndpointOk, FlowOk, SwitchOk;
    AppendOk(sw, f, sw.next + 1);
    var after := sw.endpoints + [f];
    forall j | 0 <= j < |after|
      ensures Descends(sw.endpoints, sw.next, after[j])
    {
      assert j < |sw.endpoints| ==> SameConnection(sw.endpoints[j], after[j]);
    }
  }

  lemma RemoveSteps(sw: Switch, i: nat)
    requires SwitchOk(sw) && FIXED_ENDPOINTS <= i < |sw.endpoints|
    ensures Steps(sw, sw.(endpoints := sw.endpoints[..i] + sw.endpoints[i + 1..]))
  {
    hide EndpointOk, FlowOk, SwitchOk;
    RemoveOk(sw, i);
    var after := sw.endpoints[..i] + sw.endpoints[i + 1..];
    forall j | 0 <= j < |after|
      ensures Descends(sw.endpoints, sw.next, after[j])
    {
      assert SameConnection(sw.endpoints[if j < i then j else j + 1], after[j]);
    }
  }

  lemma EndpointFacts(sw: Switch, i: nat)
    requires SwitchOk(sw) && i < |sw.endpoints|
    ensures EndpointOk(sw.endpoints[i]) && NumberOk(sw.endpoints[i], sw.next)
    ensures i >= FIXED_ENDPOINTS ==> FlowOk(sw.endpoints[i])
    ensures |sw.endpoints| >= FIXED_ENDPOINTS
  {
  }

  // ----- Operations

  lemma RejectSteps(sw: Switch, h: Header)
    requires SwitchOk(sw)
    ensures Steps(sw, Reject(sw, h))
  {
    hide EndpointsOk, RejectedOk, Renews;
    SameEndpointsRenew(sw, Reject(sw, h));
    var index := EndpointIndex(sw, h.srcPort, h.dstPort);
    if index.Some? { EndpointFacts(sw, index.value); }
    var number := if index.Some? then sw.endpoints[index.value].number else 0;
    if |sw.rejected| < MAX_REJECTED_RESETS {
      RejectedGrows(sw.rejected, sw.next, Stamped(number, RstReply(h.srcPort, h.dstPort)));
    }
  }

  lemma RejectedGrows(rejected: seq<Stamped>, next: nat, r: Stamped)
    requires RejectedOk(rejected, next) && |rejected| < MAX_REJECTED_RESETS
    requires r.number < next && IsRst(r.reply) && r.reply.payload == []
    ensures RejectedOk(rejected + [r], next)
  {
    hide IsRst;
  }

  lemma RxAtSteps(sw: Switch, i: nat, h: Header, data: seq<Byte>)
    requires SwitchOk(sw) && i < |sw.endpoints| && sw.endpoints[i].retiring.None?
    requires HasPorts(sw.endpoints[i], h.srcPort, h.dstPort)
    ensures Steps(sw, RxAt(sw, i, h, data))
  {
    hide StreamOk, Ordered, SwitchOk, Renews, StreamModel.Rx, RetireEndpoint;
    EndpointFacts(sw, i);
    var e := sw.endpoints[i];
    var s := StreamModel.Rx(e.stream, h, data);
    RxKeeps(e.stream, h, data);
    RxNeverConnects(e.stream, h, data);
    StepSucceeds(e, s, sw.next);
    var retires := e.stream.Live() && !s.Live();
    var f := if retires then RetireEndpoint(e.(stream := s), sw.next) else e.(stream := s);
    ReplaceSteps(sw, i, f, if retires then sw.next + 1 else sw.next);
    assert sw.endpoints[i := e.(stream := s)][i := f] == sw.endpoints[i := f];
  }

  /** A request from the guest opens a live connection on a new flow. */
  lemma OpenedFlow(sw: Switch, role: Role, h: Header, data: seq<Byte>)
    requires OpensFlow(sw, role, h, data) && PortsOf(role, h.srcPort, h.dstPort)
    ensures var e := NewEndpoint(role, h.srcPort, h.dstPort, sw.next);
            var f := e.(stream := StreamModel.Rx(e.stream, h, data));
            EndpointOk(f) && FlowOk(f) && f.stream.conn.Some?
  {
    var s := NewStream(h.srcPort, h.dstPort, RxBudget(role), TxBudget(role));
    RxKeeps(s, h, data);
    assert QueuePayload([]) == [];
  }

  lemma SwitchRxSteps(sw: Switch, h: Header, data: seq<Byte>)
    requires SwitchOk(sw)
    ensures Steps(sw, SwitchRx(sw, h, data).0)
  {
    hide SwitchOk, Renews, EndpointOk, FlowOk, RxAt, Reject, StreamModel.Rx;
    RejectSteps(sw, h);
    var role := Classify(sw, h.srcPort, h.dstPort);
    var index := EndpointIndex(sw, h.srcPort, h.dstPort);
    if role.Some? && index.None? && OpensFlow(sw, role.value, h, data) {
      NewFlowSteps(sw, role.value, h, data);
    } else if role.Some? && index.Some? && sw.endpoints[index.value].retiring.None? {
      RxAtSteps(sw, index.value, h, data);
    }
  }

  lemma NewFlowSteps(sw: Switch, role: Role, h: Header, data: seq<Byte>)
    requires SwitchOk(sw) && EndpointIndex(sw, h.srcPort, h.dstPort).None?
    requires OpensFlow(sw, role, h, data) && PortsOf(role, h.srcPort, h.dstPort)
    ensures var forgiven := sw.(rejected := Forgive(sw.rejected, h.srcPort, h.dstPort));
            Steps(sw, RxAt(AddEndpoint(forgiven, role, h.srcPort, h.dstPort), |sw.endpoints|, h, data))
  {
    hide EndpointOk, FlowOk, StreamModel.Rx;
    var forgiven := sw.(rejected := Forgive(sw.rejected, h.srcPort, h.dstPort));
    ForgiveOk(sw.rejected, h.srcPort, h.dstPort, sw.next);
    var e := NewEndpoint(role, h.srcPort, h.dstPort, sw.next);
    var f := e.(stream := StreamModel.Rx(e.stream, h, data));
    OpenedFlow(sw, role, h, data);
    RxSameStream(e.stream, h, data);
    AppendSteps(forgiven, f);
    assert (sw.endpoints + [e])[|sw.endpoints| := f] == sw.endpoints + [f];
  }

  lemma RxSameStream(s: Stream, h: Header, data: seq<Byte>)
    requires h.srcPort == s.guestPort && h.dstPort == s.hostPort && s.rxAlloc < HALF_U32 && s.maxTx < HALF_U32
    requires s == NewStream(s.guestPort, s.hostPort, s.rxAlloc, s.maxTx)
    ensures SameStream(s, StreamModel.Rx(s, h, data))
  {
    RxKeeps(s, h, data);
  }

  lemma ConnectPublicationSteps(sw: Switch, hostPort: nat)
    requires SwitchOk(sw)
    ensures Steps(sw, ConnectPublication(sw, hostPort).0)
  {
    hide EndpointOk, FlowOk;
    var (after, result) := ConnectPublication(sw, hostPort);
    if after == sw || after == sw.(next := sw.next + 1) {
      SameEndpointsRenew(sw, after);
    } else {
      var e := NewEndpoint(Publication, PUBLICATION_PORT, hostPort, sw.next);
      var f := e.(stream := Request(e.stream).0);
      RequestedFlow(hostPort, sw.next);
      AppendSteps(sw, f);
      assert (sw.endpoints + [e])[|sw.endpoints| := f] == sw.endpoints + [f];
    }
  }

  lemma RequestedFlow(hostPort: nat, number: nat)
    requires IsPublicationHostPort(hostPort)
    ensures var e := NewEndpoint(Publication, PUBLICATION_PORT, hostPort, number);
            var f := e.(stream := Request(e.stream).0);
            && EndpointOk(f) && FlowOk(f) && f.stream.connecting && Request(e.stream).1
            && SameStream(e.stream, f.stream)
  {
    var s := NewStream(PUBLICATION_PORT, hostPort, RxBudget(Publication), TxBudget(Publication));
    RequestKeeps(s);
    assert QueuePayload([]) == [];
  }

  lemma RetireConnectionSteps(sw: Switch, id: ConnectionId)
    requires SwitchOk(sw)
    ensures Steps(sw, RetireConnection(sw, id).0)
  {
    hide EndpointOk, FlowOk, Renews;
    SameEndpointsRenew(sw, sw);
    var index := EndpointIndex(sw, id.guestPort, id.hostPort);
    if index.Some? && CanRelease(sw.endpoints[index.value], id) {
      var i := index.value;
      ForgiveOk(sw.rejected, id.guestPort, id.hostPort, sw.next);
      var forgiven := sw.(rejected := Forgive(sw.rejected, id.guestPort, id.hostPort));
      if i >= FIXED_ENDPOINTS {
        RemoveSteps(forgiven, i);
        RenewsEndpoints(forgiven, sw, RetireConnection(sw, id).0);
      } else {
        EndpointFacts(sw, i);
        ReleasedSucceeds(sw.endpoints[i], sw.next);
        ReplaceSteps(forgiven, i, sw.endpoints[i].(retiring := None, number := sw.next), sw.next + 1);
        RenewsEndpoints(forgiven, sw, RetireConnection(sw, id).0);
      }
    }
  }

  lemma RenewsEndpoints(a: Switch, b: Switch, after: Switch)
    requires Renews(a, after) && a.endpoints == b.endpoints && a.next == b.next
    ensures Renews(b, after)
  {
  }

  lemma ReleasedSucceeds(e: Endpoint, next: nat)
    requires EndpointOk(e) && (e.role == Agent || e.role == Control)
    ensures Succeeds(e, e.(retiring := None, number := next), next, next + 1)
  {
  }

  /** Replaces one stream by a successor and possibly retires the endpoint. */
  lemma MoveSteps(sw: Switch, i: nat, s: Stream)
    requires SwitchOk(sw) && i < |sw.endpoints| && sw.endpoints[i].retiring.None?
    requires Keeps(sw.endpoints[i].stream, s) && (s.connecting ==> sw.endpoints[i].stream.connecting)
    ensures s.Live() || !sw.endpoints[i].stream.Live() ==> Steps(sw, SetStream(sw, i, s))
    ensures Steps(sw, RetireAt(SetStream(sw, i, s), i))
  {
    hide StreamOk, Ordered, SwitchOk, Renews, RetireEndpoint, FlowOk;
    EndpointFacts(sw, i);
    var e := sw.endpoints[i];
    StepSucceeds(e, s, sw.next);
    if s.Live() || !e.stream.Live() { ReplaceSteps(sw, i, e.(stream := s), sw.next); }
    var f := RetireEndpoint(e.(stream := s), sw.next);
    ReplaceSteps(sw, i, f, sw.next + 1);
    assert sw.endpoints[i := e.(stream := s)][i := f] == sw.endpoints[i := f];
  }

  /** Live endpoints are not being released. */
  lemma LiveNotRetiring(sw: Switch, i: nat)
    requires SwitchOk(sw) && i < |sw.endpoints| && sw.endpoints[i].stream.Live()
    ensures sw.endpoints[i].retiring.None? && StreamOk(sw.endpoints[i].stream)
  {
    EndpointFacts(sw, i);
  }

  lemma ConnectionSteps(sw: Switch, id: ConnectionId, data: seq<Byte>, maxBytes: nat)
    requires SwitchOk(sw)
    ensures Steps(sw, SwitchRequestCredit(sw, id).0)
    ensures Steps(sw, SwitchDeliver(sw, id, data).0)
    ensures Steps(sw, SwitchShutdown(sw, id).0)
    ensures Steps(sw, SwitchConsume(sw, id, maxBytes).0)
  {
    hide StreamOk, SwitchOk, Renews, RetireAt, Keeps, RequestCredit, Deliver, Shutdown, ConsumeUpstream;
    SameEndpointsRenew(sw, sw);
    var index := ConnectionIndex(sw, id);
    if index.Some? {
      var i := index.value;
      var s := sw.endpoints[i].stream;
      LiveNotRetiring(sw, i);
      Budgets(s);
      RequestCreditKeeps(s);
      MoveSteps(sw, i, RequestCredit(s).0);
      DeliverKeeps(s, data);
      MoveSteps(sw, i, Deliver(s, data).0);
      ShutdownKeeps(s);
      MoveSteps(sw, i, Shutdown(s).0);
      ConsumeUpstreamKeeps(s, maxBytes);
      MoveSteps(sw, i, ConsumeUpstream(s, maxBytes));
    }
  }

  lemma ResetAtSteps(sw: Switch, i: nat)
    requires SwitchOk(sw) && i < |sw.endpoints|
    ensures Steps(sw, ResetAt(sw, i)) && |ResetAt(sw, i).endpoints| == |sw.endpoints|
  {
    hide StreamOk, SwitchOk, Renews, Rst;
    SameEndpointsRenew(sw, sw);
    var s := sw.endpoints[i].stream;
    if s.Live() {
      LiveNotRetiring(sw, i);
      RstKeeps(s, s.guestPort, s.hostPort);
      RstRetires(sw, i);
    }
  }

  lemma RstRetires(sw: Switch, i: nat)
    requires SwitchOk(sw) && i < |sw.endpoints| && sw.endpoints[i].stream.Live()
    ensures var s := sw.endpoints[i].stream;
            Steps(sw, RetireAt(SetStream(sw, i, Rst(s, s.guestPort, s.hostPort)), i))
  {
    hide StreamOk, Ordered, SwitchOk, Renews, RetireEndpoint, FlowOk, Rst;
    EndpointFacts(sw, i);
    var e := sw.endpoints[i];
    var s := Rst(e.stream, e.stream.guestPort, e.stream.hostPort);
    RstKeeps(e.stream, e.stream.guestPort, e.stream.hostPort);
    RetiredSucceeds(e, s, sw.next);
    var f := RetireEndpoint(e.(stream := s), sw.next);
    ReplaceSteps(sw, i, f, sw.next + 1);
    assert sw.endpoints[i := e.(stream := s)][i := f] == sw.endpoints[i := f];
  }

  lemma {:induction false} ResetFromSteps(sw: Switch, i: nat)
    requires SwitchOk(sw) && i <= |sw.endpoints|
    ensures Steps(sw, ResetFrom(sw, i))
    decreases |sw.endpoints| - i
  {
    hide SwitchOk, Renews, ResetAt;
    if i == |sw.endpoints| {
      SameEndpointsRenew(sw, sw);
    } else {
      ResetAtSteps(sw, i);
      ResetFromSteps(ResetAt(sw, i), i + 1);
      RenewsTransitive(sw, ResetAt(sw, i), ResetFrom(sw, i));
    }
  }

  /** Dropping a queue of resets leaves nothing that counts: an empty queue has zero bytes. */
  lemma ClearedSucceeds(e: Endpoint, next: nat)
    requires EndpointOk(e) && !e.stream.Live()
    ensures Succeeds(e, e.(stream := e.stream.(replies := [])), next, next)
  {
    assert QueuePayload([]) == [];
  }

  lemma ClearAtSteps(sw: Switch, i: nat)
    requires SwitchOk(sw) && i < |sw.endpoints|
    ensures Steps(sw, ClearAt(sw, i)) && |ClearAt(sw, i).endpoints| == |sw.endpoints|
  {
    hide SwitchOk, StreamOk, Ordered, Renews, FlowOk;
    var s := sw.endpoints[i].stream;
    var retired := if s.Live() then RetireAt(sw, i) else sw;
    if s.Live() {
      EndpointFacts(sw, i);
      RetiredSucceeds(sw.endpoints[i], s, sw.next);
      assert sw.endpoints[i].(stream := s) == sw.endpoints[i];
      ReplaceSteps(sw, i, RetireEndpoint(sw.endpoints[i], sw.next), sw.next + 1);
    } else {
      SameEndpointsRenew(sw, sw);
    }
    EndpointFacts(retired, i);
    ClearedSucceeds(retired.endpoints[i], retired.next);
    ReplaceSteps(retired, i, retired.endpoints[i].(stream := retired.endpoints[i].stream.(replies := [])), retired.next);
    RenewsTransitive(sw, retired, ClearAt(sw, i));
  }

  lemma {:induction false} ClearFromSteps(sw: Switch, i: nat)
    requires SwitchOk(sw) && i <= |sw.endpoints|
    ensures Steps(sw, ClearFrom(sw, i))
    decreases |sw.endpoints| - i
  {
    hide SwitchOk, Renews, ClearAt;
    if i == |sw.endpoints| {
      SameEndpointsRenew(sw, sw);
    } else {
      ClearAtSteps(sw, i);
      ClearFromSteps(ClearAt(sw, i), i + 1);
      RenewsTransitive(sw, ClearAt(sw, i), ClearFrom(sw, i));
    }
  }

  lemma ResetConnectionsSteps(sw: Switch)
    requires SwitchOk(sw)
    ensures Steps(sw, ResetConnections(sw))
  {
    ClearFromSteps(sw, 0);
    SameEndpointsRenew(ClearFrom(sw, 0), ResetConnections(sw));
    RenewsTransitive(sw, ClearFrom(sw, 0), ResetConnections(sw));
  }

  lemma DisableNetworkSteps(sw: Switch)
    requires SwitchOk(sw)
    ensures Steps(sw, DisableNetwork(sw))
  {
    var disabled := sw.(networkEnabled := false);
    SameEndpointsRenew(sw, disabled);
    ResetFromSteps(disabled, Min(1, |sw.endpoints|));
    RenewsTransitive(sw, disabled, DisableNetwork(sw));
  }

  lemma ResetConnectionSteps(sw: Switch, id: ConnectionId)
    requires SwitchOk(sw)
    ensures Steps(sw, ResetConnection(sw, id).0)
  {
    hide SwitchOk, Renews, ResetAt;
    SameEndpointsRenew(sw, sw);
    var index := EndpointIndex(sw, id.guestPort, id.hostPort);
    if index.Some? { ResetAtSteps(sw, index.value); }
  }

  lemma TakeFromSteps(sw: Switch, i: nat, maxBytes: nat)
    requires SwitchOk(sw) && i < |sw.endpoints|
    ensures Steps(sw, TakeFrom(sw, i, maxBytes).0)
    ensures TakeFrom(sw, i, maxBytes).1.None? ==> TakeFrom(sw, i, maxBytes).0 == sw
  {
    hide SwitchOk, StreamOk, Renews;
    EndpointFacts(sw, i);
    var e := sw.endpoints[i];
    TakeReplyKeeps(e.stream, maxBytes);
    TakenSucceeds(e, TakeReply(e.stream, maxBytes).0, sw.next);
    ReplaceSteps(sw, i, e.(stream := TakeReply(e.stream, maxBytes).0), sw.next);
  }

  lemma TakenSucceeds(e: Endpoint, s: Stream, next: nat)
    requires EndpointOk(e) && Keeps(e.stream, s) && SameLiveness(e.stream, s)
    ensures Succeeds(e, e.(stream := s), next, next)
  {
    hide StreamOk, InOrder;
  }

  /** A taken reply either leaves one endpoint's queue or the rejections. */
  lemma {:induction false} TakeFlowSteps(sw: Switch, maxBytes: nat, offset: nat)
    requires SwitchOk(sw) && |sw.endpoints| >= FIXED_ENDPOINTS && offset <= FlowCount(sw)
    ensures Steps(sw, TakeFlow(sw, maxBytes, offset).0)
    ensures TakeFlow(sw, maxBytes, offset).1.None? ==> TakeFlow(sw, maxBytes, offset).0 == sw
    decreases FlowCount(sw) - offset
  {
    hide StreamOk, EndpointOk, TakeReply, EndpointsOk;
    if offset == FlowCount(sw) {
      SameEndpointsRenew(sw, sw);
    } else if CanTake(sw, FlowAt(sw, offset), maxBytes) {
      TakeFromSteps(sw, FlowAt(sw, offset), maxBytes);
    } else {
      TakeFlowSteps(sw, maxBytes, offset + 1);
    }
  }

  lemma {:induction false} TakeScanSteps(sw: Switch, maxBytes: nat, offset: nat)
    requires SwitchOk(sw) && |sw.endpoints| >= FIXED_ENDPOINTS && offset <= REPLY_CLASSES
    ensures Steps(sw, TakeScan(sw, maxBytes, offset).0)
    decreases REPLY_CLASSES - offset
  {
    hide StreamOk, EndpointOk, TakeReply, EndpointsOk, TakeFrom, TakeFlow;
    if offset == REPLY_CLASSES {
      SameEndpointsRenew(sw, TakeScan(sw, maxBytes, offset).0);
    } else {
      var class_ := Mod(sw.nextReply + offset, REPLY_CLASSES);
      if class_ < FIXED_ENDPOINTS { TakeFromSteps(sw, class_, maxBytes); } else { TakeFlowSteps(sw, maxBytes, 0); }
      if TakeClass(sw, class_, maxBytes).1.None? { TakeScanSteps(sw, maxBytes, offset + 1); }
    }
  }

  /** Every operation keeps the invariant of the switch. */
  lemma ApplySteps(sw: Switch, op: Op)
    requires SwitchOk(sw)
    ensures |sw.endpoints| >= FIXED_ENDPOINTS && Steps(sw, Apply(sw, op))
  {
    hide EndpointOk, FlowOk, SwitchRx, ConnectPublication, RetireConnection, ResetConnections, DisableNetwork,
      SwitchRequestCredit, SwitchDeliver, SwitchShutdown, ResetConnection, SwitchConsume, TakeScan;
    match op
    case RxOp(h, data) => SwitchRxSteps(sw, h, data);
    case ConnectOp(hostPort) => ConnectPublicationSteps(sw, hostPort);
    case ReleaseOp(id) => RetireConnectionSteps(sw, id);
    case ResetAllOp => ResetConnectionsSteps(sw);
    case DisableNetworkOp => DisableNetworkSteps(sw);
    case RequestCreditOp(id) => ConnectionSteps(sw, id, [], 0);
    case DeliverOp(id, data) => ConnectionSteps(sw, id, data, 0);
    case ShutdownOp(id) => ConnectionSteps(sw, id, [], 0);
    case ResetOp(id) => ResetConnectionSteps(sw, id);
    case ConsumeOp(id, maxBytes) => ConnectionSteps(sw, id, [], maxBytes);
    case TakeOp(maxBytes) => TakeScanSteps(sw, maxBytes, 0);
  }

  lemma NewSwitchOk(networkEnabled: bool, capacity: nat)
    ensures SwitchOk(NewSwitch(networkEnabled, capacity))
  {
    assert QueuePayload([]) == [];
  }
}
