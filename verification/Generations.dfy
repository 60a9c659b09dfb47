/** Whole runs of the switch: the invariant always holds, and a connection that ended never comes back. */
module Generations {
  import opened Words
  import opened VsockWire
  import opened StreamModel
  import opened StreamInvariant
  import opened SwitchModel
  import opened SwitchInvariant

  /** Applies operations from the front of `ops`. A switch always has its fixed endpoints. */
  function RunOps(sw: Switch, ops: seq<Op>): Switch
    decreases |ops|
  {
    if ops == [] || |sw.endpoints| < FIXED_ENDPOINTS then sw else RunOps(Apply(sw, ops[0]), ops[1..])
  }

  lemma {:induction false} RunKeeps(sw: Switch, ops: seq<Op>)
    requires SwitchOk(sw)
    ensures SwitchOk(RunOps(sw, ops))
    decreases |ops|
  {
    hide SwitchOk, Apply;
    if ops != [] {
      ApplySteps(sw, ops[0]);
      RunKeeps(Apply(sw, ops[0]), ops[1..]);
    }
  }

  /** Every switch reachable from a new one, by any sequence of operations, satisfies the invariant. */
  lemma ReachableIsOk(networkEnabled: bool, capacity: nat, ops: seq<Op>)
    ensures SwitchOk(RunOps(NewSwitch(networkEnabled, capacity), ops))
  {
    hide SwitchOk;
    NewSwitchOk(networkEnabled, capacity);
    RunKeeps(NewSwitch(networkEnabled, capacity), ops);
  }

  /** What the invariant says of an endpoint: budgets, unacknowledged bytes, consumption not yet advertised (none on the
      agent port, otherwise below half the smaller window), advertised totals in queue order, and liveness. */
  lemma InvariantBounds(sw: Switch, i: nat)
    requires SwitchOk(sw) && i < |sw.endpoints|
    ensures FlowCount(sw) <= sw.capacity <= MAX_NETWORK_SOCKETS && |sw.rejected| <= MAX_REJECTED_RESETS
    ensures var e := sw.endpoints[i];
            && |e.stream.upstream| <= RxBudget(e.role)
            && QueueBytes(e.stream.replies) <= TxBudget(e.role)
            && |e.stream.replies| <= MAX_QUEUED_REPLIES
            && (e.stream.conn.Some? ==>
                  && e.stream.conn.value.sent - e.stream.conn.value.acked <= TxBudget(e.role)
                  && var c := e.stream.conn.value; var deferred := c.consumed - c.advertised;
                     deferred == 0 || (e.stream.hostPort != AGENT_PORT && 0 < deferred < Min(e.stream.rxAlloc, c.peerBufAlloc) / 2))
            && (forall a, b {:trigger e.stream.replies[a], e.stream.replies[b]} ::
                  0 <= a < b < |e.stream.replies| && !IsRst(e.stream.replies[a]) && !IsRst(e.stream.replies[b]) ==>
                    e.stream.replies[a].fwd <= e.stream.replies[b].fwd)
            && !(e.stream.Live() && e.retiring.Some?)
            && (i >= FIXED_ENDPOINTS ==> e.stream.Live() || e.retiring.Some?)
            && (!e.stream.Live() ==> OnlyResets(e.stream.replies) && QueueBytes(e.stream.replies) == 0)
    ensures forall j :: 0 <= j < |sw.endpoints| && j != i ==>
              !HasPorts(sw.endpoints[j], sw.endpoints[i].stream.guestPort, sw.endpoints[i].stream.hostPort)
  {
    EndpointFacts(sw, i);
    var e := sw.endpoints[i];
    forall a, b | 0 <= a < b < |e.stream.replies| && !IsRst(e.stream.replies[a]) && !IsRst(e.stream.replies[b])
      ensures e.stream.replies[a].fwd <= e.stream.replies[b].fwd
    {
      assert e.stream.Live() ==> Precedes(e.stream.replies[a], e.stream.replies[b]);
    }
    if !e.stream.Live() {
      assert forall k :: 0 <= k < |e.stream.replies| ==> IsRst(e.stream.replies[k]);
      NoDataNoPayload(e.stream.replies);
    }
    forall j | 0 <= j < |sw.endpoints| && j != i
      ensures !HasPorts(sw.endpoints[j], e.stream.guestPort, e.stream.hostPort)
    {
      assert Distinct(sw.endpoints[if j < i then j else i], sw.endpoints[if j < i then i else j]);
    }
  }

  /** The number was allocated and no endpoint bears it any more. */
  predicate Gone(sw: Switch, number: nat) {
    number < sw.next && forall i :: 0 <= i < |sw.endpoints| ==> sw.endpoints[i].number != number
  }

  lemma GoneStays(sw: Switch, after: Switch, number: nat)
    requires Renews(sw, after) && Gone(sw, number)
    ensures Gone(after, number)
  {
    forall j | 0 <= j < |after.endpoints|
      ensures after.endpoints[j].number != number
    {
      assert Descends(sw.endpoints, sw.next, after.endpoints[j]);
    }
  }

  lemma {:induction false} GoneForever(sw: Switch, ops: seq<Op>, number: nat)
    requires SwitchOk(sw) && Gone(sw, number)
    ensures Gone(RunOps(sw, ops), number)
    decreases |ops|
  {
    hide SwitchOk, Renews, Apply, Gone;
    if ops != [] {
      ApplySteps(sw, ops[0]);
      GoneStays(sw, Apply(sw, ops[0]), number);
      GoneForever(Apply(sw, ops[0]), ops[1..], number);
    }
  }

  lemma SamePortsSameIndex(sw: Switch, i: nat, j: nat)
    requires SwitchOk(sw) && i < |sw.endpoints| && j < |sw.endpoints|
    requires HasPorts(sw.endpoints[i], sw.endpoints[j].stream.guestPort, sw.endpoints[j].stream.hostPort)
    ensures i == j
  {
    assert i < j ==> Distinct(sw.endpoints[i], sw.endpoints[j]);
    assert j < i ==> Distinct(sw.endpoints[j], sw.endpoints[i]);
  }

  lemma SameNumberSameIndex(sw: Switch, i: nat, j: nat)
    requires SwitchOk(sw) && i < |sw.endpoints| && j < |sw.endpoints|
    requires sw.endpoints[i].number == sw.endpoints[j].number
    ensures i == j
  {
    assert i < j ==> Distinct(sw.endpoints[i], sw.endpoints[j]);
    assert j < i ==> Distinct(sw.endpoints[j], sw.endpoints[i]);
  }

  /** Port pairs are unique, so the endpoint with the identity's ports is the one the lookup finds. */
  lemma CurrentAt(sw: Switch, id: ConnectionId, i: nat)
    requires SwitchOk(sw) && i < |sw.endpoints| && Connected(sw.endpoints[i]) == Some(id)
    ensures ConnectionIndex(sw, id) == Some(i)
  {
    hide EndpointOk, FlowOk;
    var index := EndpointIndex(sw, id.guestPort, id.hostPort);
    assert HasPorts(sw.endpoints[i], id.guestPort, id.hostPort);
    SamePortsSameIndex(sw, index.value, i);
  }

  /** The identity a packet reports is the one under which its endpoint, new or old, is current if it is connected
      afterwards. */
  lemma TouchedIsCurrent(sw: Switch, h: Header, data: seq<Byte>, i: nat)
    requires SwitchOk(sw) && SwitchRx(sw, h, data).1.Some?
    requires i < |SwitchRx(sw, h, data).0.endpoints|
    requires var e := SwitchRx(sw, h, data).0.endpoints[i];
             HasPorts(e, h.srcPort, h.dstPort) && e.stream.conn.Some?
    ensures var (after, touched) := SwitchRx(sw, h, data);
            ConnectionIndex(after, touched.value) == Some(i)
  {
    hide SwitchOk, EndpointOk, FlowOk, StreamModel.Rx, Forgive, Renews;
    SwitchRxSteps(sw, h, data);
    var (after, touched) := SwitchRx(sw, h, data);
    TouchedIdentity(sw, h, data, i);
    CurrentAt(after, touched.value, i);
  }

  lemma TouchedIdentity(sw: Switch, h: Header, data: seq<Byte>, i: nat)
    requires SwitchOk(sw) && SwitchRx(sw, h, data).1.Some?
    requires i < |SwitchRx(sw, h, data).0.endpoints|
    requires var e := SwitchRx(sw, h, data).0.endpoints[i];
             HasPorts(e, h.srcPort, h.dstPort) && e.stream.conn.Some?
    ensures Connected(SwitchRx(sw, h, data).0.endpoints[i]) == SwitchRx(sw, h, data).1
  {
    hide EndpointOk, FlowOk, StreamModel.Rx, Forgive;
    var role := Classify(sw, h.srcPort, h.dstPort);
    var index := EndpointIndex(sw, h.srcPort, h.dstPort);
    if index.None? {
      OpenedFlow(sw, role.value, h, data);
      RxSameStream(NewEndpoint(role.value, h.srcPort, h.dstPort, sw.next).stream, h, data);
    } else {
      var k := index.value;
      EndpointFacts(sw, k);
      RxKeepsPorts(sw.endpoints[k], h, data);
      if i != k { SamePortsSameIndex(sw, k, i); }
    }
  }

  lemma RxKeepsPorts(e: Endpoint, h: Header, data: seq<Byte>)
    requires EndpointOk(e) && HasPorts(e, h.srcPort, h.dstPort)
    ensures SameStream(e.stream, StreamModel.Rx(e.stream, h, data))
  {
    RxKeeps(e.stream, h, data);
  }

  /** The identity the host gets for a requested connection is current as soon as the guest's answer opens it. */
  lemma RequestedBecomesCurrent(sw: Switch, hostPort: nat, answer: Header)
    requires SwitchOk(sw) && ConnectPublication(sw, hostPort).1.Ok?
    requires WellFormedPacket(answer, []) && answer.op == OP_RESPONSE && answer.fwdCnt == 0
    requires answer.srcPort == PUBLICATION_PORT && answer.dstPort == hostPort
    ensures var (asked, result) := ConnectPublication(sw, hostPort);
            IsCurrent(SwitchRx(asked, answer, []).0, result.value)
  {
    hide SwitchOk, EndpointOk, FlowOk, Forgive, Renews;
    var (asked, result) := ConnectPublication(sw, hostPort);
    ConnectPublicationSteps(sw, hostPort);
    RequestedFlow(hostPort, sw.next);
    var i := |sw.endpoints|;
    var f := asked.endpoints[i];
    assert HasPorts(f, PUBLICATION_PORT, hostPort);
    var index := EndpointIndex(asked, PUBLICATION_PORT, hostPort);
    SamePortsSameIndex(asked, index.value, i);
    SwitchRxSteps(asked, answer, []);
    var after := SwitchRx(asked, answer, []).0;
    AnswerOpens(f.stream, answer);
    assert Connected(after.endpoints[i]) == Some(result.value);
    CurrentAt(after, result.value, i);
  }

  lemma AnswerOpens(s: Stream, answer: Header)
    requires s.connecting && WellFormedPacket(answer, []) && answer.op == OP_RESPONSE && answer.fwdCnt == 0
    ensures StreamModel.Rx(s, answer, []) == s.(connecting := false, conn := Some(NewConn(answer.bufAlloc)))
  {
  }

  /** An identity that stops being current has lost its number for good. */
  lemma StoppedIsGone(sw: Switch, after: Switch, id: ConnectionId)
    requires SwitchOk(sw) && Steps(sw, after) && IsCurrent(sw, id) && !IsCurrent(after, id)
    ensures Gone(after, id.number)
  {
    hide EndpointOk, FlowOk;
    var i := ConnectionIndex(sw, id).value;
    EndpointFacts(sw, i);
    forall j | 0 <= j < |after.endpoints|
      ensures after.endpoints[j].number != id.number
    {
      var f := after.endpoints[j];
      if f.number == id.number {
        assert Descends(sw.endpoints, sw.next, f);
        var k :| 0 <= k < |sw.endpoints| && SameConnection(sw.endpoints[k], f);
        SameNumberSameIndex(sw, k, i);
        assert Connected(f) == Some(id);
        CurrentAt(after, id, j);
      }
    }
  }

  lemma GoneIsNotCurrent(sw: Switch, id: ConnectionId)
    requires Gone(sw, id.number)
    ensures !IsCurrent(sw, id)
  {
  }

  /** Once a connection stops being current it is never current again, whatever follows, port reuse included. */
  lemma NeverCurrentAgain(sw: Switch, op: Op, ops: seq<Op>, id: ConnectionId)
    requires SwitchOk(sw) && IsCurrent(sw, id) && |sw.endpoints| >= FIXED_ENDPOINTS && !IsCurrent(Apply(sw, op), id)
    ensures !IsCurrent(RunOps(Apply(sw, op), ops), id)
  {
    ApplySteps(sw, op);
    StoppedIsGone(sw, Apply(sw, op), id);
    GoneForever(Apply(sw, op), ops, id.number);
    GoneIsNotCurrent(RunOps(Apply(sw, op), ops), id);
  }

  /** Operations on an identity that is not current fail and leave the switch as it was. */
  lemma StaleOperationsFail(sw: Switch, id: ConnectionId, data: seq<Byte>, maxBytes: nat)
    requires !IsCurrent(sw, id)
    ensures SwitchDeliver(sw, id, data) == (sw, Err(if |data| > MAX_PACKET_DATA_BYTES then Backpressure else UnknownConnection))
    ensures SwitchConsume(sw, id, maxBytes) == (sw, Err(UnknownConnection))
    ensures SwitchShutdown(sw, id) == (sw, Err(UnknownConnection))
    ensures SwitchRequestCredit(sw, id) == (sw, Err(UnknownConnection))
  {
  }

  /** So from the step that ends a connection on, after any further operations, whoever still holds its identity can
      neither deliver to it, consume from it, shut it down nor request credit for it, and trying changes nothing. */
  lemma EndedStaysUnusable(sw: Switch, op: Op, ops: seq<Op>, id: ConnectionId, data: seq<Byte>, maxBytes: nat)
    requires SwitchOk(sw) && IsCurrent(sw, id) && |sw.endpoints| >= FIXED_ENDPOINTS && !IsCurrent(Apply(sw, op), id)
    ensures var later := RunOps(Apply(sw, op), ops);
            && SwitchDeliver(later, id, data) == (later, Err(if |data| > MAX_PACKET_DATA_BYTES then Backpressure else UnknownConnection))
            && SwitchConsume(later, id, maxBytes) == (later, Err(UnknownConnection))
            && SwitchShutdown(later, id) == (later, Err(UnknownConnection))
            && SwitchRequestCredit(later, id) == (later, Err(UnknownConnection))
  {
    hide SwitchOk, Apply, RunOps, IsCurrent;
    NeverCurrentAgain(sw, op, ops, id);
    StaleOperationsFail(RunOps(Apply(sw, op), ops), id, data, maxBytes);
  }

  /** A reply stamped with a retired number never reaches the guest: it is not current in any later state. */
  lemma StaleReplyNeverCurrent(sw: Switch, ops: seq<Op>, r: Stamped)
    requires SwitchOk(sw) && r.number != 0 && Gone(sw, r.number)
    ensures !IsReplyCurrent(RunOps(sw, ops), r)
  {
    GoneForever(sw, ops, r.number);
  }

  /** A reply taken while its endpoint was live becomes stale as soon as that endpoint is retired. */
  lemma TakenReplyGoesStale(sw: Switch, op: Op, ops: seq<Op>, id: ConnectionId, r: Stamped)
    requires SwitchOk(sw) && IsCurrent(sw, id) && r.number == id.number
    requires |sw.endpoints| >= FIXED_ENDPOINTS && !IsCurrent(Apply(sw, op), id)
    ensures !IsReplyCurrent(RunOps(Apply(sw, op), ops), r)
  {
    ApplySteps(sw, op);
    StoppedIsGone(sw, Apply(sw, op), id);
    EndpointFacts(sw, ConnectionIndex(sw, id).value);
    StaleReplyNeverCurrent(Apply(sw, op), ops, r);
  }
}
