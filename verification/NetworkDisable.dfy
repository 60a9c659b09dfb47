/** Disabling the network is final: no run of the switch brings a connection other than the agent's back. */
module NetworkDisable {
  import opened Words
  import opened Modular
  import opened VsockWire
  import opened StreamModel
  import opened SwitchModel
  import opened SwitchInvariant
  import opened Generations

  /** The network is disabled and only the first endpoint, the agent's, may be live. */
  predicate Off(sw: Switch) {
    !sw.networkEnabled && forall i :: 1 <= i < |sw.endpoints| ==> !sw.endpoints[i].stream.Live()
  }

  lemma RetiredIsDead(e: Endpoint, number: nat)
    ensures !RetireEndpoint(e, number).stream.Live()
  {
  }

  // ----- The operations

  /** The loop of `reset_network_connections` ends every connection it passes. */
  lemma {:induction false} ResetFromOff(sw: Switch, i: nat)
    requires 1 <= i <= |sw.endpoints| && !sw.networkEnabled
    requires forall j :: 1 <= j < i ==> !sw.endpoints[j].stream.Live()
    ensures Off(ResetFrom(sw, i))
    decreases |sw.endpoints| - i
  {
    if i < |sw.endpoints| {
      ResetAtDead(sw, i);
      ResetFromOff(ResetAt(sw, i), i + 1);
    }
  }

  lemma ResetAtDead(sw: Switch, i: nat)
    requires i < |sw.endpoints|
    ensures var after := ResetAt(sw, i);
            && |after.endpoints| == |sw.endpoints| && after.networkEnabled == sw.networkEnabled
            && !after.endpoints[i].stream.Live()
            && forall j :: 0 <= j < |sw.endpoints| && j != i ==> after.endpoints[j] == sw.endpoints[j]
  {
    hide Rst;
    var s := sw.endpoints[i].stream;
    RetiredIsDead(sw.endpoints[i].(stream := Rst(s, s.guestPort, s.hostPort)), sw.next);
  }

  lemma {:induction false} ClearFromOff(sw: Switch, i: nat)
    requires i <= |sw.endpoints| && Off(sw)
    ensures Off(ClearFrom(sw, i))
    decreases |sw.endpoints| - i
  {
    if i < |sw.endpoints| {
      RetiredIsDead(sw.endpoints[i], sw.next);
      ClearFromOff(ClearAt(sw, i), i + 1);
    }
  }

  lemma RxOff(sw: Switch, h: Header, data: seq<Byte>)
    requires SwitchOk(sw) && Off(sw)
    ensures Off(SwitchRx(sw, h, data).0)
  {
    assert HasPorts(sw.endpoints[0], AGENT_PORT, AGENT_PORT);
    hide SwitchOk, StreamModel.Rx, RetireEndpoint;
    if h.srcPort == AGENT_PORT && h.dstPort == AGENT_PORT {
      assert EndpointIndex(sw, AGENT_PORT, AGENT_PORT) == Some(0);
    } else {
      assert Classify(sw, h.srcPort, h.dstPort).None?;
    }
  }

  /** Only the agent's connection can be named. */
  lemma OnlyAgentConnects(sw: Switch, id: ConnectionId)
    requires SwitchOk(sw) && Off(sw) && IsCurrent(sw, id)
    ensures ConnectionIndex(sw, id) == Some(0) && id.role == Agent
  {
    hide EndpointOk, FlowOk;
    var i := ConnectionIndex(sw, id).value;
    assert sw.endpoints[i].stream.Live();
  }

  lemma ConnectionOff(sw: Switch, id: ConnectionId, data: seq<Byte>, maxBytes: nat)
    requires SwitchOk(sw) && Off(sw)
    ensures Off(SwitchRequestCredit(sw, id).0) && Off(SwitchDeliver(sw, id, data).0)
    ensures Off(SwitchShutdown(sw, id).0) && Off(SwitchConsume(sw, id, maxBytes).0)
  {
    hide SwitchOk, RequestCredit, Deliver, Shutdown, ConsumeUpstream, RetireEndpoint;
    if IsCurrent(sw, id) { OnlyAgentConnects(sw, id); }
  }

  lemma ReleaseOff(sw: Switch, id: ConnectionId)
    requires Off(sw)
    ensures Off(RetireConnection(sw, id).0)
  {
    hide Forgive;
    var index := EndpointIndex(sw, id.guestPort, id.hostPort);
    if index.Some? && index.value >= FIXED_ENDPOINTS {
      var i := index.value;
      var after := sw.endpoints[..i] + sw.endpoints[i + 1..];
      assert forall j :: 0 <= j < |after| ==> after[j] == sw.endpoints[if j < i then j else j + 1];
    }
  }

  lemma TakeFromOff(sw: Switch, i: nat, maxBytes: nat)
    requires Off(sw) && i < |sw.endpoints|
    ensures Off(TakeFrom(sw, i, maxBytes).0)
  {
  }

  lemma {:induction false} TakeFlowOff(sw: Switch, maxBytes: nat, offset: nat)
    requires Off(sw) && |sw.endpoints| >= FIXED_ENDPOINTS && offset <= FlowCount(sw)
    ensures Off(TakeFlow(sw, maxBytes, offset).0)
    decreases FlowCount(sw) - offset
  {
    hide Mod, TakeReply;
    if offset < FlowCount(sw) {
      if CanTake(sw, FlowAt(sw, offset), maxBytes) { TakeFromOff(sw, FlowAt(sw, offset), maxBytes); }
      TakeFlowOff(sw, maxBytes, offset + 1);
    }
  }

  lemma {:induction false} TakeScanOff(sw: Switch, maxBytes: nat, offset: nat)
    requires Off(sw) && |sw.endpoints| >= FIXED_ENDPOINTS && offset <= REPLY_CLASSES
    ensures Off(TakeScan(sw, maxBytes, offset).0)
    decreases REPLY_CLASSES - offset
  {
    hide Mod, TakeFlow, TakeFrom;
    if offset < REPLY_CLASSES {
      var class_ := Mod(sw.nextReply + offset, REPLY_CLASSES);
      if class_ < FIXED_ENDPOINTS { TakeFromOff(sw, class_, maxBytes); } else { TakeFlowOff(sw, maxBytes, 0); }
      TakeScanOff(sw, maxBytes, offset + 1);
    }
  }

  lemma DisableOff(sw: Switch)
    requires |sw.endpoints| >= FIXED_ENDPOINTS
    ensures Off(DisableNetwork(sw))
  {
    ResetFromOff(sw.(networkEnabled := false), 1);
  }

  lemma ApplyOff(sw: Switch, op: Op)
    requires SwitchOk(sw) && |sw.endpoints| >= FIXED_ENDPOINTS && Off(sw)
    ensures Off(Apply(sw, op))
  {
    hide SwitchOk, SwitchRx, RetireConnection, ClearFrom, DisableNetwork, SwitchRequestCredit, SwitchDeliver,
      SwitchShutdown, SwitchConsume, TakeScan, ResetAt;
    match op
    case RxOp(h, data) => RxOff(sw, h, data);
    case ConnectOp(hostPort) =>
    case ReleaseOp(id) => ReleaseOff(sw, id);
    case ResetAllOp => ClearFromOff(sw, 0);
    case DisableNetworkOp => DisableOff(sw);
    case RequestCreditOp(id) => ConnectionOff(sw, id, [], 0);
    case DeliverOp(id, data) => ConnectionOff(sw, id, data, 0);
    case ShutdownOp(id) => ConnectionOff(sw, id, [], 0);
    case ResetOp(id) =>
      var index := EndpointIndex(sw, id.guestPort, id.hostPort);
      if index.Some? { ResetAtDead(sw, index.value); }
    case ConsumeOp(id, maxBytes) => ConnectionOff(sw, id, [], maxBytes);
    case TakeOp(maxBytes) => TakeScanOff(sw, maxBytes, 0);
  }

  // ----- Whole runs

  lemma {:induction false} RunOff(sw: Switch, ops: seq<Op>)
    requires SwitchOk(sw) && Off(sw)
    ensures Off(RunOps(sw, ops)) && SwitchOk(RunOps(sw, ops))
    decreases |ops|
  {
    hide SwitchOk, Apply, Off, Renews;
    if ops != [] && |sw.endpoints| >= FIXED_ENDPOINTS {
      ApplySteps(sw, ops[0]);
      ApplyOff(sw, ops[0]);
      RunOff(Apply(sw, ops[0]), ops[1..]);
    }
  }

  /** Whatever connections exist when the network is disabled and whatever follows: no endpoint but the agent's is ever
      live, no identity with another role is current, and packets between any other ports are only rejected. */
  lemma DisabledForever(sw: Switch, ops: seq<Op>, i: nat, id: ConnectionId, h: Header, data: seq<Byte>)
    requires SwitchOk(sw) && |sw.endpoints| >= FIXED_ENDPOINTS
    ensures var later := RunOps(Apply(sw, DisableNetworkOp), ops);
            && (1 <= i < |later.endpoints| ==> !later.endpoints[i].stream.Live())
            && (id.role != Agent ==> !IsCurrent(later, id))
            && (!(h.srcPort == h.dstPort == AGENT_PORT) ==> SwitchRx(later, h, data) == (Reject(later, h), None))
  {
    hide SwitchOk, Apply, RunOps, Reject, RxAt;
    ApplySteps(sw, DisableNetworkOp);
    assert Off(Apply(sw, DisableNetworkOp)) by { DisableOff(sw); AppliesDisable(sw); }
    RunOff(Apply(sw, DisableNetworkOp), ops);
    var later := RunOps(Apply(sw, DisableNetworkOp), ops);
    if IsCurrent(later, id) { OnlyAgentConnects(later, id); }
  }

  lemma RstSurvives(s: Stream)
    requires s.Live() && CanQueue(s, 0)
    ensures RstReply(s.guestPort, s.hostPort) in Retire(Rst(s, s.guestPort, s.hostPort)).replies
  {
    var r := RstReply(s.guestPort, s.hostPort);
    RetainedIn(s.replies + [r], r);
  }

  lemma {:induction false} RetainedIn(replies: seq<Reply>, r: Reply)
    requires r in replies && r.op == OP_RST
    ensures r in Retain(replies, OP_RST, true)
  {
    if replies[0] != r { RetainedIn(replies[1..], r); }
  }

  /** Disabling the network queues a reset for the guest on every live connection but the agent's that has room for one. */
  lemma {:induction false} ResetTellsGuest(sw: Switch, from: nat, i: nat)
    requires from <= i < |sw.endpoints| && sw.endpoints[i].stream.Live() && CanQueue(sw.endpoints[i].stream, 0)
    ensures var s := sw.endpoints[i].stream; var after := ResetFrom(sw, from);
            |after.endpoints| == |sw.endpoints| && RstReply(s.guestPort, s.hostPort) in after.endpoints[i].stream.replies
    decreases |sw.endpoints| - from
  {
    hide ResetAt, CanQueue;
    ResetAtDead(sw, from);
    if from < i {
      ResetTellsGuest(ResetAt(sw, from), from + 1, i);
    } else {
      TellsAt(sw, i);
      ResetLeaves(ResetAt(sw, from), from + 1, i);
    }
  }

  lemma TellsAt(sw: Switch, i: nat)
    requires i < |sw.endpoints| && sw.endpoints[i].stream.Live() && CanQueue(sw.endpoints[i].stream, 0)
    ensures var s := sw.endpoints[i].stream;
            RstReply(s.guestPort, s.hostPort) in ResetAt(sw, i).endpoints[i].stream.replies
  {
    RstSurvives(sw.endpoints[i].stream);
  }

  lemma {:induction false} ResetLeaves(sw: Switch, from: nat, i: nat)
    requires i < from <= |sw.endpoints|
    ensures |ResetFrom(sw, from).endpoints| == |sw.endpoints| && ResetFrom(sw, from).endpoints[i] == sw.endpoints[i]
    decreases |sw.endpoints| - from
  {
    hide ResetAt;
    if from < |sw.endpoints| {
      ResetAtDead(sw, from);
      ResetLeaves(ResetAt(sw, from), from + 1, i);
    }
  }

  lemma AppliesDisable(sw: Switch)
    requires |sw.endpoints| >= FIXED_ENDPOINTS
    ensures Apply(sw, DisableNetworkOp) == DisableNetwork(sw)
  {
  }
}
