/** The vsock switch over stream models: fixed agent and control endpoints followed by network flows. */
module SwitchModel {
  import opened Words
  import opened Modular
  import opened VsockWire
  import opened StreamModel

  datatype Role = Agent | Control | Tcp | Udp | Publication

  datatype ConnectionId = ConnectionId(role: Role, guestPort: nat, hostPort: nat, number: nat)

  datatype Endpoint = Endpoint(role: Role, stream: Stream, number: nat, retiring: Option<nat>)

  /** A reply as it leaves the switch, stamped with the number of the endpoint it came from. */
  datatype Stamped = Stamped(number: nat, reply: Reply)

  datatype Switch = Switch(
    endpoints: seq<Endpoint>, next: nat, networkEnabled: bool, capacity: nat,
    nextReply: nat, nextFlowReply: nat, rejected: seq<Stamped>)

  const FIXED_ENDPOINTS: nat := 2
  const REPLY_CLASSES: nat := 3

  function RxBudget(role: Role): nat {
    match role
    case Agent => AGENT_UPSTREAM_BYTES
    case Control => CONTROL_UPSTREAM_BYTES
    case _ => FLOW_UPSTREAM_BYTES
  }

  function TxBudget(role: Role): nat {
    match role
    case Agent => AGENT_REPLY_BYTES
    case Control => CONTROL_REPLY_BYTES
    case _ => FLOW_REPLY_BYTES
  }

  function NewEndpoint(role: Role, guestPort: nat, hostPort: nat, number: nat): Endpoint {
    Endpoint(role, NewStream(guestPort, hostPort, RxBudget(role), TxBudget(role)), number, None)
  }

  function NewSwitch(networkEnabled: bool, capacity: nat): Switch {
    Switch([NewEndpoint(Agent, AGENT_PORT, AGENT_PORT, 1), NewEndpoint(Control, CONTROL_PORT, CONTROL_PORT, 2)],
           3, networkEnabled, Min(capacity, MAX_NETWORK_SOCKETS), 0, 0, [])
  }

  function Identity(e: Endpoint, number: nat): ConnectionId {
    ConnectionId(e.role, e.stream.guestPort, e.stream.hostPort, number)
  }

  function Connected(e: Endpoint): Option<ConnectionId> {
    if e.stream.conn.Some? then Some(Identity(e, e.number)) else None
  }

  /** `Endpoint::retire`: a live (or first-time) retirement takes a new number, and only resets stay queued. */
  function RetireEndpoint(e: Endpoint, number: nat): Endpoint {
    var renumbered := if e.stream.Live() || e.retiring.None? then e.(retiring := Some(e.number), number := number) else e;
    renumbered.(stream := Retire(e.stream))
  }

  /** The port pairs that belong to a role. */
  predicate PortsOf(role: Role, guestPort: nat, hostPort: nat) {
    match role
    case Agent => guestPort == hostPort == AGENT_PORT
    case Control => guestPort == hostPort == CONTROL_PORT
    case Tcp => hostPort == TCP_PORT && IsFlowGuestPort(guestPort)
    case Udp => hostPort == UDP_PORT && IsFlowGuestPort(guestPort)
    case Publication => guestPort == PUBLICATION_PORT && IsPublicationHostPort(hostPort)
  }

  predicate Allowed(sw: Switch, role: Role) {
    sw.networkEnabled || role == Agent
  }

  function Classify(sw: Switch, guestPort: nat, hostPort: nat): Option<Role> {
    if guestPort == AGENT_PORT && hostPort == AGENT_PORT then Some(Agent)
    else if guestPort == CONTROL_PORT && hostPort == CONTROL_PORT && sw.networkEnabled then Some(Control)
    else if hostPort == TCP_PORT && sw.networkEnabled && IsFlowGuestPort(guestPort) then Some(Tcp)
    else if hostPort == UDP_PORT && sw.networkEnabled && IsFlowGuestPort(guestPort) then Some(Udp)
    else if guestPort == PUBLICATION_PORT && sw.networkEnabled && IsPublicationHostPort(hostPort) then Some(Publication)
    else None
  }

  predicate HasPorts(e: Endpoint, guestPort: nat, hostPort: nat) {
    e.stream.guestPort == guestPort && e.stream.hostPort == hostPort
  }

  /** The first endpoint at or after `from` with the given port pair. */
  function IndexFrom(endpoints: seq<Endpoint>, guestPort: nat, hostPort: nat, from: nat): (index: Option<nat>)
    requires from <= |endpoints|
    ensures index.Some? ==> from <= index.value < |endpoints| && HasPorts(endpoints[index.value], guestPort, hostPort)
    ensures index.Some? ==> forall i :: from <= i < index.value ==> !HasPorts(endpoints[i], guestPort, hostPort)
    ensures index.None? ==> forall i :: from <= i < |endpoints| ==> !HasPorts(endpoints[i], guestPort, hostPort)
    decreases |endpoints| - from
  {
    if from == |endpoints| then None
    else if HasPorts(endpoints[from], guestPort, hostPort) then Some(from)
    else IndexFrom(endpoints, guestPort, hostPort, from + 1)
  }

  function EndpointIndex(sw: Switch, guestPort: nat, hostPort: nat): (index: Option<nat>)
    ensures index.Some? ==> index.value < |sw.endpoints|
  {
    IndexFrom(sw.endpoints, guestPort, hostPort, 0)
  }

  function ConnectionIndex(sw: Switch, id: ConnectionId): (index: Option<nat>)
    ensures index.Some? ==> index.value < |sw.endpoints| && Connected(sw.endpoints[index.value]) == Some(id)
  {
    var index := EndpointIndex(sw, id.guestPort, id.hostPort);
    if index.Some? && Connected(sw.endpoints[index.value]) == Some(id) then index else None
  }

  predicate IsCurrent(sw: Switch, id: ConnectionId) {
    ConnectionIndex(sw, id).Some?
  }

  function FlowCount(sw: Switch): int {
    |sw.endpoints| - FIXED_ENDPOINTS
  }

  function SetStream(sw: Switch, i: nat, s: Stream): Switch
    requires i < |sw.endpoints|
  {
    sw.(endpoints := sw.endpoints[i := sw.endpoints[i].(stream := s)])
  }

  /** Retires endpoint `i` under a freshly allocated number. */
  function RetireAt(sw: Switch, i: nat): Switch
    requires i < |sw.endpoints|
  {
    sw.(endpoints := sw.endpoints[i := RetireEndpoint(sw.endpoints[i], sw.next)], next := sw.next + 1)
  }

  function Reject(sw: Switch, h: Header): Switch {
    if h.op == OP_RST || |sw.rejected| >= MAX_REJECTED_RESETS then sw
    else
      var index := EndpointIndex(sw, h.srcPort, h.dstPort);
      var number := if index.Some? then sw.endpoints[index.value].number else 0;
      sw.(rejected := sw.rejected + [Stamped(number, RstReply(h.srcPort, h.dstPort))])
  }

  /** Drops the queued rejections that concern a port pair. */
  function Forgive(rejected: seq<Stamped>, guestPort: nat, hostPort: nat): seq<Stamped> {
    if rejected == [] then []
    else (if rejected[0].reply.dstPort != guestPort || rejected[0].reply.srcPort != hostPort then [rejected[0]] else [])
         + Forgive(rejected[1..], guestPort, hostPort)
  }

  predicate OpensFlow(sw: Switch, role: Role, h: Header, data: seq<Byte>) {
    && (role == Tcp || role == Udp)
    && h.op == OP_REQUEST && h.type_ == TYPE_STREAM && h.srcCid == GUEST_CID && h.dstCid == HOST_CID
    && h.len == 0 && data == [] && h.flags == 0 && h.fwdCnt == 0
    && FlowCount(sw) < sw.capacity
  }

  function AddEndpoint(sw: Switch, role: Role, guestPort: nat, hostPort: nat): Switch {
    sw.(endpoints := sw.endpoints + [NewEndpoint(role, guestPort, hostPort, sw.next)], next := sw.next + 1)
  }

  /** Delivers a packet to an existing endpoint, retiring it when the packet ended its connection. */
  function RxAt(sw: Switch, i: nat, h: Header, data: seq<Byte>): Switch
    requires i < |sw.endpoints|
  {
    var e := sw.endpoints[i];
    var moved := SetStream(sw, i, Rx(e.stream, h, data));
    if e.stream.Live() && !moved.endpoints[i].stream.Live() then RetireAt(moved, i) else moved
  }

  function SwitchRx(sw: Switch, h: Header, data: seq<Byte>): (Switch, Option<ConnectionId>) {
    var role := Classify(sw, h.srcPort, h.dstPort);
    if role.None? then (Reject(sw, h), None)
    else
      var index := EndpointIndex(sw, h.srcPort, h.dstPort);
      if index.None? then
        if !OpensFlow(sw, role.value, h, data) then (Reject(sw, h), None)
        else
          var grown := AddEndpoint(sw.(rejected := Forgive(sw.rejected, h.srcPort, h.dstPort)), role.value, h.srcPort, h.dstPort);
          (RxAt(grown, |sw.endpoints|, h, data), Some(ConnectionId(role.value, h.srcPort, h.dstPort, sw.next)))
      else
        var e := sw.endpoints[index.value];
        if e.retiring.Some? then (Reject(sw, h), None)
        else (RxAt(sw, index.value, h, data), Some(Identity(e, e.number)))
  }

  function ConnectPublication(sw: Switch, hostPort: nat): (Switch, Result<ConnectionId>) {
    if !sw.networkEnabled || !IsPublicationHostPort(hostPort) || FlowCount(sw) >= sw.capacity then (sw, Err(Backpressure))
    else if EndpointIndex(sw, PUBLICATION_PORT, hostPort).Some? then (sw, Err(Busy))
    else
      var grown := AddEndpoint(sw, Publication, PUBLICATION_PORT, hostPort);
      var (stream, queued) := Request(grown.endpoints[|sw.endpoints|].stream);
      if !queued then (sw.(next := sw.next + 1), Err(Backpressure))
      else (SetStream(grown, |sw.endpoints|, stream), Ok(ConnectionId(Publication, PUBLICATION_PORT, hostPort, sw.next)))
  }

  predicate CanRelease(e: Endpoint, id: ConnectionId) {
    e.role == id.role && e.retiring == Some(id.number) && e.stream.replies == []
  }

  function RetireConnection(sw: Switch, id: ConnectionId): (Switch, bool) {
    var index := EndpointIndex(sw, id.guestPort, id.hostPort);
    if index.None? || !CanRelease(sw.endpoints[index.value], id) then (sw, false)
    else
      var i := index.value;
      var released :=
        if i >= FIXED_ENDPOINTS then sw.(endpoints := sw.endpoints[..i] + sw.endpoints[i + 1..])
        else sw.(endpoints := sw.endpoints[i := sw.endpoints[i].(retiring := None, number := sw.next)], next := sw.next + 1);
      (released.(rejected := Forgive(sw.rejected, id.guestPort, id.hostPort)), true)
  }

  /** Retires endpoint `i` when it is live and drops its queue. */
  function ClearAt(sw: Switch, i: nat): Switch
    requires i < |sw.endpoints|
  {
    var retired := if sw.endpoints[i].stream.Live() then RetireAt(sw, i) else sw;
    SetStream(retired, i, retired.endpoints[i].stream.(replies := []))
  }

  function ClearFrom(sw: Switch, i: nat): Switch
    requires i <= |sw.endpoints|
    decreases |sw.endpoints| - i
  {
    if i == |sw.endpoints| then sw else ClearFrom(ClearAt(sw, i), i + 1)
  }

  function ResetConnections(sw: Switch): Switch {
    ClearFrom(sw, 0).(rejected := [])
  }

  /** Resets endpoint `i` towards the guest when it is live. */
  function ResetAt(sw: Switch, i: nat): Switch
    requires i < |sw.endpoints|
  {
    var s := sw.endpoints[i].stream;
    if s.Live() then RetireAt(SetStream(sw, i, Rst(s, s.guestPort, s.hostPort)), i) else sw
  }

  function ResetFrom(sw: Switch, i: nat): Switch
    requires i <= |sw.endpoints|
    decreases |sw.endpoints| - i
  {
    if i == |sw.endpoints| then sw else ResetFrom(ResetAt(sw, i), i + 1)
  }

  function DisableNetwork(sw: Switch): Switch {
    ResetFrom(sw.(networkEnabled := false), Min(1, |sw.endpoints|))
  }

  function SwitchRequestCredit(sw: Switch, id: ConnectionId): (Switch, Result<bool>) {
    var index := ConnectionIndex(sw, id);
    if index.None? then (sw, Err(UnknownConnection))
    else
      var (s, requested) := RequestCredit(sw.endpoints[index.value].stream);
      (SetStream(sw, index.value, s), Ok(requested))
  }

  function SwitchDeliver(sw: Switch, id: ConnectionId, data: seq<Byte>): (Switch, Result<()>) {
    if |data| > MAX_PACKET_DATA_BYTES then (sw, Err(Backpressure)) else
    var index := ConnectionIndex(sw, id);
    if index.None? then (sw, Err(UnknownConnection))
    else
      var (s, result) := Deliver(sw.endpoints[index.value].stream, data);
      (SetStream(sw, index.value, s), result)
  }

  function SwitchShutdown(sw: Switch, id: ConnectionId): (Switch, Result<()>) {
    var index := ConnectionIndex(sw, id);
    if index.None? then (sw, Err(UnknownConnection))
    else
      var (s, result) := Shutdown(sw.endpoints[index.value].stream);
      (SetStream(sw, index.value, s), result)
  }

  function ResetConnection(sw: Switch, id: ConnectionId): (Switch, Result<()>) {
    var index := EndpointIndex(sw, id.guestPort, id.hostPort);
    if index.None? || sw.endpoints[index.value].number != id.number || !sw.endpoints[index.value].stream.Live()
    then (sw, Err(UnknownConnection))
    else (ResetAt(sw, index.value), Ok(()))
  }

  /** What the host may read of a connection; nothing of one that is not current. */
  function Peek(sw: Switch, id: ConnectionId, maxBytes: nat): seq<Byte> {
    var index := ConnectionIndex(sw, id);
    if index.None? then [] else PeekUpstream(sw.endpoints[index.value].stream, maxBytes)
  }

  function SwitchConsume(sw: Switch, id: ConnectionId, maxBytes: nat): (Switch, Result<()>) {
    var index := ConnectionIndex(sw, id);
    if index.None? then (sw, Err(UnknownConnection))
    else
      var moved := SetStream(sw, index.value, ConsumeUpstream(sw.endpoints[index.value].stream, maxBytes));
      (if moved.endpoints[index.value].stream.conn.None? then RetireAt(moved, index.value) else moved, Ok(()))
  }

  predicate IsReplyCurrent(sw: Switch, r: Stamped) {
    var index := EndpointIndex(sw, r.reply.dstPort, r.reply.srcPort);
    if index.None? then r.number == 0
    else
      var e := sw.endpoints[index.value];
      && e.number == r.number
      && (r.reply.op == OP_RW ==> !(e.stream.conn.Some? && e.stream.conn.value.peerReceiveClosed))
  }

  // ----- The two-level round robin

  predicate CanTake(sw: Switch, i: nat, maxBytes: nat) {
    i < |sw.endpoints| && TakeReply(sw.endpoints[i].stream, maxBytes).1.Some?
  }

  function TakeFrom(sw: Switch, i: nat, maxBytes: nat): (Switch, Option<Stamped>)
    requires i < |sw.endpoints|
  {
    var (s, reply) := TakeReply(sw.endpoints[i].stream, maxBytes);
    (SetStream(sw, i, s), if reply.Some? then Some(Stamped(sw.endpoints[i].number, reply.value)) else None)
  }

  /** The endpoint that the flow scan at `offset` looks at. */
  function FlowAt(sw: Switch, offset: nat): nat
    requires FlowCount(sw) > 0
  {
    FIXED_ENDPOINTS + Mod(sw.nextFlowReply + offset, FlowCount(sw))
  }

  function TakeFlow(sw: Switch, maxBytes: nat, offset: nat): (Switch, Option<Stamped>)
    requires |sw.endpoints| >= FIXED_ENDPOINTS && offset <= FlowCount(sw)
    decreases FlowCount(sw) - offset
  {
    if offset == FlowCount(sw) then (sw, None)
    else if CanTake(sw, FlowAt(sw, offset), maxBytes) then
      var (taken, reply) := TakeFrom(sw, FlowAt(sw, offset), maxBytes);
      (taken.(nextFlowReply := Mod(FlowAt(sw, offset) - FIXED_ENDPOINTS + 1, FlowCount(sw))), reply)
    else TakeFlow(sw, maxBytes, offset + 1)
  }

  function TakeClass(sw: Switch, class_: nat, maxBytes: nat): (Switch, Option<Stamped>)
    requires |sw.endpoints| >= FIXED_ENDPOINTS
  {
    if class_ < FIXED_ENDPOINTS then TakeFrom(sw, class_, maxBytes) else TakeFlow(sw, maxBytes, 0)
  }

  function TakeScan(sw: Switch, maxBytes: nat, offset: nat): (Switch, Option<Stamped>)
    requires |sw.endpoints| >= FIXED_ENDPOINTS && offset <= REPLY_CLASSES
    decreases REPLY_CLASSES - offset
  {
    if offset == REPLY_CLASSES then
      if sw.rejected == [] then (sw, None) else (sw.(rejected := sw.rejected[1..]), Some(sw.rejected[0]))
    else
      var class_ := Mod(sw.nextReply + offset, REPLY_CLASSES);
      var (taken, reply) := TakeClass(sw, class_, maxBytes);
      if reply.Some? then (taken.(nextReply := Mod(class_ + 1, REPLY_CLASSES)), reply)
      else TakeScan(sw, maxBytes, offset + 1)
  }

  function SwitchTake(sw: Switch, maxBytes: nat): (Switch, Option<Stamped>)
    requires |sw.endpoints| >= FIXED_ENDPOINTS
  {
    TakeScan(sw, maxBytes, 0)
  }

  // ----- Runs

  datatype Op =
    | RxOp(h: Header, data: seq<Byte>)
    | ConnectOp(hostPort: nat)
    | ReleaseOp(id: ConnectionId)
    | ResetAllOp
    | DisableNetworkOp
    | RequestCreditOp(id: ConnectionId)
    | DeliverOp(id: ConnectionId, data: seq<Byte>)
    | ShutdownOp(id: ConnectionId)
    | ResetOp(id: ConnectionId)
    | ConsumeOp(id: ConnectionId, maxBytes: nat)
    | TakeOp(maxBytes: nat)

  function Apply(sw: Switch, op: Op): Switch
    requires |sw.endpoints| >= FIXED_ENDPOINTS
  {
    match op
    case RxOp(h, data) => SwitchRx(sw, h, data).0
    case ConnectOp(hostPort) => ConnectPublication(sw, hostPort).0
    case ReleaseOp(id) => RetireConnection(sw, id).0
    case ResetAllOp => ResetConnections(sw)
    case DisableNetworkOp => DisableNetwork(sw)
    case RequestCreditOp(id) => SwitchRequestCredit(sw, id).0
    case DeliverOp(id, data) => SwitchDeliver(sw, id, data).0
    case ShutdownOp(id) => SwitchShutdown(sw, id).0
    case ResetOp(id) => ResetConnection(sw, id).0
    case ConsumeOp(id, maxBytes) => SwitchConsume(sw, id, maxBytes).0
    case TakeOp(maxBytes) => SwitchTake(sw, maxBytes).0
  }
}
