/** The receive side of the queue engine: replies of the switch become packets in guest buffers. */
module ReceiveRing {
  import opened Words
  import opened Modular
  import opened VsockWire
  import opened StreamModel
  import opened StreamInvariant
  import opened SwitchModel
  import opened SwitchInvariant
  import opened Generations
  import opened Fairness
  import opened Downstream

  const MAX_PACKET: nat := VSOCK_HEADER_BYTES + MAX_PACKET_DATA_BYTES

  datatype RxStep = Completed(len: nat) | Retry | Idle

  /** `accepted` and `written` are history: per connection number, the bytes `deliver` accepted and the payload
      bytes of packets that reached the guest. */
  datatype Frontend = Frontend(
    sw: Switch, pending: Option<Stamped>, accepted: map<nat, seq<Byte>>, written: map<nat, seq<Byte>>)

  function History(m: map<nat, seq<Byte>>, number: nat): seq<Byte> {
    if number in m then m[number] else []
  }

  function Extend(m: map<nat, seq<Byte>>, number: nat, data: seq<Byte>): map<nat, seq<Byte>> {
    m[number := History(m, number) + data]
  }

  /** Discards a pending reply whose connection ended, then takes a new one; false means it was stale too. */
  function Refill(f: Frontend): (Frontend, bool)
    requires |f.sw.endpoints| >= FIXED_ENDPOINTS
  {
    if f.pending.Some? && IsReplyCurrent(f.sw, f.pending.value) then (f, true)
    else
      var (sw, reply) := SwitchTake(f.sw, MAX_PACKET);
      if reply.Some? && !IsReplyCurrent(sw, reply.value) then (f.(sw := sw, pending := None), false)
      else (f.(sw := sw, pending := reply), true)
  }

  /** Writes as much of the pending reply as the buffer holds. A failed guest write leaves the reply whole. */
  function WritePending(f: Frontend, capacity: nat, writeOk: bool): (Frontend, RxStep)
    requires f.pending.Some? && VSOCK_HEADER_BYTES <= capacity
  {
    var r := f.pending.value;
    var payload := r.reply.payload;
    if capacity == VSOCK_HEADER_BYTES && payload != [] then (f, Completed(0))
    else
      var take := Min(capacity - VSOCK_HEADER_BYTES, |payload|);
      if !writeOk then (f, Completed(0))
      else
        var rest := payload[take..];
        (f.(pending := if rest == [] then None else Some(r.(reply := r.reply.(payload := rest))),
            written := Extend(f.written, r.number, payload[..take])),
         Completed(VSOCK_HEADER_BYTES + take))
  }

  /** One receive buffer; `buffer` is its capacity when its descriptor chain is usable. */
  function ProcessRx(f: Frontend, buffer: Option<nat>, writeOk: bool): (Frontend, RxStep)
    requires |f.sw.endpoints| >= FIXED_ENDPOINTS
  {
    if buffer.None? || !(VSOCK_HEADER_BYTES <= buffer.value <= MAX_PACKET) then (f, Completed(0))
    else
      var (g, fresh_) := Refill(f);
      if !fresh_ then (g, Retry)
      else if g.pending.None? then (g, Idle)
      else WritePending(g, buffer.value, writeOk)
  }

  /** An operation of the switch, a receive buffer, or a reset of the transport. */
  datatype Step = SwitchStep(op: Op) | BufferStep(buffer: Option<nat>, writeOk: bool) | ResetStep

  /** The queue engine is the only taker of replies. */
  predicate Enabled(step: Step) {
    step.SwitchStep? ==> !step.op.TakeOp?
  }

  function Next(f: Frontend, step: Step): Frontend
    requires |f.sw.endpoints| >= FIXED_ENDPOINTS && Enabled(step)
  {
    match step
    case SwitchStep(op) =>
      var accepts := op.DeliverOp? && SwitchDeliver(f.sw, op.id, op.data).1.Ok?;
      f.(sw := Apply(f.sw, op), accepted := if accepts then Extend(f.accepted, op.id.number, op.data) else f.accepted)
    case BufferStep(buffer, writeOk) => ProcessRx(f, buffer, writeOk).0
    case ResetStep => f.(sw := ResetConnections(f.sw), pending := None)
  }

  // ----- Conservation

  function PendingBytes(pending: Option<Stamped>, number: nat): seq<Byte> {
    if pending.Some? && pending.value.number == number then pending.value.reply.payload else []
  }

  /** Accepted bytes are the written ones, then the rest of the pending reply, then the queued ones. */
  predicate Balanced(f: Frontend, e: Endpoint) {
    OpenReceive(e) ==>
      History(f.accepted, e.number) == History(f.written, e.number) + PendingBytes(f.pending, e.number) + Queued(e)
  }

  /** A pending reply with data belongs to the endpoint between its ports, if any endpoint still bears its number. */
  predicate PendingOk(sw: Switch, pending: Option<Stamped>) {
    && (pending.Some? ==> pending.value.number < sw.next)
    && (pending.Some? && pending.value.reply.payload != [] ==>
          pending.value.reply.op == OP_RW && pending.value.number > 0 &&
          forall i :: 0 <= i < |sw.endpoints| && sw.endpoints[i].number == pending.value.number ==>
            HasPorts(sw.endpoints[i], pending.value.reply.dstPort, pending.value.reply.srcPort))
  }

  predicate HistoryOk(m: map<nat, seq<Byte>>, next: nat) {
    forall n :: n in m ==> n < next
  }

  /** Nothing was accepted under the number of an endpoint without a connection. */
  predicate SilentOk(sw: Switch, accepted: map<nat, seq<Byte>>) {
    forall i :: 0 <= i < |sw.endpoints| && sw.endpoints[i].stream.conn.None? ==> History(accepted, sw.endpoints[i].number) == []
  }

  predicate FrontendOk(f: Frontend) {
    && SwitchOk(f.sw)
    && PendingOk(f.sw, f.pending)
    && HistoryOk(f.accepted, f.sw.next) && HistoryOk(f.written, f.sw.next)
    && SilentOk(f.sw, f.accepted)
    && forall i :: 0 <= i < |f.sw.endpoints| ==> Balanced(f, f.sw.endpoints[i])
  }

  /** A switch step that keeps every queue keeps the balance. */
  lemma QuietStep(f: Frontend, sw: Switch)
    requires FrontendOk(f) && Steps(f.sw, sw) && KeepsQueues(f.sw, sw)
    ensures FrontendOk(f.(sw := sw))
  {
    hide SwitchOk, Queued, SameStream;
    forall j | 0 <= j < |sw.endpoints|
      ensures Balanced(f, sw.endpoints[j])
    {
      var g := sw.endpoints[j];
      assert Inherits(f.sw.endpoints, f.sw.next, g);
      if f.sw.next <= g.number {
        FreshInherits(f.sw, g);
      } else {
        var i :| 0 <= i < |f.sw.endpoints| && Preserves(f.sw.endpoints[i], g);
        assert Balanced(f, f.sw.endpoints[i]);
      }
    }
    PendingSteps(f.sw, sw, f.pending);
    SilentSteps(f.sw, sw, f.accepted);
  }

  /** Connections survive under their number, and new numbers have no history. */
  lemma SilentSteps(sw: Switch, after: Switch, accepted: map<nat, seq<Byte>>)
    requires SilentOk(sw, accepted) && HistoryOk(accepted, sw.next) && Renews(sw, after)
    ensures SilentOk(after, accepted)
  {
    forall j | 0 <= j < |after.endpoints| && after.endpoints[j].stream.conn.None?
      ensures History(accepted, after.endpoints[j].number) == []
    {
      assert Descends(sw.endpoints, sw.next, after.endpoints[j]);
    }
  }

  lemma FreshInherits(sw: Switch, g: Endpoint)
    requires SwitchOk(sw) && Inherits(sw.endpoints, sw.next, g) && sw.next <= g.number
    ensures Queued(g) == []
  {
    forall i | 0 <= i < |sw.endpoints|
      ensures sw.endpoints[i].number < sw.next
    {
      EndpointFacts(sw, i);
    }
  }

  lemma PendingSteps(sw: Switch, after: Switch, pending: Option<Stamped>)
    requires PendingOk(sw, pending) && Renews(sw, after)
    ensures PendingOk(after, pending)
  {
    if pending.Some? && pending.value.reply.payload != [] {
      forall j | 0 <= j < |after.endpoints| && after.endpoints[j].number == pending.value.number
        ensures HasPorts(after.endpoints[j], pending.value.reply.dstPort, pending.value.reply.srcPort)
      {
        assert Descends(sw.endpoints, sw.next, after.endpoints[j]);
      }
    }
  }

  /** Accepted data goes to the back of its own connection's queue. */
  lemma DeliverBalances(f: Frontend, g: Frontend, i: nat, data: seq<Byte>, s: Stream, accepted: bool)
    requires FrontendOk(f) && i < |f.sw.endpoints|
    requires ClosedSame(f.sw.endpoints[i].stream, s)
    requires QueuePayload(s.replies) == Queued(f.sw.endpoints[i]) + (if accepted then data else [])
    requires g == f.(sw := SetStream(f.sw, i, s),
                     accepted := if accepted then Extend(f.accepted, f.sw.endpoints[i].number, data) else f.accepted)
    ensures forall j :: 0 <= j < |g.sw.endpoints| ==> Balanced(g, g.sw.endpoints[j])
  {
    hide SwitchOk, QueuePayload;
    forall j | 0 <= j < |g.sw.endpoints|
      ensures Balanced(g, g.sw.endpoints[j])
    {
      assert Balanced(f, f.sw.endpoints[j]);
      if f.sw.endpoints[j].number == f.sw.endpoints[i].number { SameNumberSameIndex(f.sw, i, j); }
    }
  }

  lemma DeliverSilent(f: Frontend, g: Frontend, i: nat, data: seq<Byte>, s: Stream, accepted: bool)
    requires SwitchOk(f.sw) && SilentOk(f.sw, f.accepted) && i < |f.sw.endpoints| && s.conn.Some?
    requires g == f.(sw := SetStream(f.sw, i, s),
                     accepted := if accepted then Extend(f.accepted, f.sw.endpoints[i].number, data) else f.accepted)
    ensures SilentOk(g.sw, g.accepted)
  {
    hide SwitchOk;
    forall j | 0 <= j < |g.sw.endpoints| && g.sw.endpoints[j].stream.conn.None?
      ensures History(g.accepted, g.sw.endpoints[j].number) == []
    {
      if f.sw.endpoints[j].number == f.sw.endpoints[i].number { SameNumberSameIndex(f.sw, i, j); }
    }
  }

  lemma DeliverStep(f: Frontend, id: ConnectionId, data: seq<Byte>)
    requires FrontendOk(f) && |f.sw.endpoints| >= FIXED_ENDPOINTS
    ensures FrontendOk(Next(f, SwitchStep(DeliverOp(id, data))))
  {
    hide StreamOk, Deliver, SwitchOk, Balanced, QueuePayload, Keeps;
    var g := Next(f, SwitchStep(DeliverOp(id, data)));
    ConnectionSteps(f.sw, id, data, 0);
    PendingSteps(f.sw, g.sw, f.pending);
    SilentSteps(f.sw, g.sw, f.accepted);
    var index := ConnectionIndex(f.sw, id);
    if |data| <= MAX_PACKET_DATA_BYTES && index.Some? {
      var i := index.value;
      var e := f.sw.endpoints[i];
      LiveNotRetiring(f.sw, i);
      EndpointFacts(f.sw, i);
      DeliverKeeps(e.stream, data);
      OtherPayload(e.stream, data);
      var (s, result) := Deliver(e.stream, data);
      assert g.sw == SwitchDeliver(f.sw, id, data).0;
      DeliverBalances(f, g, i, data, s, result.Ok?);
      DeliverSilent(f, g, i, data, s, result.Ok?);
    } else {
      assert g == f;
    }
  }

  // ----- Taking a reply

  /** A taken reply is the head of one endpoint's queue, or a rejection without payload. */
  lemma {:induction false} TakeFlowSource(sw: Switch, maxBytes: nat, offset: nat) returns (i: nat)
    requires |sw.endpoints| >= FIXED_ENDPOINTS && offset <= FlowCount(sw)
    requires TakeFlow(sw, maxBytes, offset).1.Some?
    ensures i < |sw.endpoints| && Serves(sw, i, TakeFlow(sw, maxBytes, offset).0, TakeFlow(sw, maxBytes, offset).1)
    decreases FlowCount(sw) - offset
  {
    hide TakeReply, Mod;
    if CanTake(sw, FlowAt(sw, offset), maxBytes) {
      i := FlowAt(sw, offset);
      TakeFromServes(sw, i, maxBytes);
    } else {
      i := TakeFlowSource(sw, maxBytes, offset + 1);
    }
  }

  lemma {:induction false} TakeScanSource(sw: Switch, maxBytes: nat, offset: nat) returns (i: Option<nat>)
    requires |sw.endpoints| >= FIXED_ENDPOINTS && offset <= REPLY_CLASSES
    requires TakeScan(sw, maxBytes, offset).1.Some?
    ensures var (after, reply) := TakeScan(sw, maxBytes, offset);
            if i.Some? then i.value < |sw.endpoints| && Serves(sw, i.value, after, reply)
            else sw.rejected != [] && reply.value == sw.rejected[0] && after.endpoints == sw.endpoints
    decreases REPLY_CLASSES - offset
  {
    hide TakeFlow, TakeReply, Serves, Mod;
    if offset == REPLY_CLASSES {
      i := None;
    } else {
      var class_ := Mod(sw.nextReply + offset, REPLY_CLASSES);
      var (taken, reply) := TakeClass(sw, class_, maxBytes);
      if reply.None? {
        i := TakeScanSource(sw, maxBytes, offset + 1);
      } else {
        var source := class_;
        if class_ < FIXED_ENDPOINTS {
          TakeFromServes(sw, class_, maxBytes);
        } else {
          source := TakeFlowSource(sw, maxBytes, 0);
        }
        i := Some(source);
        SameCursorsServe(sw, source, taken, TakeScan(sw, maxBytes, offset).0, reply);
      }
    }
  }

  /** The ports of a pending reply lead back to the endpoint that bears its number. */
  lemma PendingFindsEndpoint(sw: Switch, r: Stamped, i: nat)
    requires SwitchOk(sw) && PendingOk(sw, Some(r)) && r.reply.payload != []
    requires i < |sw.endpoints| && sw.endpoints[i].number == r.number
    ensures EndpointIndex(sw, r.reply.dstPort, r.reply.srcPort) == Some(i)
  {
    hide SwitchOk;
    assert HasPorts(sw.endpoints[i], r.reply.dstPort, r.reply.srcPort);
    var index := EndpointIndex(sw, r.reply.dstPort, r.reply.srcPort);
    SamePortsSameIndex(sw, index.value, i);
  }

  /** A stale pending reply holds no bytes of a connection that still receives. */
  lemma StaleCarriesNothing(f: Frontend)
    requires FrontendOk(f) && (f.pending.Some? ==> !IsReplyCurrent(f.sw, f.pending.value))
    ensures FrontendOk(f.(pending := None))
  {
    hide SwitchOk, Queued;
    var g := f.(pending := None);
    forall i | 0 <= i < |g.sw.endpoints|
      ensures Balanced(g, g.sw.endpoints[i])
    {
      assert Balanced(f, f.sw.endpoints[i]);
      if PendingBytes(f.pending, f.sw.endpoints[i].number) != [] {
        PendingFindsEndpoint(f.sw, f.pending.value, i);
      }
    }
  }

  /** Queued replies go between the ports of their endpoint. */
  lemma HeadPorts(sw: Switch, i: nat)
    requires SwitchOk(sw) && i < |sw.endpoints| && sw.endpoints[i].stream.replies != []
    ensures var head := sw.endpoints[i].stream.replies[0];
            && HasPorts(sw.endpoints[i], head.dstPort, head.srcPort) && 0 < sw.endpoints[i].number < sw.next
            && (head.payload != [] ==> head.op == OP_RW)
  {
    hide SwitchOk;
    EndpointFacts(sw, i);
    var s := sw.endpoints[i].stream;
    assert ReplyOk(s.guestPort, s.hostPort, s.rxAlloc, s.replies[0]);
  }

  /** The head of a served queue moves into the pending reply. */
  lemma ServedBalances(f: Frontend, g: Frontend, i: nat, reply: Option<Stamped>)
    requires FrontendOk(f) && f.pending.None? && i < |f.sw.endpoints| && Serves(f.sw, i, g.sw, reply)
    requires g == f.(sw := g.sw, pending := reply) && SwitchOk(g.sw) && g.sw.next == f.sw.next
    requires SilentOk(g.sw, g.accepted)
    ensures FrontendOk(g)
  {
    hide SwitchOk, SilentOk;
    HeadPorts(f.sw, i);
    var e := f.sw.endpoints[i];
    forall j | 0 <= j < |g.sw.endpoints|
      ensures Balanced(g, g.sw.endpoints[j])
      ensures g.sw.endpoints[j].number == e.number ==> j == i
    {
      assert Balanced(f, f.sw.endpoints[j]);
      if f.sw.endpoints[j].number == e.number { SameNumberSameIndex(f.sw, i, j); }
    }
  }

  lemma RejectionBalances(f: Frontend, g: Frontend, reply: Option<Stamped>)
    requires FrontendOk(f) && f.pending.None? && f.sw.rejected != [] && reply == Some(f.sw.rejected[0])
    requires g == f.(sw := g.sw, pending := reply) && SwitchOk(g.sw) && g.sw.endpoints == f.sw.endpoints && g.sw.next == f.sw.next
    requires SilentOk(g.sw, g.accepted)
    ensures FrontendOk(g)
  {
    assert RejectedOk(f.sw.rejected, f.sw.next);
    hide SwitchOk, Queued, EndpointsOk, SilentOk;
    forall j | 0 <= j < |g.sw.endpoints|
      ensures Balanced(g, g.sw.endpoints[j])
    {
      assert Balanced(f, f.sw.endpoints[j]);
    }
  }

  lemma {:induction false} TakeKeepsNext(sw: Switch, maxBytes: nat, offset: nat)
    requires |sw.endpoints| >= FIXED_ENDPOINTS && offset <= REPLY_CLASSES
    ensures TakeScan(sw, maxBytes, offset).0.next == sw.next
    decreases REPLY_CLASSES - offset
  {
    hide TakeReply, Mod;
    if offset < REPLY_CLASSES {
      FlowTakeKeepsNext(sw, maxBytes, 0);
      TakeKeepsNext(sw, maxBytes, offset + 1);
    }
  }

  lemma {:induction false} FlowTakeKeepsNext(sw: Switch, maxBytes: nat, offset: nat)
    requires |sw.endpoints| >= FIXED_ENDPOINTS && offset <= FlowCount(sw)
    ensures TakeFlow(sw, maxBytes, offset).0.next == sw.next
    decreases FlowCount(sw) - offset
  {
    hide TakeReply, Mod;
    if offset < FlowCount(sw) { FlowTakeKeepsNext(sw, maxBytes, offset + 1); }
  }

  lemma {:induction false} TakeNothing(sw: Switch, maxBytes: nat, offset: nat)
    requires |sw.endpoints| >= FIXED_ENDPOINTS && offset <= REPLY_CLASSES
    ensures TakeScan(sw, maxBytes, offset).1.None? ==> TakeScan(sw, maxBytes, offset).0 == sw
    decreases REPLY_CLASSES - offset
  {
    hide TakeFlow, TakeFrom, Mod;
    if offset < REPLY_CLASSES { TakeNothing(sw, maxBytes, offset + 1); }
  }

  /** Taking with nothing pending keeps the balance: queued bytes become pending bytes. */
  lemma TakeStep(f: Frontend)
    requires FrontendOk(f) && f.pending.None? && |f.sw.endpoints| >= FIXED_ENDPOINTS
    ensures var (sw, reply) := SwitchTake(f.sw, MAX_PACKET);
            FrontendOk(f.(sw := sw, pending := reply))
  {
    hide SwitchOk, TakeScan, Renews, Balanced, Serves, SilentOk;
    var (sw, reply) := SwitchTake(f.sw, MAX_PACKET);
    TakeScanSteps(f.sw, MAX_PACKET, 0);
    TakeKeepsNext(f.sw, MAX_PACKET, 0);
    SilentSteps(f.sw, sw, f.accepted);
    if reply.None? {
      TakeNothing(f.sw, MAX_PACKET, 0);
    } else {
      var i := TakeScanSource(f.sw, MAX_PACKET, 0);
      if i.Some? {
        ServedBalances(f, f.(sw := sw, pending := reply), i.value, reply);
      } else {
        RejectionBalances(f, f.(sw := sw, pending := reply), reply);
      }
    }
  }

  lemma RefillStep(f: Frontend)
    requires FrontendOk(f) && |f.sw.endpoints| >= FIXED_ENDPOINTS
    ensures FrontendOk(Refill(f).0)
  {
    hide FrontendOk, IsReplyCurrent, TakeScan;
    if !(f.pending.Some? && IsReplyCurrent(f.sw, f.pending.value)) {
      StaleCarriesNothing(f);
      var empty := f.(pending := None);
      TakeStep(empty);
      var (sw, reply) := SwitchTake(f.sw, MAX_PACKET);
      var taken := empty.(sw := sw, pending := reply);
      assert taken == f.(sw := sw, pending := reply);
      if reply.Some? && !IsReplyCurrent(sw, reply.value) { StaleCarriesNothing(taken); }
    }
  }

  /** Writing moves a prefix of the pending payload to the guest, and a failed write moves nothing. */
  lemma WriteStep(f: Frontend, capacity: nat, writeOk: bool)
    requires FrontendOk(f) && f.pending.Some? && VSOCK_HEADER_BYTES <= capacity
    ensures FrontendOk(WritePending(f, capacity, writeOk).0)
  {
    hide SwitchOk, Queued;
    var g := WritePending(f, capacity, writeOk).0;
    var payload := f.pending.value.reply.payload;
    var take := Min(capacity - VSOCK_HEADER_BYTES, |payload|);
    assert payload == payload[..take] + payload[take..];
    forall i | 0 <= i < |g.sw.endpoints|
      ensures Balanced(g, g.sw.endpoints[i])
    {
      assert Balanced(f, f.sw.endpoints[i]);
      var written := History(f.written, f.sw.endpoints[i].number);
      assert written + payload + Queued(f.sw.endpoints[i]) == (written + payload[..take]) + payload[take..] + Queued(f.sw.endpoints[i]);
    }
  }

  /** After a reset no endpoint is connected, so nothing was accepted under the numbers in use. */
  lemma {:induction false} ClearedAreSilent(sw: Switch, i: nat, j: nat)
    requires SwitchOk(sw) && i <= |sw.endpoints| && j < |sw.endpoints|
    requires j < i ==> sw.endpoints[j].stream.conn.None? && sw.endpoints[j].stream.replies == []
    ensures |ClearFrom(sw, i).endpoints| == |sw.endpoints|
    ensures var e := ClearFrom(sw, i).endpoints[j];
            e.stream.conn.None? && e.stream.replies == []
    decreases |sw.endpoints| - i
  {
    hide SwitchOk, ClearAt;
    if i < |sw.endpoints| {
      ClearAtSteps(sw, i);
      ClearedAt(sw, i);
      ClearedAreSilent(ClearAt(sw, i), i + 1, j);
    }
  }

  lemma ClearedAt(sw: Switch, i: nat)
    requires i < |sw.endpoints|
    ensures |ClearAt(sw, i).endpoints| == |sw.endpoints|
    ensures forall j :: 0 <= j < |sw.endpoints| && j != i ==> ClearAt(sw, i).endpoints[j] == sw.endpoints[j]
    ensures var e := ClearAt(sw, i).endpoints[i];
            e.stream.conn.None? && e.stream.replies == []
  {
  }

  /** An endpoint that is not connected after a step has no history. */
  lemma UnconnectedIsSilent(f: Frontend, e: Endpoint)
    requires FrontendOk(f) && Descends(f.sw.endpoints, f.sw.next, e) && e.stream.conn.None?
    ensures History(f.accepted, e.number) == [] && History(f.written, e.number) == []
  {
    hide SwitchOk, Queued, SameStream;
    if e.number < f.sw.next {
      var i :| 0 <= i < |f.sw.endpoints| && SameConnection(f.sw.endpoints[i], e);
      assert Balanced(f, f.sw.endpoints[i]);
    }
  }

  lemma ResetKeeps(f: Frontend)
    requires FrontendOk(f)
    ensures FrontendOk(f.(sw := ResetConnections(f.sw), pending := None))
  {
    hide SwitchOk, ClearFrom, QueuePayload;
    var g := f.(sw := ResetConnections(f.sw), pending := None);
    ResetConnectionsSteps(f.sw);
    SilentSteps(f.sw, g.sw, f.accepted);
    NothingLeft(f.sw);
    forall j | 0 <= j < |g.sw.endpoints|
      ensures Balanced(g, g.sw.endpoints[j])
    {
      var e := g.sw.endpoints[j];
      assert Descends(f.sw.endpoints, f.sw.next, e);
      UnconnectedIsSilent(f, e);
      NoDataNoPayload(e.stream.replies);
    }
  }

  lemma NothingLeft(sw: Switch)
    requires SwitchOk(sw)
    ensures forall j :: 0 <= j < |ResetConnections(sw).endpoints| ==>
              var s := ResetConnections(sw).endpoints[j].stream;
              s.conn.None? && s.replies == []
  {
    assert |sw.endpoints| >= FIXED_ENDPOINTS;
    hide SwitchOk, ClearFrom;
    ClearedAreSilent(sw, 0, 0);
    forall j | 0 <= j < |ResetConnections(sw).endpoints|
      ensures var s := ResetConnections(sw).endpoints[j].stream;
              s.conn.None? && s.replies == []
    {
      ClearedAreSilent(sw, 0, j);
    }
  }

  lemma StepKeeps(f: Frontend, step: Step)
    requires FrontendOk(f) && |f.sw.endpoints| >= FIXED_ENDPOINTS && Enabled(step)
    ensures FrontendOk(Next(f, step))
  {
    hide FrontendOk, Apply, Refill, WritePending, SwitchDeliver;
    match step
    case SwitchStep(op) =>
      if op.DeliverOp? {
        DeliverStep(f, op.id, op.data);
      } else {
        ApplySteps(f.sw, op) by { assert SwitchOk(f.sw) by { FrontendParts(f); } }
        ApplyKeepsQueues(f.sw, op) by { FrontendParts(f); }
        QuietStep(f, Apply(f.sw, op));
      }
    case BufferStep(buffer, writeOk) =>
      RefillStep(f);
      var g := Refill(f).0;
      if buffer.Some? && VSOCK_HEADER_BYTES <= buffer.value && g.pending.Some? {
        WriteStep(g, buffer.value, writeOk);
      }
    case ResetStep => ResetKeeps(f);
  }

  lemma FrontendParts(f: Frontend)
    requires FrontendOk(f)
    ensures SwitchOk(f.sw) && |f.sw.endpoints| >= FIXED_ENDPOINTS
  {
  }

  // ----- Whole runs

  function NewFrontend(networkEnabled: bool, capacity: nat): Frontend {
    Frontend(NewSwitch(networkEnabled, capacity), None, map[], map[])
  }

  function RunSteps(f: Frontend, steps: seq<Step>): Frontend
    requires forall k :: 0 <= k < |steps| ==> Enabled(steps[k])
    decreases |steps|
  {
    if steps == [] || |f.sw.endpoints| < FIXED_ENDPOINTS then f else RunSteps(Next(f, steps[0]), steps[1..])
  }

  lemma {:induction false} RunKeeps(f: Frontend, steps: seq<Step>)
    requires FrontendOk(f) && forall k :: 0 <= k < |steps| ==> Enabled(steps[k])
    ensures FrontendOk(RunSteps(f, steps))
    decreases |steps|
  {
    hide FrontendOk, Next;
    if steps != [] {
      FrontendParts(f);
      StepKeeps(f, steps[0]);
      RunKeeps(Next(f, steps[0]), steps[1..]);
    }
  }

  lemma NewFrontendOk(networkEnabled: bool, capacity: nat)
    ensures FrontendOk(NewFrontend(networkEnabled, capacity))
  {
    NewSwitchOk(networkEnabled, capacity);
  }

  /** In every run, of any switch operations between any receive buffers, with guest writes failing at will: what
      `deliver` accepted for a connection whose guest still receives is what the guest got, then the rest of the
      pending reply, then the queued replies, byte for byte. */
  lemma DownstreamIsConserved(networkEnabled: bool, capacity: nat, steps: seq<Step>, i: nat)
    requires forall k :: 0 <= k < |steps| ==> Enabled(steps[k])
    ensures var f := RunSteps(NewFrontend(networkEnabled, capacity), steps);
            i < |f.sw.endpoints| && OpenReceive(f.sw.endpoints[i]) ==>
              var e := f.sw.endpoints[i];
              History(f.accepted, e.number) == History(f.written, e.number) + PendingBytes(f.pending, e.number) + Queued(e)
  {
    hide SwitchOk, PendingOk, HistoryOk;
    NewFrontendOk(networkEnabled, capacity);
    RunKeeps(NewFrontend(networkEnabled, capacity), steps);
    var f := RunSteps(NewFrontend(networkEnabled, capacity), steps);
    if i < |f.sw.endpoints| { assert Balanced(f, f.sw.endpoints[i]); }
  }

  // ----- Progress

  lemma {:induction false} NoneTakenNoneRejected(sw: Switch, maxBytes: nat, offset: nat)
    requires |sw.endpoints| >= FIXED_ENDPOINTS && offset <= REPLY_CLASSES && TakeScan(sw, maxBytes, offset).1.None?
    ensures sw.rejected == []
    decreases REPLY_CLASSES - offset
  {
    hide TakeFlow, TakeFrom, Mod;
    if offset < REPLY_CLASSES { NoneTakenNoneRejected(sw, maxBytes, offset + 1); }
  }

  lemma QueuedIsTakeable(sw: Switch, i: nat)
    requires SwitchOk(sw) && i < |sw.endpoints| && sw.endpoints[i].stream.replies != []
    ensures CanTake(sw, i, MAX_PACKET)
  {
    hide SwitchOk;
    EndpointFacts(sw, i);
    var s := sw.endpoints[i].stream;
    assert ReplyOk(s.guestPort, s.hostPort, s.rxAlloc, s.replies[0]);
  }

  /** A usable buffer finds nothing to send only when nothing is pending, queued or rejected anywhere. */
  lemma IdleMeansEmpty(f: Frontend, buffer: Option<nat>, writeOk: bool)
    requires FrontendOk(f) && |f.sw.endpoints| >= FIXED_ENDPOINTS && ProcessRx(f, buffer, writeOk).1.Idle?
    ensures var g := ProcessRx(f, buffer, writeOk).0;
            && g.pending.None? && g.sw == f.sw && f.sw.rejected == []
            && forall i :: 0 <= i < |f.sw.endpoints| ==> f.sw.endpoints[i].stream.replies == []
  {
    hide SwitchOk, TakeScan, IsReplyCurrent, Mod;
    NoneTakenNoneRejected(f.sw, MAX_PACKET, 0);
    TakeNothing(f.sw, MAX_PACKET, 0);
    forall i | 0 <= i < |f.sw.endpoints|
      ensures f.sw.endpoints[i].stream.replies == []
    {
      if f.sw.endpoints[i].stream.replies != [] {
        QueuedIsTakeable(f.sw, i);
        TakeScanProgress(f.sw, MAX_PACKET, 0, i);
      }
    }
  }

  /** How many buffers with so much room a payload takes. */
  function Buffers(len: nat, room: nat): nat
    requires room > 0
    decreases len
  {
    if len <= room then 1 else 1 + Buffers(len - room, room)
  }

  function Repeat(step: Step, n: nat): (steps: seq<Step>)
    ensures |steps| == n && forall k :: 0 <= k < n ==> steps[k] == step
  {
    if n == 0 then [] else [step] + Repeat(step, n - 1)
  }

  /** A current pending reply reaches the guest whole in exactly as many buffers as its payload needs, however small. */
  lemma {:induction false} PendingDrains(f: Frontend, capacity: nat)
    requires |f.sw.endpoints| >= FIXED_ENDPOINTS && f.pending.Some? && IsReplyCurrent(f.sw, f.pending.value)
    requires VSOCK_HEADER_BYTES < capacity <= MAX_PACKET
    ensures var r := f.pending.value; var n := Buffers(|r.reply.payload|, capacity - VSOCK_HEADER_BYTES);
            var g := RunSteps(f, Repeat(BufferStep(Some(capacity), true), n));
            && g.pending.None? && g.sw == f.sw && g.accepted == f.accepted
            && History(g.written, r.number) == History(f.written, r.number) + r.reply.payload
            && forall m :: m != r.number ==> History(g.written, m) == History(f.written, m)
    decreases |f.pending.value.reply.payload|
  {
    hide IsReplyCurrent, Next, History;
    var r, room := f.pending.value, capacity - VSOCK_HEADER_BYTES;
    var payload := r.reply.payload;
    var step := BufferStep(Some(capacity), true);
    var n := Buffers(|payload|, room);
    var g := Next(f, step);
    var take := Min(room, |payload|);
    OneBuffer(f, capacity);
    assert Repeat(step, n)[1..] == Repeat(step, n - 1);
    assert RunSteps(f, Repeat(step, n)) == RunSteps(g, Repeat(step, n - 1));
    assert payload == payload[..take] + payload[take..];
    if |payload| > room {
      PendingDrains(g, capacity);
      var before := History(f.written, r.number);
      assert (before + payload[..take]) + payload[take..] == before + payload;
    } else {
      assert payload[..take] == payload;
    }
  }

  lemma OneBuffer(f: Frontend, capacity: nat)
    requires |f.sw.endpoints| >= FIXED_ENDPOINTS && f.pending.Some? && IsReplyCurrent(f.sw, f.pending.value)
    requires VSOCK_HEADER_BYTES < capacity <= MAX_PACKET
    ensures var r := f.pending.value; var take := Min(capacity - VSOCK_HEADER_BYTES, |r.reply.payload|);
            var g := Next(f, BufferStep(Some(capacity), true)); var rest := r.reply.payload[take..];
            && g.sw == f.sw && g.accepted == f.accepted
            && g.pending == (if rest == [] then None else Some(r.(reply := r.reply.(payload := rest))))
            && (rest != [] ==> IsReplyCurrent(g.sw, g.pending.value))
            && History(g.written, r.number) == History(f.written, r.number) + r.reply.payload[..take]
            && forall m :: m != r.number ==> History(g.written, m) == History(f.written, m)
  {
    hide TakeScan;
  }

  // ----- Who gets data

  /** Bytes are written only for a connection that an endpoint holds and whose guest still receives. */
  lemma WritesOnlyToReceivers(f: Frontend, buffer: Option<nat>, writeOk: bool, number: nat)
    requires FrontendOk(f) && |f.sw.endpoints| >= FIXED_ENDPOINTS
    requires History(Next(f, BufferStep(buffer, writeOk)).written, number) != History(f.written, number)
    ensures var sw := Next(f, BufferStep(buffer, writeOk)).sw;
            exists i :: 0 <= i < |sw.endpoints| && sw.endpoints[i].number == number && sw.endpoints[i].stream.conn.Some? && OpenReceive(sw.endpoints[i])
  {
    hide SwitchOk, TakeScan, Queued, HistoryOk;
    RefillStep(f);
    RefillWrites(f);
    var g := Refill(f).0;
    var r := g.pending.value;
    assert r.number == number && r.reply.payload != [];
    RefillCurrent(f);
    var index := EndpointIndex(g.sw, r.reply.dstPort, r.reply.srcPort);
    var e := g.sw.endpoints[index.value];
    assert e.number == number && OpenReceive(e);
    assert Balanced(g, e);
  }

  lemma RefillWrites(f: Frontend)
    requires |f.sw.endpoints| >= FIXED_ENDPOINTS
    ensures Refill(f).0.written == f.written && Refill(f).0.accepted == f.accepted
  {
    hide TakeScan;
  }

  lemma RefillCurrent(f: Frontend)
    requires |f.sw.endpoints| >= FIXED_ENDPOINTS && Refill(f).0.pending.Some?
    ensures IsReplyCurrent(Refill(f).0.sw, Refill(f).0.pending.value)
  {
    hide TakeScan, IsReplyCurrent;
  }

  // ----- Connections that ended

  /** No step writes bytes of a number that no endpoint bears. */
  lemma GoneGetsNothing(f: Frontend, step: Step, number: nat)
    requires SwitchOk(f.sw) && |f.sw.endpoints| >= FIXED_ENDPOINTS && Enabled(step) && Gone(f.sw, number) && number != 0
    ensures var g := Next(f, step);
            SwitchOk(g.sw) && |g.sw.endpoints| >= FIXED_ENDPOINTS && Gone(g.sw, number) && History(g.written, number) == History(f.written, number)
  {
    hide SwitchOk, Gone, Apply, SwitchDeliver, TakeScan, IsReplyCurrent, ClearFrom;
    match step
    case SwitchStep(op) =>
      ApplySteps(f.sw, op);
      GoneStays(f.sw, Apply(f.sw, op), number);
      EnoughEndpoints(Apply(f.sw, op));
    case ResetStep =>
      ResetConnectionsSteps(f.sw);
      GoneStays(f.sw, ResetConnections(f.sw), number);
      EnoughEndpoints(ResetConnections(f.sw));
    case BufferStep(buffer, writeOk) =>
      TakeScanSteps(f.sw, MAX_PACKET, 0);
      var taken := SwitchTake(f.sw, MAX_PACKET).0;
      GoneStays(f.sw, taken, number);
      EnoughEndpoints(taken);
      var g := Refill(f).0;
      if g.pending.Some? && g.pending.value.number == number { GoneIsStale(g.sw, g.pending.value); }
  }

  lemma EnoughEndpoints(sw: Switch)
    requires SwitchOk(sw)
    ensures |sw.endpoints| >= FIXED_ENDPOINTS
  {
  }

  lemma GoneIsStale(sw: Switch, r: Stamped)
    requires Gone(sw, r.number) && r.number != 0
    ensures !IsReplyCurrent(sw, r)
  {
  }

  /** After a connection ended, not one more byte of it reaches the guest, whatever follows. */
  lemma {:induction false} EndedGetsNothing(f: Frontend, steps: seq<Step>, number: nat)
    requires SwitchOk(f.sw) && Gone(f.sw, number) && number != 0 && forall k :: 0 <= k < |steps| ==> Enabled(steps[k])
    ensures History(RunSteps(f, steps).written, number) == History(f.written, number)
    decreases |steps|
  {
    hide SwitchOk, Gone, Next, History;
    if steps != [] && |f.sw.endpoints| >= FIXED_ENDPOINTS {
      GoneGetsNothing(f, steps[0], number);
      EndedGetsNothing(Next(f, steps[0]), steps[1..], number);
    }
  }
}
