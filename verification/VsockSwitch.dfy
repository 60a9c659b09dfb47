/** The switch itself: endpoints over in-place stream connections, proved to move the model as the specification does. */
module VsockSwitch {
  import opened Words
  import opened Modular
  import opened VsockWire
  import opened StreamModel
  import opened StreamInvariant
  import opened Streams = StreamConnection
  import opened SwitchModel
  import opened SwitchInvariant
  import opened Generations

  /** The source's `Endpoint`, whose stream is an object updated in place. */
  datatype Cell = Cell(role: Role, stream: Streams.StreamConnection, number: nat, retiring: Option<nat>)

  ghost predicate CellIs(c: Cell, e: Endpoint)
    reads c.stream
  {
    && c.role == e.role && c.number == e.number && c.retiring == e.retiring
    && c.stream.Valid() && c.stream.model == e.stream
  }

  function StreamsOf(cells: seq<Cell>): set<Streams.StreamConnection> {
    set i | 0 <= i < |cells| :: cells[i].stream
  }

  lemma SameStreams(cells: seq<Cell>, i: nat, c: Cell)
    requires i < |cells| && c.stream == cells[i].stream
    ensures StreamsOf(cells[i := c]) == StreamsOf(cells)
  {
    var after := cells[i := c];
    forall k | 0 <= k < |cells|
      ensures after[k].stream == cells[k].stream
    {
    }
    forall s | s in StreamsOf(cells)
      ensures s in StreamsOf(after)
    {
      var k :| 0 <= k < |cells| && cells[k].stream == s;
      assert after[k].stream == s;
    }
  }

  lemma RemainingStreams(cells: seq<Cell>, i: nat)
    requires i < |cells|
    ensures StreamsOf(cells[..i] + cells[i + 1..]) <= StreamsOf(cells)
  {
    var after := cells[..i] + cells[i + 1..];
    forall k | 0 <= k < |after|
      ensures after[k].stream in StreamsOf(cells)
    {
      assert after[k] == cells[if k < i then k else k + 1];
    }
  }

  ghost predicate Separate(cells: seq<Cell>) {
    forall i, j :: 0 <= i < j < |cells| ==> cells[i].stream != cells[j].stream
  }

  ghost predicate CellsAre(cells: seq<Cell>, endpoints: seq<Endpoint>)
    reads StreamsOf(cells)
  {
    && |cells| == |endpoints|
    && Separate(cells)
    && forall i :: 0 <= i < |cells| ==> CellIs(cells[i], endpoints[i])
  }

  function StampedPacket(r: Stamped): Packet {
    Wire(r.reply).(connectionNumber := r.number)
  }

  function StampAll(rejected: seq<Stamped>): seq<Packet> {
    seq(|rejected|, i requires 0 <= i < |rejected| => StampedPacket(rejected[i]))
  }

  /** `VecDeque::retain` on the rejections. */
  function ForgivePackets(packets: seq<Packet>, guestPort: nat, hostPort: nat): seq<Packet> {
    if packets == [] then []
    else (if packets[0].header.dstPort != guestPort || packets[0].header.srcPort != hostPort then [packets[0]] else [])
         + ForgivePackets(packets[1..], guestPort, hostPort)
  }

  lemma {:induction false} StampForgive(rejected: seq<Stamped>, guestPort: nat, hostPort: nat)
    ensures ForgivePackets(StampAll(rejected), guestPort, hostPort) == StampAll(Forgive(rejected, guestPort, hostPort))
  {
    if rejected != [] {
      StampForgive(rejected[1..], guestPort, hostPort);
      assert StampAll(rejected)[1..] == StampAll(rejected[1..]);
    }
  }

  /** The packet is the stamped reply, except for a length field that writing it replaces. */
  predicate StandsFor(packet: Packet, reply: Stamped) {
    packet == StampedPacket(reply).(header := StampedPacket(reply).header.(len := packet.header.len))
  }

  function PacketOf(reply: Option<Stamped>): Option<Packet> {
    if reply.Some? then Some(StampedPacket(reply.value)) else None
  }

  /** One step of the scan over the flows. */
  lemma FlowScan(sw: Switch, maxBytes: nat, offset: nat)
    requires |sw.endpoints| >= FIXED_ENDPOINTS && offset < FlowCount(sw)
    ensures var index := FIXED_ENDPOINTS + Mod(sw.nextFlowReply + offset, FlowCount(sw));
            var (taken, reply) := TakeFrom(sw, index, maxBytes);
            && TakeFlow(sw, maxBytes, offset) ==
                 (if reply.Some? then (taken.(nextFlowReply := Mod(index - FIXED_ENDPOINTS + 1, FlowCount(sw))), reply)
                  else TakeFlow(sw, maxBytes, offset + 1))
  {
    hide StreamModel.TakeReply, Mod;
  }

  lemma FlowScanEnds(sw: Switch, maxBytes: nat)
    requires |sw.endpoints| >= FIXED_ENDPOINTS
    ensures TakeFlow(sw, maxBytes, FlowCount(sw)) == (sw, None)
  {
  }

  class VsockSwitch {
    var endpoints: seq<Cell>
    var nextConnectionNumber: nat
    var networkEnabled: bool
    var networkSocketCapacity: nat
    var nextReply: nat
    var nextFlowReply: nat
    var rejected: seq<Packet>
    ghost var model: Switch

    ghost predicate Matches()
      reads this, StreamsOf(endpoints)
    {
      && CellsAre(endpoints, model.endpoints)
      && nextConnectionNumber == model.next
      && networkEnabled == model.networkEnabled && networkSocketCapacity == model.capacity
      && nextReply == model.nextReply && nextFlowReply == model.nextFlowReply
      && rejected == StampAll(model.rejected)
    }

    ghost predicate Valid()
      reads this, StreamsOf(endpoints)
    {
      Matches() && SwitchOk(model)
    }

    constructor (networkEnabled: bool, networkSocketCapacity: nat)
      ensures Valid() && fresh(StreamsOf(endpoints))
      ensures model == NewSwitch(networkEnabled, networkSocketCapacity)
    {
      var agent := new Streams.StreamConnection(AGENT_PORT, AGENT_PORT, AGENT_UPSTREAM_BYTES, AGENT_REPLY_BYTES);
      var control := new Streams.StreamConnection(CONTROL_PORT, CONTROL_PORT, CONTROL_UPSTREAM_BYTES, CONTROL_REPLY_BYTES);
      endpoints := [Cell(Agent, agent, 1, None), Cell(Control, control, 2, None)];
      nextConnectionNumber := 3;
      this.networkEnabled := networkEnabled;
      this.networkSocketCapacity := Min(networkSocketCapacity, MAX_NETWORK_SOCKETS);
      nextReply, nextFlowReply, rejected := 0, 0, [];
      model := NewSwitch(networkEnabled, networkSocketCapacity);
      NewSwitchOk(networkEnabled, networkSocketCapacity);
    }

    method EndpointIndex(guestPort: nat, hostPort: nat) returns (index: Option<nat>)
      requires Matches()
      ensures index == SwitchModel.EndpointIndex(model, guestPort, hostPort)
    {
      hide StreamOk, WireAll, WireConn, QueuePayload;
      for i := 0 to |endpoints|
        invariant IndexFrom(model.endpoints, guestPort, hostPort, 0) == IndexFrom(model.endpoints, guestPort, hostPort, i)
      {
        assert CellIs(endpoints[i], model.endpoints[i]);
        if endpoints[i].stream.guestPort == guestPort && endpoints[i].stream.hostPort == hostPort {
          return Some(i);
        }
      }
      return None;
    }

    /** Retires endpoint `i` under the next number. */
    method RetireEndpoint(i: nat)
      requires Matches() && i < |endpoints|
      modifies this, endpoints[i].stream
      ensures Matches() && model == RetireAt(old(model), i)
      ensures StreamsOf(endpoints) == old(StreamsOf(endpoints)) && |endpoints| == |old(endpoints)|
      ensures endpoints[i].stream == old(endpoints[i].stream)
    {
      hide StreamOk, WireAll, QueuePayload, Wrap32, StreamModel.Retire;
      assert CellIs(endpoints[i], model.endpoints[i]);
      var number := nextConnectionNumber;
      nextConnectionNumber := nextConnectionNumber + 1;
      var cell := endpoints[i];
      if cell.stream.connection.Some? || cell.stream.isConnecting || cell.retiring.None? {
        SameStreams(endpoints, i, cell.(retiring := Some(cell.number), number := number));
        endpoints := endpoints[i := cell.(retiring := Some(cell.number), number := number)];
      }
      cell.stream.Retire();
      model := RetireAt(model, i);
    }

    method ConnectionIndex(id: ConnectionId) returns (index: Option<nat>)
      requires Matches()
      ensures index == SwitchModel.ConnectionIndex(model, id)
    {
      hide StreamOk, WireAll, QueuePayload, Wrap32;
      index := EndpointIndex(id.guestPort, id.hostPort);
      if index.Some? {
        var cell := endpoints[index.value];
        assert CellIs(cell, model.endpoints[index.value]);
        if cell.stream.connection.None?
           || ConnectionId(cell.role, cell.stream.guestPort, cell.stream.hostPort, cell.number) != id {
          index := None;
        }
      }
    }

    method RequestCredit(id: ConnectionId) returns (result: Result<bool>)
      requires Valid()
      modifies this, StreamsOf(endpoints)
      ensures Valid() && (model, result) == SwitchRequestCredit(old(model), id) && endpoints == old(endpoints)
    {
      hide SwitchOk, Renews, Streams.StreamConnection.Valid, StreamModel.Deliver, StreamModel.RequestCredit, SwitchModel.ConnectionIndex;
      ConnectionSteps(model, id, [], 0);
      var index := ConnectionIndex(id);
      if index.None? {
        return Err(UnknownConnection);
      }
      assert CellIs(endpoints[index.value], model.endpoints[index.value]);
      var requested := endpoints[index.value].stream.RequestCredit();
      model := SetStream(model, index.value, endpoints[index.value].stream.model);
      return Ok(requested);
    }

    method Deliver(id: ConnectionId, data: seq<Byte>) returns (result: Result<()>)
      requires Valid()
      modifies this, StreamsOf(endpoints)
      ensures Valid() && (model, result) == SwitchDeliver(old(model), id, data) && endpoints == old(endpoints)
    {
      hide SwitchOk, Renews, Streams.StreamConnection.Valid, StreamModel.Deliver, StreamModel.RequestCredit, SwitchModel.ConnectionIndex;
      ConnectionSteps(model, id, data, 0);
      if |data| > MAX_PACKET_DATA_BYTES {
        return Err(Backpressure);
      }
      var index := ConnectionIndex(id);
      if index.None? {
        return Err(UnknownConnection);
      }
      assert CellIs(endpoints[index.value], model.endpoints[index.value]);
      result := endpoints[index.value].stream.Deliver(data);
      model := SetStream(model, index.value, endpoints[index.value].stream.model);
    }

    method Shutdown(id: ConnectionId) returns (result: Result<()>)
      requires Valid()
      modifies this, StreamsOf(endpoints)
      ensures Valid() && (model, result) == SwitchShutdown(old(model), id) && endpoints == old(endpoints)
    {
      hide SwitchOk, Renews, Streams.StreamConnection.Valid, StreamModel.Shutdown, SwitchModel.ConnectionIndex;
      ConnectionSteps(model, id, [], 0);
      var index := ConnectionIndex(id);
      if index.None? {
        return Err(UnknownConnection);
      }
      assert CellIs(endpoints[index.value], model.endpoints[index.value]);
      result := endpoints[index.value].stream.Shutdown();
      model := SetStream(model, index.value, endpoints[index.value].stream.model);
    }

    /** The oldest bytes of a current connection, gathered from the two parts of a buffer that wraps at `split`. */
    method PeekUpstream(id: ConnectionId, maxBytes: nat, split: nat) returns (bytes: seq<Byte>)
      requires Matches()
      ensures bytes == Peek(model, id, maxBytes)
    {
      hide StreamOk, WireAll, QueuePayload, Wrap32, SwitchModel.ConnectionIndex;
      var index := ConnectionIndex(id);
      if index.None? {
        return [];
      }
      assert CellIs(endpoints[index.value], model.endpoints[index.value]);
      var upstream := endpoints[index.value].stream.upstream;
      var first, second := upstream[..Min(split, |upstream|)], upstream[Min(split, |upstream|)..];
      bytes := first[..Min(|first|, maxBytes)] + second[..Min(|second|, SaturatingSub(maxBytes, |first|))];
    }

    method ConsumeUpstream(id: ConnectionId, maxBytes: nat) returns (result: Result<()>)
      requires Valid()
      modifies this, StreamsOf(endpoints)
      ensures Valid() && (model, result) == SwitchConsume(old(model), id, maxBytes)
      ensures StreamsOf(endpoints) == old(StreamsOf(endpoints))
    {
      hide SwitchOk, Renews, StreamOk, WireAll, QueuePayload, Wrap32, StreamModel.ConsumeUpstream, SwitchModel.ConnectionIndex,
        SwitchModel.RetireEndpoint;
      ConnectionSteps(model, id, [], maxBytes);
      var index := ConnectionIndex(id);
      if index.None? {
        return Err(UnknownConnection);
      }
      assert CellIs(endpoints[index.value], model.endpoints[index.value]);
      var stream := endpoints[index.value].stream;
      stream.ConsumeUpstream(maxBytes);
      model := SetStream(model, index.value, stream.model);
      if stream.connection.None? {
        RetireEndpoint(index.value);
      }
      return Ok(());
    }

    /** Resets endpoint `i` towards the guest when it is live. */
    method ResetEndpoint(i: nat)
      requires Valid() && i < |endpoints|
      modifies this, endpoints[i].stream
      ensures Valid() && model == ResetAt(old(model), i)
      ensures StreamsOf(endpoints) == old(StreamsOf(endpoints)) && |endpoints| == |old(endpoints)|
    {
      hide SwitchOk, Renews, StreamOk, WireAll, QueuePayload, Wrap32, StreamModel.Rst, SwitchModel.RetireEndpoint;
      ResetAtSteps(model, i);
      assert CellIs(endpoints[i], model.endpoints[i]);
      var stream := endpoints[i].stream;
      if stream.connection.Some? || stream.isConnecting {
        RstKeeps(stream.model, stream.guestPort, stream.hostPort);
        stream.Rst(stream.guestPort, stream.hostPort);
        model := SetStream(model, i, stream.model);
        RetireEndpoint(i);
      }
    }

    method ResetConnection(id: ConnectionId) returns (result: Result<()>)
      requires Valid()
      modifies this, StreamsOf(endpoints)
      ensures Valid() && (model, result) == SwitchModel.ResetConnection(old(model), id)
      ensures StreamsOf(endpoints) == old(StreamsOf(endpoints))
    {
      hide SwitchOk, StreamOk, WireAll, QueuePayload, Wrap32, ResetAt;
      var index := EndpointIndex(id.guestPort, id.hostPort);
      if index.None? {
        return Err(UnknownConnection);
      }
      var cell := endpoints[index.value];
      assert CellIs(cell, model.endpoints[index.value]);
      if cell.number != id.number || !(cell.stream.connection.Some? || cell.stream.isConnecting) {
        return Err(UnknownConnection);
      }
      ResetEndpoint(index.value);
      return Ok(());
    }

    method DisableNetwork()
      requires Valid()
      modifies this, StreamsOf(endpoints)
      ensures Valid() && model == SwitchModel.DisableNetwork(old(model))
      ensures StreamsOf(endpoints) == old(StreamsOf(endpoints))
    {
      hide SwitchOk, StreamOk, WireAll, QueuePayload, Wrap32, ResetAt, Streams.StreamConnection.Valid;
      assert |model.endpoints| >= FIXED_ENDPOINTS && SwitchOk(model.(networkEnabled := false)) by { FixedEndpoints(model); }
      networkEnabled := false;
      model := model.(networkEnabled := false);
      for i := 1 to |endpoints|
        invariant Valid() && |endpoints| == |old(endpoints)| == |model.endpoints|
        invariant StreamsOf(endpoints) == old(StreamsOf(endpoints))
        invariant ResetFrom(model, i) == SwitchModel.DisableNetwork(old(model))
      {
        ResetAtSteps(model, i);
        ResetEndpoint(i);
      }
    }

    /** Retires endpoint `i` when it is live, then drops its queue without recounting its bytes. */
    method ClearEndpoint(i: nat)
      requires Valid() && i < |endpoints|
      modifies this, endpoints[i].stream
      ensures Valid() && model == ClearAt(old(model), i)
      ensures StreamsOf(endpoints) == old(StreamsOf(endpoints)) && |endpoints| == |old(endpoints)|
    {
      hide SwitchOk, Renews, StreamOk, WireAll, QueuePayload, Wrap32, SwitchModel.RetireEndpoint;
      ClearAtSteps(model, i);
      EmptyWhenCleared(model, i);
      assert CellIs(endpoints[i], model.endpoints[i]);
      var stream := endpoints[i].stream;
      if stream.connection.Some? || stream.isConnecting {
        RetireEndpoint(i);
      }
      DropQueue(i);
    }

    method DropQueue(i: nat)
      requires Matches() && i < |endpoints| && QueueBytes(model.endpoints[i].stream.replies) == 0
      modifies this`model, endpoints[i].stream
      ensures Matches() && model == SetStream(old(model), i, old(model).endpoints[i].stream.(replies := []))
    {
      hide Streams.StreamConnection.Valid, QueuePayload, WireAll;
      assert CellIs(endpoints[i], model.endpoints[i]);
      endpoints[i].stream.ClearReplies();
      model := SetStream(model, i, endpoints[i].stream.model);
    }

    method ResetConnections()
      requires Valid()
      modifies this, StreamsOf(endpoints)
      ensures Valid() && model == SwitchModel.ResetConnections(old(model))
      ensures StreamsOf(endpoints) == old(StreamsOf(endpoints))
    {
      hide SwitchOk, StreamOk, WireAll, QueuePayload, Wrap32, ClearAt, Streams.StreamConnection.Valid;
      ResetConnectionsSteps(model);
      for i := 0 to |endpoints|
        invariant Valid() && |endpoints| == |old(endpoints)| == |model.endpoints|
        invariant StreamsOf(endpoints) == old(StreamsOf(endpoints))
        invariant ClearFrom(model, i) == ClearFrom(old(model), 0)
      {
        ClearAtSteps(model, i);
        ClearEndpoint(i);
      }
      rejected := [];
      model := model.(rejected := []);
    }

    method Reject(header: Header)
      requires Matches()
      modifies this
      ensures Matches() && model == SwitchModel.Reject(old(model), header) && endpoints == old(endpoints)
    {
      hide StreamOk, WireAll, QueuePayload, Streams.StreamConnection.Valid;
      if header.op != OP_RST && |rejected| < MAX_REJECTED_RESETS {
        var index := EndpointIndex(header.srcPort, header.dstPort);
        var number := 0;
        if index.Some? {
          assert CellIs(endpoints[index.value], model.endpoints[index.value]);
          number := endpoints[index.value].number;
        }
        WrapSmall(0);
        rejected := rejected + [Packet(number, HostHeader(header.dstPort, header.srcPort).(op := OP_RST), [])];
        model := SwitchModel.Reject(model, header);
      }
    }

    /** Appends a new endpoint under the next number. */
    method Push(role: Role, guestPort: nat, hostPort: nat)
      requires Matches()
      modifies this
      ensures Matches() && model == AddEndpoint(old(model), role, guestPort, hostPort)
      ensures |endpoints| == |old(endpoints)| + 1 && endpoints[..|old(endpoints)|] == old(endpoints)
      ensures fresh(endpoints[|old(endpoints)|].stream)
      ensures fresh(StreamsOf(endpoints) - old(StreamsOf(endpoints)))
    {
      hide StreamOk, WireAll, QueuePayload, Streams.StreamConnection.Valid;
      var stream := new Streams.StreamConnection(guestPort, hostPort, RxBudget(role), TxBudget(role));
      assert stream !in StreamsOf(endpoints);
      assert forall k :: 0 <= k < |endpoints| ==> CellIs(endpoints[k], model.endpoints[k]);
      assert forall k :: 0 <= k < |endpoints| ==> endpoints[k].stream in StreamsOf(endpoints);
      endpoints := endpoints + [Cell(role, stream, nextConnectionNumber, None)];
      nextConnectionNumber := nextConnectionNumber + 1;
      model := AddEndpoint(model, role, guestPort, hostPort);
    }

    method ForgiveRejected(guestPort: nat, hostPort: nat)
      requires Matches()
      modifies this`rejected, this`model
      ensures Matches() && model == old(model).(rejected := Forgive(old(model).rejected, guestPort, hostPort))
    {
      hide Forgive, Streams.StreamConnection.Valid;
      StampForgive(model.rejected, guestPort, hostPort);
      rejected := ForgivePackets(rejected, guestPort, hostPort);
      model := model.(rejected := Forgive(model.rejected, guestPort, hostPort));
    }

    /** The one role the port pair belongs to, if the network allows it; an endpoint with these ports has that role. */
    method Classify(guestPort: nat, hostPort: nat) returns (role: Option<Role>)
      requires Matches()
      ensures role == SwitchModel.Classify(model, guestPort, hostPort)
      ensures forall r :: role == Some(r) <==> PortsOf(r, guestPort, hostPort) && (networkEnabled || r == Agent)
      ensures SwitchOk(model) && role.Some? ==>
                forall i :: 0 <= i < |endpoints| && HasPorts(model.endpoints[i], guestPort, hostPort) ==> endpoints[i].role == role.value
    {
      hide StreamOk, Ordered, IsRst, WireAll, Streams.StreamConnection.Valid;
      if guestPort == AGENT_PORT && hostPort == AGENT_PORT {
        return Some(Agent);
      }
      if !networkEnabled {
        return None;
      }
      if guestPort == CONTROL_PORT && hostPort == CONTROL_PORT {
        return Some(Control);
      }
      if hostPort == TCP_PORT && IsFlowGuestPort(guestPort) {
        return Some(Tcp);
      }
      if hostPort == UDP_PORT && IsFlowGuestPort(guestPort) {
        return Some(Udp);
      }
      if guestPort == PUBLICATION_PORT && IsPublicationHostPort(hostPort) {
        return Some(Publication);
      }
      return None;
    }

    /** Hands a packet to endpoint `i`, retiring it when the packet ended its connection. */
    method RxEndpoint(i: nat, header: Header, data: seq<Byte>)
      requires Matches() && i < |endpoints| && IsHeader(header) && HasPorts(model.endpoints[i], header.srcPort, header.dstPort)
      modifies this, endpoints[i].stream
      ensures Matches() && model == RxAt(old(model), i, header, data)
      ensures StreamsOf(endpoints) == old(StreamsOf(endpoints))
    {
      hide StreamOk, WireAll, QueuePayload, Wrap32, StreamModel.Rx, SwitchModel.RetireEndpoint;
      assert CellIs(endpoints[i], model.endpoints[i]);
      var stream := endpoints[i].stream;
      var wasLive := stream.connection.Some? || stream.isConnecting;
      stream.Rx(header, data);
      model := SetStream(model, i, stream.model);
      if wasLive && !(stream.connection.Some? || stream.isConnecting) {
        RetireEndpoint(i);
      }
    }

    method Rx(header: Header, data: seq<Byte>) returns (touched: Option<ConnectionId>)
      requires Valid() && IsHeader(header)
      modifies this, StreamsOf(endpoints)
      ensures Valid() && (model, touched) == SwitchRx(old(model), header, data)
      ensures fresh(StreamsOf(endpoints) - old(StreamsOf(endpoints)))
    {
      hide SwitchOk, Renews, StreamOk, WireAll, QueuePayload, Wrap32, RxAt, SwitchModel.Reject, Forgive, Streams.StreamConnection.Valid;
      SwitchRxSteps(model, header, data);
      var role := Classify(header.srcPort, header.dstPort);
      if role.None? {
        Reject(header);
        return None;
      }
      var index := EndpointIndex(header.srcPort, header.dstPort);
      if index.None? {
        if !(role.value == Tcp || role.value == Udp)
           || header.op != OP_REQUEST || header.type_ != TYPE_STREAM
           || header.srcCid != GUEST_CID || header.dstCid != HOST_CID
           || header.len != 0 || data != [] || header.flags != 0 || header.fwdCnt != 0
           || |endpoints| - FIXED_ENDPOINTS >= networkSocketCapacity {
          Reject(header);
          return None;
        }
        ForgiveRejected(header.srcPort, header.dstPort);
        touched := Some(ConnectionId(role.value, header.srcPort, header.dstPort, nextConnectionNumber));
        Push(role.value, header.srcPort, header.dstPort);
        RxEndpoint(|endpoints| - 1, header, data);
      } else {
        var cell := endpoints[index.value];
        assert CellIs(cell, model.endpoints[index.value]);
        if cell.retiring.Some? {
          Reject(header);
          return None;
        }
        touched := Some(ConnectionId(cell.role, header.srcPort, header.dstPort, cell.number));
        RxEndpoint(index.value, header, data);
      }
    }

    method RequestAt(i: nat) returns (queued: bool)
      requires Matches() && i < |endpoints|
      modifies this`model, endpoints[i].stream
      ensures Matches() && queued == Request(old(model).endpoints[i].stream).1
      ensures model == SetStream(old(model), i, Request(old(model).endpoints[i].stream).0)
    {
      hide Streams.StreamConnection.Valid, Request;
      assert CellIs(endpoints[i], model.endpoints[i]);
      queued := endpoints[i].stream.Request();
      model := SetStream(model, i, endpoints[i].stream.model);
    }

    method ConnectPublication(hostPort: nat) returns (result: Result<ConnectionId>)
      requires Valid()
      modifies this
      ensures Valid() && (model, result) == SwitchModel.ConnectPublication(old(model), hostPort)
      ensures fresh(StreamsOf(endpoints) - old(StreamsOf(endpoints)))
    {
      hide SwitchOk, Renews, EndpointOk, FlowOk, Streams.StreamConnection.Valid, Request;
      ConnectPublicationSteps(model, hostPort);
      if !networkEnabled || !IsPublicationHostPort(hostPort) || |endpoints| - FIXED_ENDPOINTS >= networkSocketCapacity {
        return Err(Backpressure);
      }
      var index := EndpointIndex(PUBLICATION_PORT, hostPort);
      if index.Some? {
        return Err(Busy);
      }
      RequestedFlow(hostPort, nextConnectionNumber);
      var last := |endpoints|;
      result := Ok(ConnectionId(Publication, PUBLICATION_PORT, hostPort, nextConnectionNumber));
      Push(Publication, PUBLICATION_PORT, hostPort);
      var queued := RequestAt(last);
      if !queued {
        assert false;
      }
    }

    /** Releases a retired number whose queued resets are gone. */
    method RetireConnection(id: ConnectionId) returns (released: bool)
      requires Valid()
      modifies this
      ensures Valid() && (model, released) == SwitchModel.RetireConnection(old(model), id)
      ensures StreamsOf(endpoints) <= old(StreamsOf(endpoints))
    {
      hide SwitchOk, Renews, StreamOk, QueuePayload, Wrap32, Forgive;
      RetireConnectionSteps(model, id);
      var index := EndpointIndex(id.guestPort, id.hostPort);
      if index.None? {
        return false;
      }
      var i := index.value;
      var cell := endpoints[i];
      assert CellIs(cell, model.endpoints[i]);
      if cell.role != id.role || cell.retiring != Some(id.number) || cell.stream.replies != [] {
        return false;
      }
      Release(i);
      ForgiveRejected(id.guestPort, id.hostPort);
      return true;
    }

    method Release(i: nat)
      requires Matches() && i < |endpoints|
      modifies this
      ensures Matches()
      ensures model == if i >= FIXED_ENDPOINTS
                       then old(model).(endpoints := old(model).endpoints[..i] + old(model).endpoints[i + 1..])
                       else old(model).(endpoints := old(model).endpoints[i := old(model).endpoints[i].(retiring := None, number := old(model).next)],
                                        next := old(model).next + 1)
      ensures StreamsOf(endpoints) <= old(StreamsOf(endpoints))
    {
      hide Streams.StreamConnection.Valid, StampAll;
      if i >= FIXED_ENDPOINTS {
        RemainingStreams(endpoints, i);
        endpoints := endpoints[..i] + endpoints[i + 1..];
        model := model.(endpoints := model.endpoints[..i] + model.endpoints[i + 1..]);
      } else {
        var cell := endpoints[i].(retiring := None, number := nextConnectionNumber);
        SameStreams(endpoints, i, cell);
        endpoints := endpoints[i := cell];
        model := model.(endpoints := model.endpoints[i := model.endpoints[i].(retiring := None, number := model.next)],
                        next := model.next + 1);
        nextConnectionNumber := nextConnectionNumber + 1;
      }
    }

    method IsReplyCurrent(packet: Packet, ghost reply: Stamped) returns (current: bool)
      requires Matches() && StandsFor(packet, reply)
      ensures current == SwitchModel.IsReplyCurrent(model, reply)
    {
      hide StreamOk, WireAll, QueuePayload, Wrap32;
      var index := EndpointIndex(packet.header.dstPort, packet.header.srcPort);
      if index.None? {
        return packet.connectionNumber == 0;
      }
      var cell := endpoints[index.value];
      assert CellIs(cell, model.endpoints[index.value]);
      var closed := cell.stream.connection.Some? && cell.stream.connection.value.peerReceiveClosed;
      return cell.number == packet.connectionNumber && (packet.header.op != OP_RW || !closed);
    }

    method TakeReplyFrom(i: nat, maxBytes: nat) returns (packet: Option<Packet>)
      requires Valid() && i < |endpoints|
      modifies this, endpoints[i].stream
      ensures Valid() && endpoints == old(endpoints)
      ensures var (after, reply) := TakeFrom(old(model), i, maxBytes);
              model == after && packet == (if reply.Some? then Some(StampedPacket(reply.value)) else None)
    {
      hide SwitchOk, Renews, StreamOk, WireAll, QueuePayload, Wrap32, Streams.StreamConnection.Valid, StreamModel.TakeReply;
      TakeFromSteps(model, i, maxBytes);
      assert CellIs(endpoints[i], model.endpoints[i]);
      packet := endpoints[i].stream.TakeReply(maxBytes);
      if packet.Some? {
        packet := Some(packet.value.(connectionNumber := endpoints[i].number));
      }
      model := SetStream(model, i, endpoints[i].stream.model);
    }

    method TakeFlowReply(maxBytes: nat) returns (packet: Option<Packet>)
      requires Valid()
      modifies this, StreamsOf(endpoints)
      ensures Valid() && endpoints == old(endpoints)
      ensures var (after, reply) := TakeFlow(old(model), maxBytes, 0);
              model == after && packet == PacketOf(reply)
    {
      hide SwitchOk, Renews, Streams.StreamConnection.Valid, TakeFrom, TakeFlow, StampAll, StampedPacket, Mod;
      FixedEndpoints(model);
      var count := |endpoints| - FIXED_ENDPOINTS;
      TakeFlowSteps(model, maxBytes, 0);
      FlowScanEnds(model, maxBytes);
      for offset := 0 to count
        invariant Valid() && endpoints == old(endpoints) && model == old(model)
        invariant TakeFlow(model, maxBytes, 0) == TakeFlow(model, maxBytes, offset)
      {
        var index := FIXED_ENDPOINTS + Mod(nextFlowReply + offset, count);
        TakeFromSteps(model, index, maxBytes);
        FlowScan(model, maxBytes, offset);
        packet := TakeReplyFrom(index, maxBytes);
        if packet.Some? {
          nextFlowReply := Mod(index - FIXED_ENDPOINTS + 1, count);
          model := model.(nextFlowReply := nextFlowReply);
          return;
        }
      }
      packet := None;
    }

    /** Agent, control or the flows; nothing changes when the class has no reply that fits. */
    method TakeClassReply(class_: nat, maxBytes: nat) returns (packet: Option<Packet>)
      requires Valid() && |model.endpoints| >= FIXED_ENDPOINTS
      modifies this, StreamsOf(endpoints)
      ensures Valid() && endpoints == old(endpoints)
      ensures var (after, reply) := TakeClass(old(model), class_, maxBytes);
              model == after && packet == PacketOf(reply)
      ensures packet.None? ==> model == old(model)
    {
      hide SwitchOk, Renews, Streams.StreamConnection.Valid, TakeFlow, TakeFrom, StampedPacket;
      if class_ < FIXED_ENDPOINTS {
        TakeFromSteps(model, class_, maxBytes);
        packet := TakeReplyFrom(class_, maxBytes);
      } else {
        TakeFlowSteps(model, maxBytes, 0);
        packet := TakeFlowReply(maxBytes);
      }
    }

    method TakeReply(maxBytes: nat) returns (packet: Option<Packet>)
      requires Valid()
      modifies this, StreamsOf(endpoints)
      ensures Valid() && endpoints == old(endpoints)
      ensures var (after, reply) := SwitchTake(old(model), maxBytes);
              model == after && packet == PacketOf(reply)
    {
      hide SwitchOk, Renews, Streams.StreamConnection.Valid, TakeClass, StampedPacket, Mod;
      FixedEndpoints(model);
      TakeScanSteps(model, maxBytes, 0);
      for offset := 0 to REPLY_CLASSES
        invariant Valid() && endpoints == old(endpoints) && model == old(model)
        invariant TakeScan(model, maxBytes, 0) == TakeScan(model, maxBytes, offset)
      {
        var class_ := Mod(nextReply + offset, REPLY_CLASSES);
        packet := TakeClassReply(class_, maxBytes);
        if packet.Some? {
          nextReply := Mod(class_ + 1, REPLY_CLASSES);
          model := model.(nextReply := nextReply);
          return;
        }
      }
      if rejected == [] {
        return None;
      }
      packet := Some(rejected[0]);
      rejected := rejected[1..];
      model := model.(rejected := model.rejected[1..]);
    }

    /** Drives the switch through any run: it ends as the wrapped image of the specification's run. */
    method Run(ops: seq<Op>)
      requires Valid() && forall k :: 0 <= k < |ops| && ops[k].RxOp? ==> IsHeader(ops[k].h)
      modifies this, StreamsOf(endpoints)
      ensures Valid() && model == RunOps(old(model), ops)
      ensures fresh(StreamsOf(endpoints) - old(StreamsOf(endpoints)))
    {
      hide SwitchOk, CellsAre, StampAll, Renews, SwitchRx, SwitchModel.ConnectPublication, SwitchModel.RetireConnection,
        SwitchModel.ResetConnections, SwitchModel.DisableNetwork, SwitchRequestCredit, SwitchDeliver, SwitchShutdown,
        SwitchModel.ResetConnection, SwitchConsume, TakeScan;
      ghost var start := model;
      for k := 0 to |ops|
        invariant Valid() && fresh(StreamsOf(endpoints) - old(StreamsOf(endpoints)))
        invariant RunOps(model, ops[k..]) == RunOps(start, ops)
      {
        assert ops[k..][0] == ops[k] && ops[k..][1..] == ops[k + 1..];
        ApplySteps(model, ops[k]);
        Step(ops[k]);
      }
    }

    method Step(op: Op)
      requires Valid() && (op.RxOp? ==> IsHeader(op.h))
      modifies this, StreamsOf(endpoints)
      ensures Valid() && model == Apply(old(model), op)
      ensures fresh(StreamsOf(endpoints) - old(StreamsOf(endpoints)))
    {
      hide SwitchOk, StampAll, Renews, SwitchRx, SwitchModel.ConnectPublication, SwitchModel.RetireConnection,
        SwitchModel.ResetConnections, SwitchModel.DisableNetwork, SwitchRequestCredit, SwitchDeliver, SwitchShutdown,
        SwitchModel.ResetConnection, SwitchConsume, TakeScan, Streams.StreamConnection.Valid;
      FixedEndpoints(model);
      match op {
        case RxOp(h, data) => var _ := Rx(h, data);
        case ConnectOp(hostPort) => var _ := ConnectPublication(hostPort);
        case ReleaseOp(id) => var _ := RetireConnection(id);
        case ResetAllOp => ResetConnections();
        case DisableNetworkOp => DisableNetwork();
        case RequestCreditOp(id) => var _ := RequestCredit(id);
        case DeliverOp(id, data) => var _ := Deliver(id, data);
        case ShutdownOp(id) => var _ := Shutdown(id);
        case ResetOp(id) => var _ := ResetConnection(id);
        case ConsumeOp(id, maxBytes) => var _ := ConsumeUpstream(id, maxBytes);
        case TakeOp(maxBytes) => var _ := TakeReply(maxBytes);
      }
    }
  }

  lemma FixedEndpoints(sw: Switch)
    requires SwitchOk(sw)
    ensures |sw.endpoints| >= FIXED_ENDPOINTS && SwitchOk(sw.(networkEnabled := false))
  {
  }

  /** Once an endpoint is not live, the resets it still queues carry no payload. */
  lemma EmptyWhenCleared(sw: Switch, i: nat)
    requires SwitchOk(sw) && i < |sw.endpoints|
    ensures sw.endpoints[i].stream.Live() ==> QueueBytes(RetireAt(sw, i).endpoints[i].stream.replies) == 0
    ensures !sw.endpoints[i].stream.Live() ==> QueueBytes(sw.endpoints[i].stream.replies) == 0
  {
    hide SwitchOk;
    EndpointFacts(sw, i);
    RetireKeeps(sw.endpoints[i].stream);
    if !sw.endpoints[i].stream.Live() { NoDataNoPayload(sw.endpoints[i].stream.replies); }
  }
}
