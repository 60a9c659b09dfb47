/** The receive side of the queue engine in place: the pending reply, the switch and guest memory. */
module ReceiveQueue {
  import opened Words
  import opened VsockWire
  import opened Streams = StreamConnection
  import opened SwitchModel
  import opened SwitchInvariant
  import opened Switches = VsockSwitch
  import opened PacketHeader
  import opened GuestCopy
  import opened ReceivePacket
  import Ring = ReceiveRing

  /** A writable descriptor chain, or none when the chain is unusable. */
  type Buffer = Option<seq<Range>>

  /** The packet that a buffer of this capacity gets of a reply. */
  function PacketBytes(r: Stamped, capacity: nat): seq<Byte>
    requires VSOCK_HEADER_BYTES <= capacity
  {
    var take := Min(capacity - VSOCK_HEADER_BYTES, |r.reply.payload|);
    Encode(StampedPacket(r).header.(len := take)) + r.reply.payload[..take]
  }

  /** The guest parses what a buffer got: the reply's header, with the length of the payload that follows it. */
  lemma GuestParsesPacket(r: Stamped, capacity: nat)
    requires VSOCK_HEADER_BYTES <= capacity && FieldsFit(StampedPacket(r).header) && |r.reply.payload| < U32_LIMIT
    ensures var take := Min(capacity - VSOCK_HEADER_BYTES, |r.reply.payload|);
            Parse(PacketBytes(r, capacity)) == Some((StampedPacket(r).header.(len := take), r.reply.payload[..take]))
  {
    hide Encode, Parse, Wrap32;
    var take := Min(capacity - VSOCK_HEADER_BYTES, |r.reply.payload|);
    ParseEncoded(StampedPacket(r).header.(len := take), r.reply.payload[..take]);
  }

  /** Whether the write of the reply that is pending after refilling succeeds. */
  ghost predicate Writes(ram: Ram, f: Ring.Frontend, buffer: Buffer)
    requires |f.sw.endpoints| >= FIXED_ENDPOINTS
  {
    var g := Ring.Refill(f).0;
    && buffer.Some? && VSOCK_HEADER_BYTES <= Capacity(buffer.value) && g.pending.Some?
    && AllWritable(ram, Scatter(PacketBytes(g.pending.value, Capacity(buffer.value)), buffer.value))
  }

  /** Guest memory after a buffer was served: untouched unless a packet is written, and then every piece up to the
      first one outside memory. */
  ghost function MemoryAfter(ram: Ram, f: Ring.Frontend, buffer: Buffer): Ram
    requires |f.sw.endpoints| >= FIXED_ENDPOINTS
  {
    if buffer.None? || !(VSOCK_HEADER_BYTES <= Capacity(buffer.value) <= Ring.MAX_PACKET) then ram
    else
      var (g, usable) := Ring.Refill(f);
      var capacity := Capacity(buffer.value);
      if !usable || g.pending.None? || (capacity == VSOCK_HEADER_BYTES && g.pending.value.reply.payload != []) then ram
      else WriteAll(ram, Writable(ram, Scatter(PacketBytes(g.pending.value, capacity), buffer.value)))
  }

  class ReceiveQueue {
    const switch: Switches.VsockSwitch
    var pendingRx: Option<Packet>
    ghost var pending: Option<Stamped>

    ghost predicate Valid()
      reads this, switch, StreamsOf(switch.endpoints)
    {
      && switch.Valid()
      && (pendingRx.Some? <==> pending.Some?)
      && (pendingRx.Some? ==> StandsFor(pendingRx.value, pending.value))
    }

    ghost function View(): Ring.Frontend
      reads this, switch
    {
      Ring.Frontend(switch.model, pending, map[], map[])
    }

    constructor (switch: Switches.VsockSwitch)
      requires switch.Valid()
      ensures Valid() && this.switch == switch && pending.None?
    {
      this.switch, pendingRx, pending := switch, None, None;
    }

    /** Drops a stale pending reply and takes a new one; false when that one was stale as well. */
    method Refill() returns (usable: bool)
      requires Valid()
      modifies this, switch, StreamsOf(switch.endpoints)
      ensures Valid() && switch.endpoints == old(switch.endpoints)
      ensures (View(), usable) == Ring.Refill(old(View()))
    {
      hide SwitchOk, CellsAre, StampAll, SwitchTake, SwitchModel.IsReplyCurrent;
      FixedEndpoints(switch.model);
      if pendingRx.Some? {
        var current := switch.IsReplyCurrent(pendingRx.value, pending.value);
        if current {
          return true;
        }
      }
      pendingRx := switch.TakeReply(Ring.MAX_PACKET);
      pending := SwitchTake(old(switch.model), Ring.MAX_PACKET).1;
      if pendingRx.Some? {
        var current := switch.IsReplyCurrent(pendingRx.value, pending.value);
        if !current {
          pendingRx, pending := None, None;
          return false;
        }
      }
      return true;
    }

    /** Serves one receive buffer. The switch and the pending reply move as the specification says, where the write
        succeeds exactly when every piece lies in guest memory; then memory holds the packet along the buffer. */
    method ProcessRx(ram: Ram, buffer: Buffer) returns (after: Ram, step: Ring.RxStep)
      requires Valid()
      modifies this, switch, StreamsOf(switch.endpoints)
      ensures Valid() && switch.endpoints == old(switch.endpoints)
      ensures var capacity := if buffer.Some? then Some(Capacity(buffer.value)) else None;
              var (g, spec) := Ring.ProcessRx(old(View()), capacity, Writes(ram, old(View()), buffer));
              step == spec && pending == g.pending && switch.model == g.sw
      ensures step.Completed? && step.len > 0 ==>
                && buffer.Some? && VSOCK_HEADER_BYTES <= Capacity(buffer.value) && Ring.Refill(old(View())).0.pending.Some?
                && after == WriteAll(ram, Scatter(PacketBytes(Ring.Refill(old(View())).0.pending.value, Capacity(buffer.value)), buffer.value))
      ensures after == MemoryAfter(ram, old(View()), buffer)
    {
      hide SwitchOk, CellsAre, StampAll, SwitchTake, SwitchModel.IsReplyCurrent, Ring.Refill, Encode, Scatter, WriteAll, AllWritable, Writable, Capacity, Gathered;
      FixedEndpoints(switch.model);
      after := ram;
      if buffer.None? {
        return ram, Ring.Completed(0);
      }
      var descriptors := buffer.value;
      var capacity := Capacity(descriptors);
      if capacity < VSOCK_HEADER_BYTES || capacity > Ring.MAX_PACKET {
        return ram, Ring.Completed(0);
      }
      var usable := Refill();
      if !usable {
        return ram, Ring.Retry;
      }
      if pendingRx.None? {
        return ram, Ring.Idle;
      }
      var packet := pendingRx.value;
      var take := Min(capacity - VSOCK_HEADER_BYTES, |packet.payload|);
      var header := Encode(packet.header.(len := take));
      var rest, used;
      after, rest, used := WriteRxPacket(ram, header, packet.payload, descriptors);
      if used.None? {
        return after, Ring.Completed(0);
      }
      if rest == [] {
        pendingRx, pending := None, None;
      } else {
        pendingRx := Some(packet.(payload := rest));
        pending := Some(pending.value.(reply := pending.value.reply.(payload := rest)));
      }
      return after, Ring.Completed(used.value);
    }
  }
}
