/** Writing one packet of a reply into the descriptors of a receive buffer. */
module ReceivePacket {
  import opened Words
  import opened VsockWire
  import opened GuestCopy

  function Capacity(descriptors: seq<Range>): nat {
    if descriptors == [] then 0 else descriptors[0].len + Capacity(descriptors[1..])
  }

  /** The packet cut along the descriptors, up to the one that takes its last byte. */
  function Scatter(packet: seq<Byte>, descriptors: seq<Range>): seq<Data>
    decreases |descriptors|
  {
    if packet == [] || descriptors == [] then []
    else
      var n := Min(|packet|, descriptors[0].len);
      [Data(descriptors[0].address, packet[..n])] + Scatter(packet[n..], descriptors[1..])
  }

  function Gathered(pieces: seq<Data>): seq<Byte> {
    if pieces == [] then [] else pieces[0].bytes + Gathered(pieces[1..])
  }

  /** A buffer large enough receives every byte of the packet, in order. */
  lemma {:induction false} ScatterKeepsPacket(packet: seq<Byte>, descriptors: seq<Range>)
    requires |packet| <= Capacity(descriptors)
    ensures Gathered(Scatter(packet, descriptors)) == packet
    decreases |descriptors|
  {
    if packet != [] {
      var n := Min(|packet|, descriptors[0].len);
      ScatterKeepsPacket(packet[n..], descriptors[1..]);
      var rest := Scatter(packet[n..], descriptors[1..]);
      var pieces := [Data(descriptors[0].address, packet[..n])] + rest;
      assert pieces[1..] == rest;
      assert packet[..n] + packet[n..] == packet;
    }
  }

  /** One more piece of a write in progress. */
  lemma NextPiece(ram: Ram, done: seq<Data>, piece: Data, rest: seq<Data>)
    requires AllWritable(ram, done)
    ensures var after := WriteAll(ram, done);
            && (InRam(after, piece.address, |piece.bytes|) <==> AllWritable(ram, done + [piece]))
            && (AllWritable(ram, done + [piece] + rest) ==> AllWritable(ram, done + [piece]))
            && WriteAt(after, piece) == WriteAll(ram, done + [piece])
  {
    hide InRam, WriteAt;
    var after := WriteAll(ram, done);
    WriteAllConcat(ram, done, [piece]);
    WriteAllConcat(ram, done + [piece], rest);
    OneWrite(after, piece);
    OneWrite(ram, piece);
    SameKeys(ram, done);
    WritableSame(ram, after, [piece]);
  }

  /** The pieces before the first one outside guest memory: those a write that stops there has written. */
  function Writable(ram: Ram, pieces: seq<Data>): (done: seq<Data>)
    ensures done <= pieces && AllWritable(ram, done)
  {
    if pieces == [] || !InRam(ram, pieces[0].address, |pieces[0].bytes|) then []
    else [pieces[0]] + Writable(ram, pieces[1..])
  }

  lemma {:induction false} WritableStops(ram: Ram, done: seq<Data>, rest: seq<Data>)
    requires AllWritable(ram, done) && (rest == [] || !AllWritable(ram, done + [rest[0]]))
    ensures Writable(ram, done + rest) == done
    decreases |done|
  {
    hide InRam;
    if done == [] {
      assert done + rest == rest;
      assert rest != [] ==> done + [rest[0]] == [rest[0]];
    } else {
      assert (done + rest)[1..] == done[1..] + rest;
      assert forall i :: 0 <= i < |done[1..]| ==> done[1..][i] == done[i + 1];
      assert rest != [] ==> (done + [rest[0]])[1..] == done[1..] + [rest[0]];
      WritableStops(ram, done[1..], rest);
    }
  }

  /** Writes the pieces in order up to the first failure. */
  method WritePieces(ram: Ram, packet: seq<Byte>, descriptors: seq<Range>) returns (after: Ram, written: bool)
    requires |packet| <= Capacity(descriptors)
    ensures written <==> AllWritable(ram, Scatter(packet, descriptors))
    ensures written ==> after == WriteAll(ram, Scatter(packet, descriptors))
    ensures after == WriteAll(ram, Writable(ram, Scatter(packet, descriptors)))
  {
    hide InRam, WriteAt, WriteAll, AllWritable, Writable;
    after := ram;
    ghost var pieces := Scatter(packet, descriptors);
    ghost var done: seq<Data> := [];
    NoWrites(ram);
    var left := packet;
    var i := 0;
    while i < |descriptors| && left != []
      invariant 0 <= i <= |descriptors| && |left| <= Capacity(descriptors[i..])
      invariant pieces == done + Scatter(left, descriptors[i..])
      invariant after == WriteAll(ram, done) && AllWritable(ram, done)
    {
      assert descriptors[i..][0] == descriptors[i] && descriptors[i..][1..] == descriptors[i + 1..];
      var n := Min(|left|, descriptors[i].len);
      var piece := Data(descriptors[i].address, left[..n]);
      ghost var rest := Scatter(left[n..], descriptors[i + 1..]);
      assert pieces == done + [piece] + rest;
      NextPiece(ram, done, piece, rest);
      if !InRam(after, piece.address, |piece.bytes|) {
        WritableStops(ram, done, [piece] + rest);
        assert pieces == done + ([piece] + rest);
        return after, false;
      }
      after := WriteAt(after, piece);
      done := done + [piece];
      left := left[n..];
      i := i + 1;
    }
    if left != [] {
      assert false;
    }
    assert pieces == done && done + [] == done;
    WritableStops(ram, done, []);
    written := true;
  }

  /** Writes the header and as much payload as fits. The reply keeps the rest, or everything when a write fails. */
  method WriteRxPacket(ram: Ram, header: seq<Byte>, payload: seq<Byte>, descriptors: seq<Range>)
    returns (after: Ram, rest: seq<Byte>, used: Option<nat>)
    requires |header| == VSOCK_HEADER_BYTES <= Capacity(descriptors)
    ensures var capacity := Capacity(descriptors);
            var take := Min(capacity - VSOCK_HEADER_BYTES, |payload|);
            var packet := header + payload[..take];
            var pieces := Scatter(packet, descriptors);
            if capacity == VSOCK_HEADER_BYTES && payload != [] then used == Some(0) && rest == payload && after == ram
            else
              && Gathered(pieces) == packet
              && (used.Some? <==> AllWritable(ram, pieces))
              && (used.Some? ==> used.value == VSOCK_HEADER_BYTES + take && rest == payload[take..] && after == WriteAll(ram, pieces))
              && (used.None? ==> rest == payload)
              && after == WriteAll(ram, Writable(ram, pieces))
  {
    hide AllWritable, WriteAll, Scatter, Writable;
    var capacity := Capacity(descriptors);
    if capacity == VSOCK_HEADER_BYTES && payload != [] {
      return ram, payload, Some(0);
    }
    var take := Min(capacity - VSOCK_HEADER_BYTES, |payload|);
    var packet := header + payload[..take];
    ScatterKeepsPacket(packet, descriptors);
    var written;
    after, written := WritePieces(ram, packet, descriptors);
    if !written {
      return after, payload, None;
    }
    return after, payload[take..], Some(|packet|);
  }
}
