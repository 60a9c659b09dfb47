/** The wire layout of the vsock packet header. */
module PacketHeader {
  import opened Words
  import opened LittleEndian
  import opened VsockWire

  /** Every field fits its width. */
  predicate FieldsFit(h: Header) {
    && h.srcCid < U64_LIMIT && h.dstCid < U64_LIMIT && h.srcPort < U32_LIMIT && h.dstPort < U32_LIMIT && h.len < U32_LIMIT
    && h.type_ < U16_LIMIT && h.op < U16_LIMIT && h.flags < U32_LIMIT && h.bufAlloc < U32_LIMIT && h.fwdCnt < U32_LIMIT
  }

  function Encode(h: Header): (b: seq<Byte>)
    ensures |b| == VSOCK_HEADER_BYTES
  {
    Le(h.srcCid, 8) + Le(h.dstCid, 8) + Le(h.srcPort, 4) + Le(h.dstPort, 4) + Le(h.len, 4)
    + Le(h.type_, 2) + Le(h.op, 2) + Le(h.flags, 4) + Le(h.bufAlloc, 4) + Le(h.fwdCnt, 4)
  }

  function Fields(b: seq<Byte>): Header
    requires |b| == VSOCK_HEADER_BYTES
  {
    Header(FromLe(b[0..8]), FromLe(b[8..16]), FromLe(b[16..20]), FromLe(b[20..24]), FromLe(b[24..28]),
           FromLe(b[28..30]), FromLe(b[30..32]), FromLe(b[32..36]), FromLe(b[36..40]), FromLe(b[40..44]))
  }

  /** Splits a header off the bytes; none when there are too few. */
  function Parse(bytes: seq<Byte>): Option<(Header, seq<Byte>)> {
    if |bytes| < VSOCK_HEADER_BYTES then None
    else Some((Fields(bytes[..VSOCK_HEADER_BYTES]), bytes[VSOCK_HEADER_BYTES..]))
  }

  lemma Slices(h: Header)
    ensures var b := Encode(h);
            && b[0..8] == Le(h.srcCid, 8) && b[8..16] == Le(h.dstCid, 8) && b[16..20] == Le(h.srcPort, 4)
            && b[20..24] == Le(h.dstPort, 4) && b[24..28] == Le(h.len, 4) && b[28..30] == Le(h.type_, 2)
            && b[30..32] == Le(h.op, 2) && b[32..36] == Le(h.flags, 4) && b[36..40] == Le(h.bufAlloc, 4) && b[40..44] == Le(h.fwdCnt, 4)
  {
    hide Le;
  }

  lemma EncodedFields(h: Header)
    requires FieldsFit(h)
    ensures Fields(Encode(h)) == h
  {
    hide Le, FromLe, Encode;
    Slices(h);
    Limits();
    Reads(h.srcCid, 8);
    Reads(h.dstCid, 8);
    Reads(h.srcPort, 4);
    Reads(h.dstPort, 4);
    Reads(h.len, 4);
    Reads(h.type_, 2);
    Reads(h.op, 2);
    Reads(h.flags, 4);
    Reads(h.bufAlloc, 4);
    Reads(h.fwdCnt, 4);
  }

  /** Parsing an encoded header followed by any bytes gives both back. */
  lemma ParseEncoded(h: Header, rest: seq<Byte>)
    requires FieldsFit(h)
    ensures Parse(Encode(h) + rest) == Some((h, rest))
  {
    hide Encode, Fields;
    EncodedFields(h);
    assert (Encode(h) + rest)[..VSOCK_HEADER_BYTES] == Encode(h);
    assert (Encode(h) + rest)[VSOCK_HEADER_BYTES..] == rest;
  }

  /** A slice written back as a number of the same width. */
  lemma Field(b: seq<Byte>, lo: nat, hi: nat)
    requires lo <= hi <= |b|
    ensures FromLe(b[lo..hi]) < Limit(hi - lo) && Le(FromLe(b[lo..hi]), hi - lo) == b[lo..hi]
  {
    Writes(b[lo..hi]);
  }

  lemma FieldsEncode(b: seq<Byte>)
    requires |b| == VSOCK_HEADER_BYTES
    ensures FieldsFit(Fields(b)) && Encode(Fields(b)) == b
  {
    hide Le, FromLe;
    Limits();
    Field(b, 0, 8);
    Field(b, 8, 16);
    Field(b, 16, 20);
    Field(b, 20, 24);
    Field(b, 24, 28);
    Field(b, 28, 30);
    Field(b, 30, 32);
    Field(b, 32, 36);
    Field(b, 36, 40);
    Field(b, 40, 44);
    Joined(b);
  }

  lemma Joined(b: seq<Byte>)
    requires |b| == VSOCK_HEADER_BYTES
    ensures b[0..8] + b[8..16] + b[16..20] + b[20..24] + b[24..28] + b[28..30] + b[30..32] + b[32..36] + b[36..40] + b[40..44] == b
  {
  }

  /** Whatever is parsed encodes to exactly the bytes it came from. */
  lemma EncodeParsed(bytes: seq<Byte>)
    ensures Parse(bytes).None? <==> |bytes| < VSOCK_HEADER_BYTES
    ensures Parse(bytes).Some? ==> var (h, rest) := Parse(bytes).value; FieldsFit(h) && Encode(h) + rest == bytes
  {
    hide Encode, Fields;
    if |bytes| >= VSOCK_HEADER_BYTES { FieldsEncode(bytes[..VSOCK_HEADER_BYTES]); }
  }
}
