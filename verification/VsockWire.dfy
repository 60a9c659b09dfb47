/** The virtio-vsock header fields and constants the device core works with. */
module VsockWire {
  import opened Words

  const HOST_CID: nat := 2
  const GUEST_CID: nat := 3
  const AGENT_PORT: nat := 6000
  const CONTROL_PORT: nat := 6001
  const TCP_PORT: nat := 6002
  const UDP_PORT: nat := 6003
  const PUBLICATION_PORT: nat := 6004
  const PUBLICATION_HOST_PORTS_START: nat := 0x0010_0000
  const PUBLICATION_HOST_PORTS_END: nat := 0x0020_0000
  const MAX_NETWORK_SOCKETS: nat := 1024
  const MAX_PACKET_DATA_BYTES: nat := 65536
  const AGENT_UPSTREAM_BYTES: nat := 65536
  const AGENT_REPLY_BYTES: nat := 262144
  const CONTROL_UPSTREAM_BYTES: nat := 32768
  const CONTROL_REPLY_BYTES: nat := 131072
  const FLOW_UPSTREAM_BYTES: nat := 65536
  const FLOW_REPLY_BYTES: nat := 81920
  const VSOCK_HEADER_BYTES: nat := 44

  const MAX_QUEUED_REPLIES: nat := 128
  const MAX_REJECTED_RESETS: nat := 32
  const RESERVED_CONTROL_REPLY_SLOTS: nat := 8

  const TYPE_STREAM: nat := 1
  const OP_REQUEST: nat := 1
  const OP_RESPONSE: nat := 2
  const OP_RST: nat := 3
  const OP_SHUTDOWN: nat := 4
  const OP_RW: nat := 5
  const OP_CREDIT_UPDATE: nat := 6
  const OP_CREDIT_REQUEST: nat := 7
  const FLAG_SHUTDOWN_SEND: nat := 2

  datatype Header = Header(
    srcCid: nat, dstCid: nat, srcPort: nat, dstPort: nat, len: nat,
    type_: nat, op: nat, flags: nat, bufAlloc: nat, fwdCnt: nat)

  /** The credit fields of a header are u32 words. */
  predicate IsHeader(h: Header) {
    h.bufAlloc < U32_LIMIT && h.fwdCnt < U32_LIMIT
  }

  /** `flags & FLAG_SHUTDOWN_RCV != 0` */
  predicate ClosesReceive(flags: nat) {
    flags % 2 == 1
  }

  /** `flags & FLAG_SHUTDOWN_SEND != 0` */
  predicate ClosesSend(flags: nat) {
    flags / 2 % 2 == 1
  }

  predicate IsFlowGuestPort(port: nat) {
    port != 0 && port != AGENT_PORT && port != CONTROL_PORT && port != PUBLICATION_PORT
  }

  predicate IsPublicationHostPort(port: nat) {
    PUBLICATION_HOST_PORTS_START <= port < PUBLICATION_HOST_PORTS_END
  }

  datatype VsockError = Backpressure | Busy | UnknownConnection

  datatype Result<+T> = Ok(value: T) | Err(error: VsockError)
}
