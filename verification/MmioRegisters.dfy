/** The virtio-MMIO register machine and its invariant over every run. */
module MmioRegisters {
  import opened Words

  const HOST_FEATURES_SEL: nat := 0x014
  const GUEST_FEATURES: nat := 0x020
  const GUEST_FEATURES_SEL: nat := 0x024
  const QUEUE_SEL: nat := 0x030
  const QUEUE_NUM: nat := 0x038
  const QUEUE_READY: nat := 0x044
  const QUEUE_NOTIFY: nat := 0x050
  const INTERRUPT_ACK: nat := 0x064
  const REG_STATUS: nat := 0x070
  const QUEUE_DESC_LOW: nat := 0x080
  const QUEUE_DESC_HIGH: nat := 0x084
  const QUEUE_AVAIL_LOW: nat := 0x090
  const QUEUE_AVAIL_HIGH: nat := 0x094
  const QUEUE_USED_LOW: nat := 0x0a0
  const QUEUE_USED_HIGH: nat := 0x0a4
  const CONFIG_BASE: nat := 0x100
  const REGION_BYTES: nat := 0x200
  const MAX_QUEUE_SIZE: nat := 32768

  const ACKNOWLEDGE: bv8 := 1
  const DRIVER: bv8 := 2
  const DRIVER_OK: bv8 := 4
  const FEATURES_OK: bv8 := 8
  const DEVICE_NEEDS_RESET: bv8 := 64
  const FAILED: bv8 := 128

  datatype MmioError = Unmapped | BadLen | Unaligned | BadFeatures | BadStatus | BadQueue | NotReady | ReadOnly
  datatype Outcome = Nothing | QueueNotify(queue: nat) | Reset | Error(error: MmioError)

  datatype QueueRegs = QueueRegs(num: nat, ready: bool, desc: nat, avail: nat, used: nat)
  const NO_QUEUE: QueueRegs := QueueRegs(0, false, 0, 0, 0)

  function NoQueues(count: nat): (queues: seq<QueueRegs>)
    ensures |queues| == count && forall i :: 0 <= i < count ==> queues[i] == NO_QUEUE
  {
    seq(count, i => NO_QUEUE)
  }

  datatype Registers = Registers(
    ramSize: nat, hostFeatures: bv64, guestFeatures: bv64, featureSel: nat, status: bv8, queueMax: nat,
    selected: nat, queues: seq<QueueRegs>, interruptStatus: bv32, irqLevel: bool, irqDirty: bool)

  function NewRegisters(ramSize: nat, hostFeatures: bv64, queueMax: nat, queueCount: nat): Registers {
    Registers(ramSize, hostFeatures, 0, 0, 0, queueMax, 0, NoQueues(if queueCount == 0 then 1 else queueCount), 0, false, false)
  }

  predicate ValidQueueSize(max: nat, size: nat) {
    max != 0 && max <= MAX_QUEUE_SIZE && IsPowerOfTwo(max) && size != 0 && size <= max && IsPowerOfTwo(size)
  }

  /** The first status bit not yet set, in the order a driver must set them. */
  function NextStatus(current: bv8): Option<bv8> {
    if current & ACKNOWLEDGE == 0 then Some(ACKNOWLEDGE)
    else if current & DRIVER == 0 then Some(DRIVER)
    else if current & FEATURES_OK == 0 then Some(FEATURES_OK)
    else if current & DRIVER_OK == 0 then Some(DRIVER_OK)
    else None
  }

  function DriveStatus(current: bv8, written: bv8): Option<bv8> {
    if written == 0 || written == current then Some(written)
    else if HasFailed(current) || written & DEVICE_NEEDS_RESET != 0 then None
    else if HasFailed(written) then Some(current | FAILED)
    else
      var next := NextStatus(current);
      if next.Some? && written == current | next.value then Some(written) else None
  }

  predicate HasFailed(status: bv8) {
    status & FAILED != 0
  }

  predicate IsDriving(status: bv8) {
    status & DRIVER_OK != 0
  }

  predicate Offered(features: bv64, host: bv64) {
    features & !host == 0
  }

  function Cleared(pending: bv32, bits: bv32): bv32 {
    pending & !bits
  }

  function Raised(pending: bv32, bits: bv32): bv32 {
    pending | bits
  }

  function SetIrqLevel(r: Registers, level: bool): Registers {
    if r.irqLevel != level then r.(irqLevel := level, irqDirty := true) else r
  }

  function ResetDevice(r: Registers): Registers {
    SetIrqLevel(r.(queues := NoQueues(|r.queues|), selected := 0, guestFeatures := 0, interruptStatus := 0), false)
  }

  predicate RingFits(ramSize: nat, address: nat, len: nat) {
    address != 0 && address + len < U64_LIMIT && address + len <= ramSize
  }

  predicate CanArm(ramSize: nat, q: QueueRegs) {
    && q.num != 0
    && RingFits(ramSize, q.desc, q.num * 16)
    && RingFits(ramSize, q.avail, 4 + q.num * 2)
    && RingFits(ramSize, q.used, 4 + q.num * 8)
  }

  function SetHalf(address: nat, word: nat, high: bool): nat {
    if high then address % U32_LIMIT + word * U32_LIMIT else address - address % U32_LIMIT + word
  }

  function SetQueue(r: Registers, q: QueueRegs): Registers
    requires r.selected < |r.queues|
  {
    r.(queues := r.queues[r.selected := q])
  }

  /** The features the guest would have accepted after writing one half of them. */
  function WithFeatures(features: bv64, featureSel: nat, word: bv32): bv64 {
    if featureSel == 0 then (features & 0xffff_ffff_0000_0000) | word as bv64
    else (features & 0xffff_ffff) | ((word as bv64) << 32)
  }

  function LowWord(value: bv64): bv32 {
    (value & 0xffff_ffff) as bv32
  }

  function LowByte(value: bv64): bv8 {
    (value & 0xff) as bv8
  }

  function Number(bits: bv32): nat {
    bits as nat
  }

  function CheckAccess(offset: nat, width: nat): Option<MmioError> {
    if width != 1 && width != 2 && width != 4 && width != 8 then Some(BadLen)
    else if offset >= REGION_BYTES || offset + width > REGION_BYTES then Some(Unmapped)
    else if offset % 4 != 0 && offset < CONFIG_BASE then Some(Unaligned)
    else if offset < CONFIG_BASE && offset != REG_STATUS && width != 4 then Some(Unmapped)
    else None
  }

  /** A write to a register of the selected queue, or none when it is refused. */
  function QueueWrite(ramSize: nat, queueMax: nat, q: QueueRegs, offset: nat, word: nat): Option<QueueRegs> {
    if offset == QUEUE_NUM then
      if word >= U16_LIMIT || q.ready || !ValidQueueSize(queueMax, word) then None else Some(q.(num := word))
    else if offset == QUEUE_READY then
      if word == 0 then Some(q.(ready := false))
      else if word != 1 || !CanArm(ramSize, q) then None
      else Some(q.(ready := true))
    else if q.ready then None
    else if offset == QUEUE_DESC_LOW || offset == QUEUE_DESC_HIGH then
      Some(q.(desc := SetHalf(q.desc, word, offset == QUEUE_DESC_HIGH)))
    else if offset == QUEUE_AVAIL_LOW || offset == QUEUE_AVAIL_HIGH then
      Some(q.(avail := SetHalf(q.avail, word, offset == QUEUE_AVAIL_HIGH)))
    else
      Some(q.(used := SetHalf(q.used, word, offset == QUEUE_USED_HIGH)))
  }

  function WriteQueue(r: Registers, offset: nat, word: nat): (Registers, Outcome)
    requires r.selected < |r.queues|
  {
    var written := QueueWrite(r.ramSize, r.queueMax, r.queues[r.selected], offset, word);
    if written.None? then (r, Error(BadQueue)) else (SetQueue(r, written.value), Nothing)
  }

  predicate IsQueueRegister(offset: nat) {
    || offset == QUEUE_NUM || offset == QUEUE_READY
    || offset == QUEUE_DESC_LOW || offset == QUEUE_DESC_HIGH || offset == QUEUE_AVAIL_LOW || offset == QUEUE_AVAIL_HIGH
    || offset == QUEUE_USED_LOW || offset == QUEUE_USED_HIGH
  }

  function WriteStatus(r: Registers, written: bv8): (Registers, Outcome) {
    var status := DriveStatus(r.status, written);
    if status.None? then (r, Error(BadStatus))
    else
      var s := r.(status := status.value);
      if status.value == 0 || HasFailed(status.value) then (ResetDevice(s), Reset) else (s, Nothing)
  }

  function Acknowledge(r: Registers, word: bv32): Registers {
    var acked := r.(interruptStatus := Cleared(r.interruptStatus, word));
    if acked.interruptStatus == 0 then SetIrqLevel(acked, false) else acked
  }

  function Write(r: Registers, offset: nat, width: nat, value: bv64): (Registers, Outcome)
    requires r.selected < |r.queues|
  {
    var bits := LowWord(value);
    var word := Number(bits);
    var refused := CheckAccess(offset, width);
    if refused.Some? then (r, Error(refused.value))
    else if offset == HOST_FEATURES_SEL || offset == GUEST_FEATURES_SEL then
      if word > 1 then (r, Error(BadFeatures)) else (r.(featureSel := word), Nothing)
    else if offset == GUEST_FEATURES then
      if !Offered(WithFeatures(r.guestFeatures, r.featureSel, bits), r.hostFeatures) then (r, Error(BadFeatures))
      else (r.(guestFeatures := WithFeatures(r.guestFeatures, r.featureSel, bits)), Nothing)
    else if offset == QUEUE_SEL then
      if word >= |r.queues| then (r, Error(BadQueue)) else (r.(selected := word), Nothing)
    else if IsQueueRegister(offset) then WriteQueue(r, offset, word)
    else if offset == QUEUE_NOTIFY then
      if word >= U16_LIMIT || word >= |r.queues| then (r, Error(BadQueue))
      else if !r.queues[word].ready then (r, Error(NotReady))
      else (r, QueueNotify(word))
    else if offset == INTERRUPT_ACK then (Acknowledge(r, bits), Nothing)
    else if offset == REG_STATUS && (width == 1 || width == 4) then WriteStatus(r, LowByte(value))
    else (r, Error(if offset >= CONFIG_BASE then ReadOnly else Unmapped))
  }

  function Signal(r: Registers, bit: bv32): Registers {
    if HasFailed(r.status) then r
    else
      var pending := r.(interruptStatus := Raised(r.interruptStatus, bit));
      if IsDriving(r.status) then SetIrqLevel(pending, true) else pending
  }

  function TakeIrq(r: Registers): (Registers, Option<bool>) {
    if r.irqDirty then (r.(irqDirty := false), Some(r.irqLevel)) else (r, None)
  }

  // ----- The invariant

  predicate StatusOk(status: bv8) {
    var driven := status & 0x7f;
    driven == 0 || driven == 1 || driven == 3 || driven == 11 || driven == 15
  }

  predicate QueueOk(ramSize: nat, queueMax: nat, q: QueueRegs) {
    && (q.num == 0 || ValidQueueSize(queueMax, q.num))
    && (q.ready ==> CanArm(ramSize, q))
  }

  /** `taken` is the level last returned to the host. */
  predicate RegistersOk(r: Registers, taken: bool) {
    && r.selected < |r.queues|
    && r.featureSel <= 1
    && Offered(r.guestFeatures, r.hostFeatures)
    && StatusOk(r.status)
    && (forall i :: 0 <= i < |r.queues| ==> QueueOk(r.ramSize, r.queueMax, r.queues[i]))
    && (r.irqLevel ==> r.interruptStatus != 0)
    && (!r.irqDirty ==> taken == r.irqLevel)
  }

  /** How many of the driver's steps a status records: acknowledged, driver found, features agreed, driver ready. */
  function Stage(status: bv8): nat {
    var driven := status & 0x7f;
    if driven == 15 then 4 else if driven == 11 then 3 else if driven == 3 then 2 else if driven == 1 then 1 else 0
  }

  /** An accepted status write resets, repeats, fails at the same stage, or completes exactly the next stage; once failed,
      only a reset or a repetition is accepted. */
  lemma DriveStatusOk(current: bv8, written: bv8)
    requires StatusOk(current) && DriveStatus(current, written).Some?
    ensures var status := DriveStatus(current, written).value;
            && StatusOk(status)
            && (status == 0 || status == current
                || (!HasFailed(current) && HasFailed(status) && Stage(status) == Stage(current))
                || (!HasFailed(current) && !HasFailed(status) && Stage(status) == Stage(current) + 1))
  {
  }

  lemma RaisedBits(a: bv32, b: bv32)
    ensures Raised(a, b) == 0 <==> a == 0 && b == 0
  {
  }

  lemma NoFeatures(host: bv64)
    ensures Offered(0, host)
  {
  }

  lemma SetQueueOk(r: Registers, taken: bool, q: QueueRegs)
    requires RegistersOk(r, taken) && QueueOk(r.ramSize, r.queueMax, q)
    ensures RegistersOk(SetQueue(r, q), taken)
  {
    hide StatusOk, QueueOk, HasFailed, IsDriving, Offered, Cleared, Raised;
  }

  /** Whatever a queue register write leaves is consistent, and leaves a ready queue as it was or not ready. */
  lemma QueueWriteOk(ramSize: nat, queueMax: nat, q: QueueRegs, offset: nat, word: nat)
    requires QueueWrite(ramSize, queueMax, q, offset, word).Some?
    ensures var after := QueueWrite(ramSize, queueMax, q, offset, word).value;
            && (QueueOk(ramSize, queueMax, q) ==> QueueOk(ramSize, queueMax, after))
            && (q.ready && after.ready ==> after == q)
  {
    hide ValidQueueSize, RingFits, SetHalf;
  }

  lemma WriteQueueOk(r: Registers, taken: bool, offset: nat, word: nat)
    requires RegistersOk(r, taken)
    ensures RegistersOk(WriteQueue(r, offset, word).0, taken)
  {
    hide RegistersOk, SetQueue, QueueWrite, QueueOk;
    SelectedOk(r, taken);
    var q := r.queues[r.selected];
    var written := QueueWrite(r.ramSize, r.queueMax, q, offset, word);
    if written.Some? {
      QueueWriteOk(r.ramSize, r.queueMax, q, offset, word);
      SetQueueOk(r, taken, written.value);
    }
  }

  lemma SelectedOk(r: Registers, taken: bool)
    requires RegistersOk(r, taken)
    ensures r.selected < |r.queues| && QueueOk(r.ramSize, r.queueMax, r.queues[r.selected])
  {
  }

  lemma ResetOk(r: Registers, taken: bool)
    requires RegistersOk(r, taken)
    ensures RegistersOk(ResetDevice(r), taken)
  {
    hide StatusOk, ValidQueueSize, CanArm, Offered, NoQueues;
    NoFeatures(r.hostFeatures);
  }

  lemma StatusSetOk(r: Registers, taken: bool, status: bv8)
    requires RegistersOk(r, taken) && StatusOk(status)
    ensures RegistersOk(r.(status := status), taken)
  {
    hide StatusOk, QueueOk, Offered;
  }

  lemma WriteStatusOk(r: Registers, taken: bool, written: bv8)
    requires RegistersOk(r, taken)
    ensures RegistersOk(WriteStatus(r, written).0, taken)
  {
    hide RegistersOk, StatusOk, DriveStatus, ResetDevice, HasFailed;
    assert StatusOk(r.status) by { StatusFact(r, taken); }
    var status := DriveStatus(r.status, written);
    if status.Some? {
      DriveStatusOk(r.status, written);
      StatusSetOk(r, taken, status.value);
      ResetOk(r.(status := status.value), taken);
    }
  }

  lemma StatusFact(r: Registers, taken: bool)
    requires RegistersOk(r, taken)
    ensures StatusOk(r.status)
  {
  }

  lemma SelectorsOk(r: Registers, taken: bool, features: bv64, featureSel: nat, selected: nat)
    requires RegistersOk(r, taken)
    ensures featureSel <= 1 ==> RegistersOk(r.(featureSel := featureSel), taken)
    ensures selected < |r.queues| ==> RegistersOk(r.(selected := selected), taken)
    ensures Offered(features, r.hostFeatures) ==> RegistersOk(r.(guestFeatures := features), taken)
  {
    hide StatusOk, QueueOk, Offered;
  }

  lemma AcknowledgeOk(r: Registers, taken: bool, bits: bv32)
    requires RegistersOk(r, taken)
    ensures RegistersOk(Acknowledge(r, bits), taken)
  {
    hide StatusOk, QueueOk, Offered, Cleared;
  }

  lemma WriteOk(r: Registers, taken: bool, offset: nat, width: nat, value: bv64)
    requires RegistersOk(r, taken)
    ensures r.selected < |r.queues| && RegistersOk(Write(r, offset, width, value).0, taken)
  {
    hide LowWord, LowByte, Number, RegistersOk, WithFeatures, WriteQueue, WriteStatus, CheckAccess, Offered, Acknowledge, IsQueueRegister;
    SelectedOk(r, taken);
    var bits := LowWord(value);
    var word := Number(bits);
    SelectorsOk(r, taken, WithFeatures(r.guestFeatures, r.featureSel, bits), word, word);
    AcknowledgeOk(r, taken, bits);
    WriteQueueOk(r, taken, offset, word);
    WriteStatusOk(r, taken, LowByte(value));
  }

  /** The line would be raised without a cause: a signal that carries no bit while none is pending. */
  predicate Causeless(r: Registers, bit: bv32) {
    bit == 0 && r.interruptStatus == 0 && !HasFailed(r.status) && IsDriving(r.status)
  }

  /** A signal keeps the invariant exactly when it does not raise the line without a cause. */
  lemma SignalOk(r: Registers, taken: bool, bit: bv32)
    requires RegistersOk(r, taken)
    ensures RegistersOk(Signal(r, bit), taken) <==> !Causeless(r, bit)
  {
    hide StatusOk, QueueOk, HasFailed, IsDriving, Offered, Cleared, Raised;
    RaisedBits(r.interruptStatus, bit);
  }

  // ----- Runs

  datatype Event =
    | WriteEvent(offset: nat, width: nat, value: bv64)
    | SignalEvent(bit: bv32)
    | TakeEvent

  /** The device signals with a nonzero interrupt bit. */
  predicate Allowed(e: Event) {
    e.SignalEvent? ==> e.bit != 0
  }

  /** The registers and the level last handed to the host. */
  function Next(r: Registers, taken: bool, e: Event): (Registers, bool)
    requires r.selected < |r.queues|
  {
    match e
    case WriteEvent(offset, width, value) => (Write(r, offset, width, value).0, taken)
    case SignalEvent(bit) => (Signal(r, bit), taken)
    case TakeEvent => (TakeIrq(r).0, if TakeIrq(r).1.Some? then TakeIrq(r).1.value else taken)
  }

  lemma StepOk(r: Registers, taken: bool, e: Event)
    requires RegistersOk(r, taken) && Allowed(e)
    ensures r.selected < |r.queues| && RegistersOk(Next(r, taken, e).0, Next(r, taken, e).1)
  {
    hide Write, Signal, StatusOk, QueueOk, HasFailed, IsDriving, Offered, Cleared, Raised;
    match e
    case WriteEvent(offset, width, value) => WriteOk(r, taken, offset, width, value);
    case SignalEvent(bit) => SignalOk(r, taken, bit);
    case TakeEvent =>
  }

  /** The selected queue always exists. */
  function Run(r: Registers, taken: bool, events: seq<Event>): (Registers, bool)
    decreases |events|
  {
    if events == [] || r.selected >= |r.queues| then (r, taken)
    else
      var (s, t) := Next(r, taken, events[0]);
      Run(s, t, events[1..])
  }

  lemma {:induction false} RunOk(r: Registers, taken: bool, events: seq<Event>)
    requires RegistersOk(r, taken) && forall k :: 0 <= k < |events| ==> Allowed(events[k])
    ensures var (s, t) := Run(r, taken, events); RegistersOk(s, t)
    decreases |events|
  {
    hide RegistersOk, Next;
    if events != [] {
      StepOk(r, taken, events[0]);
      var (s, t) := Next(r, taken, events[0]);
      RunOk(s, t, events[1..]);
    }
  }

  /** Over every sequence of register writes, signals and line readings. */
  lemma RegisterSafety(ramSize: nat, hostFeatures: bv64, queueMax: nat, queueCount: nat, events: seq<Event>)
    requires forall k :: 0 <= k < |events| ==> Allowed(events[k])
    ensures var (r, taken) := Run(NewRegisters(ramSize, hostFeatures, queueMax, queueCount), false, events);
            && (forall i :: 0 <= i < |r.queues| && r.queues[i].ready ==> RingsInRam(r.ramSize, r.queueMax, r.queues[i]))
            && Offered(r.guestFeatures, r.hostFeatures)
            && StatusOk(r.status)
            && (r.irqLevel ==> r.interruptStatus != 0)
            && (!r.irqDirty ==> taken == r.irqLevel)
  {
    hide StatusOk, ValidQueueSize, RingFits, HasFailed, IsDriving, Offered, Cleared, Raised;
    NewOk(ramSize, hostFeatures, queueMax, queueCount);
    RunOk(NewRegisters(ramSize, hostFeatures, queueMax, queueCount), false, events);
    var (r, taken) := Run(NewRegisters(ramSize, hostFeatures, queueMax, queueCount), false, events);
    forall i | 0 <= i < |r.queues| && r.queues[i].ready
      ensures RingsInRam(r.ramSize, r.queueMax, r.queues[i])
    {
      assert QueueOk(r.ramSize, r.queueMax, r.queues[i]);
      ArmedInRam(r.ramSize, r.queueMax, r.queues[i]);
    }
  }

  /** A power of two of descriptors of 16 bytes, and the two rings with their headers, none at address zero. */
  predicate RingsInRam(ramSize: nat, queueMax: nat, q: QueueRegs) {
    && 0 < q.num <= queueMax && IsPowerOfTwo(q.num)
    && 0 < q.desc && q.desc + 16 * q.num <= ramSize
    && 0 < q.avail && q.avail + 4 + 2 * q.num <= ramSize
    && 0 < q.used && q.used + 4 + 8 * q.num <= ramSize
  }

  lemma ArmedInRam(ramSize: nat, queueMax: nat, q: QueueRegs)
    requires QueueOk(ramSize, queueMax, q) && q.ready
    ensures RingsInRam(ramSize, queueMax, q)
  {
  }

  lemma NewOk(ramSize: nat, hostFeatures: bv64, queueMax: nat, queueCount: nat)
    ensures RegistersOk(NewRegisters(ramSize, hostFeatures, queueMax, queueCount), false)
  {
    NoFeatures(hostFeatures);
  }

  /** Queue `i` is the same as before, or it is not ready before or after. */
  predicate Frozen(before: seq<QueueRegs>, after: seq<QueueRegs>, i: nat) {
    |after| == |before| && (i < |before| && before[i].ready && after[i].ready ==> after[i] == before[i])
  }

  lemma SameIsFrozen(queues: seq<QueueRegs>, i: nat)
    ensures Frozen(queues, queues, i)
  {
  }

  /** A ready queue is frozen: no event changes it and leaves it ready. */
  lemma FrozenWhileReady(r: Registers, taken: bool, e: Event, i: nat)
    requires r.selected < |r.queues|
    ensures Frozen(r.queues, Next(r, taken, e).0.queues, i)
  {
    hide Frozen, LowWord, LowByte, Number, WithFeatures, WriteQueue, WriteStatus, CheckAccess, Offered, IsQueueRegister, Acknowledge, Signal, TakeIrq;
    SameIsFrozen(r.queues, i);
    match e
    case WriteEvent(offset, width, value) =>
      FrozenQueue(r, offset, Number(LowWord(value)), i);
      FrozenStatus(r, LowByte(value), i);
      InterruptsKeepQueues(r, LowWord(value));
    case SignalEvent(bit) => InterruptsKeepQueues(r, bit);
    case TakeEvent => InterruptsKeepQueues(r, 0);
  }

  lemma InterruptsKeepQueues(r: Registers, bits: bv32)
    ensures Signal(r, bits).queues == TakeIrq(r).0.queues == Acknowledge(r, bits).queues == r.queues
  {
    hide HasFailed, IsDriving, Cleared, Raised;
  }

  lemma FrozenQueue(r: Registers, offset: nat, word: nat, i: nat)
    requires r.selected < |r.queues|
    ensures Frozen(r.queues, WriteQueue(r, offset, word).0.queues, i)
  {
    hide QueueWrite, QueueOk;
    var written := QueueWrite(r.ramSize, r.queueMax, r.queues[r.selected], offset, word);
    if written.Some? { QueueWriteOk(r.ramSize, r.queueMax, r.queues[r.selected], offset, word); }
  }

  lemma FrozenStatus(r: Registers, written: bv8, i: nat)
    ensures Frozen(r.queues, WriteStatus(r, written).0.queues, i)
  {
    hide DriveStatus, HasFailed, NoQueues;
  }

  /** A refused write changes nothing. */
  lemma RefusedWritesKeep(r: Registers, offset: nat, width: nat, value: bv64)
    requires r.selected < |r.queues| && Write(r, offset, width, value).1.Error?
    ensures Write(r, offset, width, value).0 == r
  {
    hide LowWord, LowByte, Number, DriveStatus, WithFeatures, ValidQueueSize, CanArm, SetHalf, CheckAccess, HasFailed, IsDriving, Offered, Cleared, Raised;
  }

  // ----- What a driver gets

  /** A driver sets a queue's size and the six address halves, then makes it ready. */
  function SetUp(ramSize: nat, queueMax: nat, q: QueueRegs, num: nat, desc: nat, avail: nat, used: nat): Option<QueueRegs> {
    var size := QueueWrite(ramSize, queueMax, q, QUEUE_NUM, num);
    if size.None? then None
    else
      var d := SetAddress(ramSize, queueMax, size.value, QUEUE_DESC_LOW, QUEUE_DESC_HIGH, desc);
      var a := if d.None? then None else SetAddress(ramSize, queueMax, d.value, QUEUE_AVAIL_LOW, QUEUE_AVAIL_HIGH, avail);
      var u := if a.None? then None else SetAddress(ramSize, queueMax, a.value, QUEUE_USED_LOW, QUEUE_USED_HIGH, used);
      if u.None? then None else QueueWrite(ramSize, queueMax, u.value, QUEUE_READY, 1)
  }

  function SetAddress(ramSize: nat, queueMax: nat, q: QueueRegs, low: nat, high: nat, address: nat): Option<QueueRegs> {
    var first := QueueWrite(ramSize, queueMax, q, low, address % U32_LIMIT);
    if first.None? then None else QueueWrite(ramSize, queueMax, first.value, high, address / U32_LIMIT)
  }

  lemma LowOfSum(k: nat, low: nat)
    requires low < U32_LIMIT
    ensures (U32_LIMIT * k + low) % U32_LIMIT == low
  {
  }

  lemma HalvesJoin(old_: nat, address: nat)
    ensures SetHalf(SetHalf(old_, address % U32_LIMIT, false), address / U32_LIMIT, true) == address
  {
    var k, low, high := old_ / U32_LIMIT, address % U32_LIMIT, address / U32_LIMIT;
    assert old_ - old_ % U32_LIMIT == U32_LIMIT * k;
    LowOfSum(k, low);
    assert SetHalf(old_, low, false) == U32_LIMIT * k + low;
    assert low + high * U32_LIMIT == address;
  }

  /** Whatever the queue held before, it becomes ready with exactly the size and addresses written, if and only if it was
      not ready, the size is valid and all three rings lie in RAM. */
  lemma SetUpQueue(ramSize: nat, queueMax: nat, q: QueueRegs, num: nat, desc: nat, avail: nat, used: nat)
    requires desc < U64_LIMIT && avail < U64_LIMIT && used < U64_LIMIT
    ensures var wanted := QueueRegs(num, true, desc, avail, used);
            SetUp(ramSize, queueMax, q, num, desc, avail, used)
            == if !q.ready && num < U16_LIMIT && ValidQueueSize(queueMax, num) && CanArm(ramSize, wanted) then Some(wanted) else None
  {
    hide ValidQueueSize, RingFits, SetHalf;
    HalvesJoin(q.desc, desc);
    HalvesJoin(q.avail, avail);
    HalvesJoin(q.used, used);
  }
}
