/** What a driver gets from the virtio-MMIO registers: bring-up, features, acknowledged interrupts and reset. */
module MmioDriver {
  import opened Words
  import opened MmioRegisters

  // ----- Interrupt causes

  /** `left` holds none of the named causes, and with the pending ones among them makes up what was pending. */
  predicate IsRest(left: bv32, pending: bv32, named: bv32) {
    (left & named) == 0 && (left | (pending & named)) == pending
  }

  lemma ClearedNothing(pending: bv32, bits: bv32)
    ensures ((pending & !bits) & bits) == 0
  {
  }

  lemma ClearedParts(pending: bv32, bits: bv32)
    ensures ((pending & !bits) | (pending & bits)) == pending
  {
  }

  lemma ClearedIsRest(pending: bv32, bits: bv32)
    ensures IsRest(Cleared(pending, bits), pending, bits)
  {
    ClearedNothing(pending, bits);
    ClearedParts(pending, bits);
  }

  /** An acknowledgement leaves exactly the causes it does not name, and the line falls exactly when none is left. */
  lemma AcknowledgeLeaves(r: Registers, taken: bool, value: bv64)
    requires RegistersOk(r, taken)
    ensures var (after, outcome) := Write(r, INTERRUPT_ACK, 4, value);
            && outcome == Nothing
            && IsRest(after.interruptStatus, r.interruptStatus, LowWord(value))
            && after.irqLevel == (r.irqLevel && after.interruptStatus != 0)
            && after == r.(interruptStatus := after.interruptStatus, irqLevel := after.irqLevel, irqDirty := after.irqDirty)
  {
    hide RegistersOk, StatusOk, Offered, LowWord, Number, Cleared, IsRest, QueueWrite, WithFeatures;
    ClearedIsRest(r.interruptStatus, LowWord(value));
    SelectedOk(r, taken);
    LineHasCause(r, taken);
    ClearedNone(LowWord(value));
  }

  lemma LineHasCause(r: Registers, taken: bool)
    requires RegistersOk(r, taken)
    ensures r.irqLevel ==> r.interruptStatus != 0
  {
  }

  lemma ClearedNone(bits: bv32)
    ensures Cleared(0, bits) == 0
  {
  }

  /** Acknowledging every pending cause lowers the line. */
  lemma AcknowledgeAll(r: Registers, taken: bool, value: bv64)
    requires RegistersOk(r, taken) && LowWord(value) == r.interruptStatus
    ensures var after := Write(r, INTERRUPT_ACK, 4, value).0;
            after.interruptStatus == 0 && !after.irqLevel
  {
    hide RegistersOk, StatusOk, Offered, LowWord, Number, Cleared, QueueWrite, WithFeatures;
    SelectedOk(r, taken);
    ClearedSelf(r.interruptStatus);
  }

  lemma ClearedSelf(bits: bv32)
    ensures Cleared(bits, bits) == 0
  {
  }

  predicate Includes(word: bv32, bits: bv32) {
    (word & bits) == bits
  }

  predicate SameOutside(a: bv32, b: bv32, bits: bv32) {
    (a & !bits) == (b & !bits)
  }

  lemma RaisedIncludes(pending: bv32, bits: bv32)
    ensures Includes(Raised(pending, bits), bits)
  {
  }

  lemma RaisedOutside(pending: bv32, bits: bv32)
    ensures SameOutside(Raised(pending, bits), pending, bits)
  {
  }

  /** A signal adds exactly its causes: they are all pending, and what is left without them is what was left before. The
      line rises once the driver is ready. */
  lemma SignalAdds(r: Registers, bits: bv32)
    requires !HasFailed(r.status)
    ensures var after := Signal(r, bits);
            && Includes(after.interruptStatus, bits) && SameOutside(after.interruptStatus, r.interruptStatus, bits)
            && after.irqLevel == (r.irqLevel || IsDriving(r.status))
            && after == r.(interruptStatus := after.interruptStatus, irqLevel := after.irqLevel, irqDirty := after.irqDirty)
  {
    hide HasFailed, IsDriving, Includes, SameOutside, Raised, Signal;
    SignalShape(r, bits);
    RaisedIncludes(r.interruptStatus, bits);
    RaisedOutside(r.interruptStatus, bits);
  }

  lemma SignalShape(r: Registers, bits: bv32)
    requires !HasFailed(r.status)
    ensures var after := Signal(r, bits);
            && after.interruptStatus == Raised(r.interruptStatus, bits) && after.irqLevel == (r.irqLevel || IsDriving(r.status))
            && after == r.(interruptStatus := after.interruptStatus, irqLevel := after.irqLevel, irqDirty := after.irqDirty)
  {
  }

  /** A failed device stays silent. */
  lemma FailedIsSilent(r: Registers, bits: bv32)
    requires HasFailed(r.status)
    ensures Signal(r, bits) == r
  {
  }

  // ----- Reset and bring-up

  /** Writing status zero makes the device new again, except for the feature selector and a fall of the line that the host
      has yet to hear of. */
  lemma ResetRenews(r: Registers, taken: bool)
    requires RegistersOk(r, taken)
    ensures var (after, outcome) := Write(r, REG_STATUS, 4, 0);
            && outcome == Reset
            && after == NewRegisters(r.ramSize, r.hostFeatures, r.queueMax, |r.queues|).(
                 featureSel := r.featureSel, irqDirty := r.irqDirty || r.irqLevel)
  {
    hide RegistersOk, StatusOk, Offered, LowWord, Number, QueueWrite, WithFeatures;
    SelectedOk(r, taken);
    assert LowByte(0) == 0;
    assert !HasFailed(0);
    assert NoQueues(|r.queues|) == NewRegisters(r.ramSize, r.hostFeatures, r.queueMax, |r.queues|).queues;
  }

  /** The status a driver has reached after so many of its steps. */
  function StatusAt(stage: nat): bv8
    requires stage <= 4
  {
    if stage == 4 then 15 else if stage == 3 then 11 else if stage == 2 then 3 else if stage == 1 then 1 else 0
  }

  /** From every stage of a driver that has not failed, exactly the next stage is accepted among all stages ahead. */
  lemma NextStageAccepted(stage: nat, wanted: nat)
    requires stage < wanted <= 4
    ensures DriveStatus(StatusAt(stage), StatusAt(wanted)) == if wanted == stage + 1 then Some(StatusAt(wanted)) else None
  {
  }

  /** A doorbell is passed on exactly for a ready queue, and changes nothing. */
  lemma NotifyReady(r: Registers, taken: bool, value: bv64, q: nat)
    requires RegistersOk(r, taken) && |r.queues| <= U16_LIMIT
    ensures var (after, outcome) := Write(r, QUEUE_NOTIFY, 4, value);
            && after == r
            && (outcome == QueueNotify(q) <==> q == Number(LowWord(value)) && q < |r.queues| && r.queues[q].ready)
  {
    hide RegistersOk, StatusOk, Offered, LowWord, Number, QueueWrite, WithFeatures;
    SelectedOk(r, taken);
  }

  // ----- Features

  function Features(low: bv32, high: bv32): bv64 {
    ((high as bv64) << 32) | low as bv64
  }

  function Wide(word: bv32): bv64 {
    word as bv64
  }

  /** The driver writes both halves of the features it wants. */
  function Negotiate(r: Registers, low: bv32, high: bv32): Option<Registers>
    requires r.selected < |r.queues|
  {
    var (a, first) := Write(r, GUEST_FEATURES_SEL, 4, 0);
    var (b, second) := Write(a, GUEST_FEATURES, 4, Wide(low));
    var (c, third) := Write(b, GUEST_FEATURES_SEL, 4, 1);
    var (d, fourth) := Write(c, GUEST_FEATURES, 4, Wide(high));
    if first == second == third == fourth == Nothing then Some(d) else None
  }

  lemma WideLow(word: bv32)
    ensures LowWord(Wide(word)) == word
  {
  }

  lemma Selectors()
    ensures Number(LowWord(0)) == 0 && Number(LowWord(1)) == 1
  {
  }

  lemma LowHalf(low: bv32, high: bv32)
    ensures WithFeatures(0, 0, low) == Features(low, 0)
    ensures WithFeatures(Features(low, 0), 1, high) == Features(low, high)
  {
  }

  lemma OfferedHalves(low: bv32, high: bv32, host: bv64)
    ensures Offered(Features(low, high), host) ==> Offered(Features(low, 0), host)
  {
  }

  /** After a reset, writing both halves is accepted if and only if the host offers all of the features, and leaves exactly
      those. */
  lemma NegotiateFeatures(r: Registers, low: bv32, high: bv32)
    requires r.selected < |r.queues| && r.guestFeatures == 0
    ensures Negotiate(r, low, high)
            == if Offered(Features(low, high), r.hostFeatures) then Some(r.(guestFeatures := Features(low, high), featureSel := 1)) else None
  {
    hide Offered, LowWord, Number, WithFeatures, Features, Wide, QueueWrite;
    Selectors();
    WideLow(low);
    WideLow(high);
    LowHalf(low, high);
    OfferedHalves(low, high, r.hostFeatures);
  }
}
