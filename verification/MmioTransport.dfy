/** The device's registers as machine words, updated in place.

    Ring addresses are 64-bit words changed by masks and shifts. `Regs()` reads them as the numbers of the register
    machine, and every write is proved to have the effect it has there. */
module MmioTransport {
  import opened Words
  import opened MmioRegisters

  datatype QueueWords = QueueWords(num: nat, ready: bool, desc: bv64, avail: bv64, used: bv64)

  function Value(address: bv64): nat {
    address as nat
  }

  function QueueNumbers(q: QueueWords): QueueRegs {
    QueueRegs(q.num, q.ready, Value(q.desc), Value(q.avail), Value(q.used))
  }

  function AllNumbers(queues: seq<QueueWords>): seq<QueueRegs> {
    seq(|queues|, i requires 0 <= i < |queues| => QueueNumbers(queues[i]))
  }

  function NoWords(count: nat): seq<QueueWords> {
    seq(count, i => QueueWords(0, false, 0, 0, 0))
  }

  lemma NoWordsAreNone(count: nat)
    ensures |NoWords(count)| == count && AllNumbers(NoWords(count)) == NoQueues(count)
  {
    assert QueueNumbers(QueueWords(0, false, 0, 0, 0)) == NO_QUEUE;
  }

  lemma UpdateNumbers(queues: seq<QueueWords>, i: nat, q: QueueWords)
    requires i < |queues|
    ensures AllNumbers(queues[i := q]) == AllNumbers(queues)[i := QueueNumbers(q)] && AllNumbers(queues)[i] == QueueNumbers(queues[i])
  {
    hide QueueNumbers;
  }

  /** Replaces one half of an address. */
  function WithHalf(address: bv64, word: bv32, high: bool): bv64 {
    if high then (address & 0xffff_ffff) | ((word as bv64) << 32) else (address & 0xffff_ffff_0000_0000) | word as bv64
  }

  function Join(low: bv32, high: bv32): bv64 {
    ((high as bv64) << 32) | low as bv64
  }

  lemma JoinIsSum(low: bv32, high: bv32)
    ensures Value(Join(low, high)) == Number(high) * U32_LIMIT + Number(low) && Number(low) < U32_LIMIT
  {
    assert (((high as bv64) << 32) | low as bv64) as nat == (high as nat) * 0x1_0000_0000 + low as nat;
  }

  lemma SplitWord(address: bv64) returns (low: bv32, high: bv32)
    ensures address == Join(low, high)
  {
    low, high := (address & 0xffff_ffff) as bv32, (address >> 32) as bv32;
  }

  lemma JoinedHalves(low: bv32, high: bv32, word: bv32)
    ensures WithHalf(Join(low, high), word, true) == Join(low, word)
    ensures WithHalf(Join(low, high), word, false) == Join(word, high)
  {
  }

  lemma HalfOfSum(low: nat, high: nat, word: nat)
    requires low < U32_LIMIT
    ensures SetHalf(high * U32_LIMIT + low, word, true) == word * U32_LIMIT + low
    ensures SetHalf(high * U32_LIMIT + low, word, false) == high * U32_LIMIT + word
  {
    assert (high * U32_LIMIT + low) % U32_LIMIT == low;
  }

  /** Masking and shifting changes the number by replacing its low or high half. */
  lemma HalfIsArithmetic(address: bv64, word: bv32, high: bool)
    ensures Value(WithHalf(address, word, high)) == SetHalf(Value(address), Number(word), high)
  {
    hide WithHalf, Join, SetHalf, Value, Number;
    var l, h := SplitWord(address);
    JoinedHalves(l, h, word);
    JoinIsSum(l, h);
    JoinIsSum(l, word);
    JoinIsSum(word, h);
    HalfOfSum(Number(l), Number(h), Number(word));
  }

  class Transport {
    const ramSize: nat
    const hostFeatures: bv64
    const queueMax: nat
    var guestFeatures: bv64
    var featureSel: nat
    var status: bv8
    var selected: nat
    var queues: seq<QueueWords>
    var interruptStatus: bv32
    var irqLevel: bool
    var irqDirty: bool
    ghost var taken: bool

    ghost function Regs(): Registers
      reads this
    {
      Registers(ramSize, hostFeatures, guestFeatures, featureSel, status, queueMax, selected, AllNumbers(queues),
                interruptStatus, irqLevel, irqDirty)
    }

    ghost predicate Valid()
      reads this
    {
      RegistersOk(Regs(), taken)
    }

    constructor (ramSize: nat, hostFeatures: bv64, queueMax: nat, queueCount: nat)
      ensures Valid() && Regs() == NewRegisters(ramSize, hostFeatures, queueMax, queueCount) && !taken
    {
      this.ramSize, this.hostFeatures, this.queueMax := ramSize, hostFeatures, queueMax;
      guestFeatures, featureSel, status, selected, interruptStatus, irqLevel, irqDirty := 0, 0, 0, 0, 0, false, false;
      var count := if queueCount == 0 then 1 else queueCount;
      queues := NoWords(count);
      taken := false;
      NoWordsAreNone(count);
      NewOk(ramSize, hostFeatures, queueMax, queueCount);
    }

    method SetLevel(level: bool)
      modifies this`irqLevel, this`irqDirty
      ensures irqLevel == level && (irqDirty <==> old(irqDirty) || old(irqLevel) != level)
    {
      if irqLevel != level {
        irqLevel := level;
        irqDirty := true;
      }
    }

    /** Records a cause and raises the line once the driver is ready; the invariant stays unless there is no cause. */
    method Signal(bit: bv32)
      requires Valid()
      modifies this`interruptStatus, this`irqLevel, this`irqDirty
      ensures Regs() == MmioRegisters.Signal(old(Regs()), bit)
      ensures Valid() <==> !Causeless(old(Regs()), bit)
    {
      hide RegistersOk, HasFailed, IsDriving, Raised, AllNumbers, Causeless;
      SignalOk(Regs(), taken, bit);
      if !HasFailed(status) {
        interruptStatus := Raised(interruptStatus, bit);
        if IsDriving(status) {
          SetLevel(true);
        }
      }
    }

    method TakeIrq() returns (level: Option<bool>)
      requires Valid()
      modifies this`irqDirty, this`taken
      ensures Valid() && (Regs(), level) == MmioRegisters.TakeIrq(old(Regs()))
      ensures taken == irqLevel && !irqDirty
    {
      hide StatusOk, QueueOk, Offered, AllNumbers;
      if irqDirty {
        irqDirty := false;
        taken := irqLevel;
        return Some(irqLevel);
      }
      return None;
    }

    method ResetDevice()
      modifies this`queues, this`selected, this`guestFeatures, this`interruptStatus, this`irqLevel, this`irqDirty
      ensures Regs() == MmioRegisters.ResetDevice(old(Regs()))
    {
      hide AllNumbers, NoQueues, NoWords;
      NoWordsAreNone(|queues|);
      assert |AllNumbers(queues)| == |queues| by { CountNumbers(queues); }
      queues := NoWords(|queues|);
      selected := 0;
      guestFeatures := 0;
      interruptStatus := 0;
      SetLevel(false);
    }

    method ArmQueue() returns (armed: bool)
      requires selected < |queues|
      modifies this`queues
      ensures armed == CanArm(ramSize, QueueNumbers(old(queues[selected])))
      ensures queues == if armed then old(queues)[selected := old(queues[selected]).(ready := true)] else old(queues)
    {
      hide Value;
      var q := queues[selected];
      var rings := [(Value(q.desc), q.num * 16), (Value(q.avail), 4 + q.num * 2), (Value(q.used), 4 + q.num * 8)];
      if q.num == 0 {
        return false;
      }
      for i := 0 to 3
        invariant forall k :: 0 <= k < i ==> RingFits(ramSize, rings[k].0, rings[k].1)
        invariant queues == old(queues)
      {
        var (address, len) := rings[i];
        if address == 0 || address + len >= U64_LIMIT || address + len > ramSize {
          assert !RingFits(ramSize, rings[i].0, rings[i].1);
          return false;
        }
      }
      assert RingFits(ramSize, rings[0].0, rings[0].1) && RingFits(ramSize, rings[1].0, rings[1].1) && RingFits(ramSize, rings[2].0, rings[2].1);
      queues := queues[selected := q.(ready := true)];
      return true;
    }

    /** A queue register: addresses move by masks and shifts, and only while the queue is not ready. */
    method WriteSelectedQueue(offset: nat, bits: bv32) returns (outcome: Outcome)
      requires selected < |queues| && IsQueueRegister(offset)
      modifies this`queues
      ensures AllNumbers(old(queues))[selected] == QueueNumbers(old(queues)[selected]) && |queues| == |old(queues)|
      ensures var written := QueueWrite(ramSize, queueMax, QueueNumbers(old(queues)[selected]), offset, Number(bits));
              if written.None? then outcome == Error(BadQueue) && queues == old(queues)
              else outcome == Nothing && AllNumbers(queues) == AllNumbers(old(queues))[selected := written.value]
    {
      hide ValidQueueSize, CanArm, SetHalf, WithHalf, AllNumbers, Number, Value;
      var q := queues[selected];
      var word := Number(bits);
      UpdateNumbers(queues, selected, q);
      if offset == QUEUE_NUM {
        if word >= U16_LIMIT || q.ready || !ValidQueueSize(queueMax, word) {
          return Error(BadQueue);
        }
        q := q.(num := word);
      } else if offset == QUEUE_READY {
        if word > 1 {
          return Error(BadQueue);
        }
        if word == 1 {
          UpdateNumbers(queues, selected, q.(ready := true));
          var armed := ArmQueue();
          return if armed then Nothing else Error(BadQueue);
        }
        q := q.(ready := false);
      } else {
        if q.ready {
          return Error(BadQueue);
        }
        if offset == QUEUE_DESC_LOW || offset == QUEUE_DESC_HIGH {
          HalfIsArithmetic(q.desc, bits, offset == QUEUE_DESC_HIGH);
          q := q.(desc := WithHalf(q.desc, bits, offset == QUEUE_DESC_HIGH));
        } else if offset == QUEUE_AVAIL_LOW || offset == QUEUE_AVAIL_HIGH {
          HalfIsArithmetic(q.avail, bits, offset == QUEUE_AVAIL_HIGH);
          q := q.(avail := WithHalf(q.avail, bits, offset == QUEUE_AVAIL_HIGH));
        } else {
          HalfIsArithmetic(q.used, bits, offset == QUEUE_USED_HIGH);
          q := q.(used := WithHalf(q.used, bits, offset == QUEUE_USED_HIGH));
        }
      }
      UpdateNumbers(queues, selected, q);
      queues := queues[selected := q];
      return Nothing;
    }

    /** What a driver relies on: a refused write changes nothing, a ready queue is frozen until it is disabled or reset,
        and a raised line has a cause. */
    method Write(offset: nat, width: nat, value: bv64) returns (outcome: Outcome)
      requires Valid()
      modifies this
      ensures Valid() && taken == old(taken)
      ensures (Regs(), outcome) == MmioRegisters.Write(old(Regs()), offset, width, value)
      ensures outcome.Error? ==> Regs() == old(Regs())
      ensures forall i: nat :: Frozen(old(Regs()).queues, Regs().queues, i)
      ensures irqLevel ==> interruptStatus != 0
    {
      hide LowWord, LowByte, Number, RegistersOk, WithFeatures, CheckAccess, Offered, QueueWrite, IsQueueRegister, DriveStatus,
        HasFailed, Cleared, AllNumbers, QueueNumbers, Frozen, MmioRegisters.ResetDevice;
      SelectedOk(Regs(), taken);
      CountNumbers(queues);
      WriteOk(Regs(), taken, offset, width, value);
      assert WriteFacts(Regs(), offset, width, value) by { WriteHasFacts(Regs(), offset, width, value); }
      outcome := Perform(offset, width, value);
      assert Regs() == MmioRegisters.Write(old(Regs()), offset, width, value).0;
      LineHasCause(Regs(), taken);
    }

    method DriveStatusRegister(written: bv8) returns (outcome: Outcome)
      modifies this`guestFeatures, this`status, this`selected, this`queues, this`interruptStatus, this`irqLevel, this`irqDirty
      ensures (Regs(), outcome) == WriteStatus(old(Regs()), written)
    {
      hide DriveStatus, HasFailed, AllNumbers, MmioRegisters.ResetDevice;
      var driven := DriveStatus(status, written);
      if driven.None? {
        return Error(BadStatus);
      }
      status := driven.value;
      if status == 0 || HasFailed(status) {
        ResetDevice();
        return Reset;
      }
      return Nothing;
    }

    method Perform(offset: nat, width: nat, value: bv64) returns (outcome: Outcome)
      requires selected < |queues|
      modifies this`guestFeatures, this`featureSel, this`status, this`selected, this`queues, this`interruptStatus, this`irqLevel, this`irqDirty
      ensures |old(Regs()).queues| == |old(queues)| && (Regs(), outcome) == MmioRegisters.Write(old(Regs()), offset, width, value)
    {
      hide LowWord, LowByte, Number, WithFeatures, CheckAccess, Offered, QueueWrite, IsQueueRegister, WriteStatus, Cleared,
        AllNumbers, QueueNumbers;
      CountNumbers(queues);
      var bits := LowWord(value);
      var word := Number(bits);
      var refused := CheckAccess(offset, width);
      if refused.Some? {
        return Error(refused.value);
      }
      if offset == HOST_FEATURES_SEL || offset == GUEST_FEATURES_SEL {
        if word > 1 {
          return Error(BadFeatures);
        }
        featureSel := word;
      } else if offset == GUEST_FEATURES {
        var features := WithFeatures(guestFeatures, featureSel, bits);
        if !Offered(features, hostFeatures) {
          return Error(BadFeatures);
        }
        guestFeatures := features;
      } else if offset == QUEUE_SEL {
        if word >= |queues| {
          return Error(BadQueue);
        }
        selected := word;
      } else if IsQueueRegister(offset) {
        outcome := WriteSelectedQueue(offset, bits);
        return;
      } else if offset == QUEUE_NOTIFY {
        if word >= U16_LIMIT || word >= |queues| {
          return Error(BadQueue);
        }
        ReadyNumber(queues, word);
        return if queues[word].ready then QueueNotify(word) else Error(NotReady);
      } else if offset == INTERRUPT_ACK {
        interruptStatus := Cleared(interruptStatus, bits);
        if interruptStatus == 0 {
          SetLevel(false);
        }
      } else if offset == REG_STATUS && (width == 1 || width == 4) {
        outcome := DriveStatusRegister(LowByte(value));
        return;
      } else {
        return Error(if offset >= CONFIG_BASE then ReadOnly else Unmapped);
      }
      return Nothing;
    }
  }

  lemma CountNumbers(queues: seq<QueueWords>)
    ensures |AllNumbers(queues)| == |queues|
  {
  }

  lemma ReadyNumber(queues: seq<QueueWords>, i: nat)
    requires i < |queues|
    ensures |AllNumbers(queues)| == |queues| && AllNumbers(queues)[i].ready == queues[i].ready
  {
  }

  ghost predicate WriteFacts(r: Registers, offset: nat, width: nat, value: bv64)
    requires r.selected < |r.queues|
  {
    var (after, outcome) := MmioRegisters.Write(r, offset, width, value);
    (outcome.Error? ==> after == r) && forall i: nat :: Frozen(r.queues, after.queues, i)
  }

  lemma WriteHasFacts(r: Registers, offset: nat, width: nat, value: bv64)
    requires r.selected < |r.queues|
    ensures WriteFacts(r, offset, width, value)
  {
    hide MmioRegisters.Write, Frozen;
    if MmioRegisters.Write(r, offset, width, value).1.Error? { RefusedWritesKeep(r, offset, width, value); }
    forall i: nat
      ensures Frozen(r.queues, MmioRegisters.Write(r, offset, width, value).0.queues, i)
    {
      FrozenWhileReady(r, false, WriteEvent(offset, width, value), i);
    }
  }

  lemma LineHasCause(r: Registers, taken: bool)
    requires RegistersOk(r, taken)
    ensures r.irqLevel ==> r.interruptStatus != 0
  {
  }
}
