/** Turns of the queue engine over a transmit and a receive queue. */
module QueueEngine {
  import opened Words
  import opened Modular
  import opened UsedRing
  import opened UsedHistory
  import opened AvailableRing
  import opened ReceiveRing

  // ----- The processing loop

  /** Completions that the first receive steps produced: retries and an idle step take no head. */
  function Received(heads: seq<U16>, outcomes: seq<RxStep>): (done: seq<Completion>)
    ensures |done| <= |outcomes|
    ensures |done| <= |heads| && Heads(done) == heads[..|done|]
  {
    if outcomes == [] then []
    else
      var before := Received(heads, outcomes[..|outcomes| - 1]);
      match outcomes[|outcomes| - 1]
      case Completed(len) => if |before| < |heads| then before + [Completion(heads[|before|], Wrap32(len))] else before
      case _ => before
  }

  function Transmitted(heads: seq<U16>): (done: seq<Completion>)
    ensures |done| == |heads| && Heads(done) == heads
  {
    seq(|heads|, i requires 0 <= i < |heads| => Completion(heads[i], 0))
  }

  /** The lengths of the completed steps, in order. */
  function CompletedLens(outcomes: seq<RxStep>): seq<nat> {
    if outcomes == [] then []
    else (if outcomes[0].Completed? then [outcomes[0].len] else []) + CompletedLens(outcomes[1..])
  }

  lemma {:induction false} CompletedLensAppend(outcomes: seq<RxStep>, last: RxStep)
    ensures CompletedLens(outcomes + [last]) == CompletedLens(outcomes) + if last.Completed? then [last.len] else []
  {
    if outcomes == [] {
      assert outcomes + [last] == [last];
    } else {
      CompletedLensAppend(outcomes[1..], last);
      assert (outcomes + [last])[1..] == outcomes[1..] + [last];
    }
  }

  /** Each completed step fills the next head with its length; other steps fill none. */
  lemma {:induction false} ReceivedMeans(heads: seq<U16>, outcomes: seq<RxStep>)
    ensures var done := Received(heads, outcomes); var lens := CompletedLens(outcomes);
            |done| == Min(|heads|, |lens|) && forall k :: 0 <= k < |done| ==> done[k] == Completion(heads[k], Wrap32(lens[k]))
    decreases |outcomes|
  {
    hide Wrap32, Heads;
    if outcomes != [] {
      var last := |outcomes| - 1;
      ReceivedMeans(heads, outcomes[..last]);
      CompletedLensAppend(outcomes[..last], outcomes[last]);
      assert outcomes[..last] + [outcomes[last]] == outcomes;
    }
  }

  predicate AnyRetry(outcomes: seq<RxStep>, n: nat)
    requires n <= |outcomes|
  {
    exists i :: 0 <= i < n && outcomes[i].Retry?
  }

  predicate AnyPayload(payloads: seq<bool>, n: nat)
    requires n <= |payloads|
  {
    exists i :: 0 <= i < n && payloads[i]
  }

  predicate EndsIdle(outcomes: seq<RxStep>, n: nat)
    requires n <= |outcomes|
  {
    n > 0 && outcomes[n - 1].Idle?
  }

  /** Receive heads are served one a step until they run out, the steps do or there is nothing to send; after an idle
      step the next one comes only with another transmit head. Nothing is served when there was no reason to. */
  predicate ServesReceive(wanted: bool, rxHeads: nat, txHeads: nat, done: nat, maxSteps: nat, outcomes: seq<RxStep>, taken: nat)
    requires taken <= |outcomes|
  {
    && (if wanted then done == rxHeads || taken == maxSteps || EndsIdle(outcomes, taken) else taken == 0)
    && (forall k :: 0 <= k < taken - 1 && outcomes[k].Idle? ==> k + 1 < txHeads)
  }

  lemma NextTransmitted(heads: seq<U16>, payloads: seq<bool>, n: nat)
    requires n < |heads| <= |payloads|
    ensures Transmitted(heads[..n + 1]) == Transmitted(heads[..n]) + [Completion(heads[n], 0)]
    ensures AnyPayload(payloads, n + 1) <==> AnyPayload(payloads, n) || payloads[n]
  {
  }

  lemma NextReceived(heads: seq<U16>, outcomes: seq<RxStep>, n: nat)
    requires n < |outcomes|
    ensures AnyRetry(outcomes, n + 1) <==> AnyRetry(outcomes, n) || outcomes[n].Retry?
    ensures var before := Received(heads, outcomes[..n]);
            Received(heads, outcomes[..n + 1])
            == if outcomes[n].Completed? && |before| < |heads|
               then before + [Completion(heads[|before|], Wrap32(outcomes[n].len))] else before
  {
    assert outcomes[..n + 1][..n] == outcomes[..n];
  }

  /** Alternates transmit and receive heads of two captured batches. `outcomes` are the results of the receive steps
      in the order they are taken, `payloads` says which transmit packets carried data. */
  method ProcessBatches(tx: seq<U16>, rx: seq<U16>, maxSteps: nat, rxPending: bool, outcomes: seq<RxStep>, payloads: seq<bool>)
    returns (txDone: seq<Completion>, rxDone: seq<Completion>, rxEnabled: bool, hasPayload: bool, progressed: bool, taken: nat)
    requires |tx| <= maxSteps && |rx| <= maxSteps && maxSteps <= |outcomes| && |tx| <= |payloads|
    ensures txDone == Transmitted(tx)
    ensures taken <= |outcomes| && rxDone == Received(rx, outcomes[..taken])
    ensures progressed <==> tx != [] || rxDone != [] || AnyRetry(outcomes, taken)
    ensures hasPayload <==> AnyPayload(payloads, |tx|)
    ensures rxEnabled <==> (rxPending || tx != []) && !EndsIdle(outcomes, taken)
    ensures taken <= maxSteps && ServesReceive(rxPending || tx != [], |rx|, |tx|, |rxDone|, maxSteps, outcomes, taken)
  {
    hide Received, Transmitted, AnyRetry, AnyPayload, Heads;
    txDone, rxDone, rxEnabled, hasPayload, progressed, taken := [], [], rxPending || tx != [], false, false, 0;
    NothingProcessed(tx, rx, outcomes, payloads);
    for step := 0 to maxSteps
      invariant |txDone| == Min(step, |tx|) && txDone == Transmitted(tx[..|txDone|])
      invariant taken <= step && rxDone == Received(rx, outcomes[..taken])
      invariant progressed <==> txDone != [] || rxDone != [] || AnyRetry(outcomes, taken)
      invariant hasPayload <==> AnyPayload(payloads, |txDone|)
      invariant |rxDone| <= |rx| && (EndsIdle(outcomes, taken) ==> |rxDone| < |rx|)
      invariant rxEnabled <==> (rxPending || tx != []) && !EndsIdle(outcomes, taken)
      invariant if rxPending || tx != [] then |rxDone| == |rx| || taken == step else taken == 0
      invariant forall k :: 0 <= k < taken - 1 && outcomes[k].Idle? ==> k + 1 < |tx|
    {
      var moved := false;
      if |txDone| < |tx| {
        NextTransmitted(tx, payloads, |txDone|);
        hasPayload := hasPayload || payloads[|txDone|];
        txDone := txDone + [Completion(tx[|txDone|], 0)];
        moved := true;
        rxEnabled := true;
      }
      if rxEnabled && |rxDone| < |rx| {
        NextReceived(rx, outcomes, taken);
        match outcomes[taken] {
          case Completed(len) =>
            rxDone := rxDone + [Completion(rx[|rxDone|], Wrap32(len))];
            moved := true;
          case Retry => moved := true;
          case Idle => rxEnabled := false;
        }
        taken := taken + 1;
      }
      progressed := progressed || moved;
      if !moved {
        break;
      }
    }
    assert tx[..|tx|] == tx;
  }

  lemma NothingProcessed(tx: seq<U16>, rx: seq<U16>, outcomes: seq<RxStep>, payloads: seq<bool>)
    ensures Transmitted(tx[..0]) == [] && Received(rx, outcomes[..0]) == [] && !AnyRetry(outcomes, 0) && !AnyPayload(payloads, 0)
  {
  }

  // ----- The queues

  const RX: nat := 0
  const TX: nat := 1
  const MAX_HELD_TX_COMPLETIONS: nat := 32

  /** A queue after the device completed `done`. */
  function Advance(q: Queue, done: seq<Completion>): Queue {
    q.(used := q.used + done, next := Wrap16(q.next + |done|))
  }

  /** `done` completes the oldest outstanding heads of the queue. */
  predicate CompletesOldest(q: Queue, done: seq<Completion>) {
    |q.used| + |done| <= |q.published| && Heads(done) == q.published[|q.used|..|q.used| + |done|]
  }

  lemma AdvanceOk(q: Queue, done: seq<Completion>)
    requires QueueOk(q) && CompletesOldest(q, done)
    ensures QueueOk(Advance(q, done)) && |done| <= q.size
  {
    hide Mod, IsPowerOfTwo;
    WrapOffset(|q.used|, |done|);
    assert Heads(q.used + done) == Heads(q.used) + Heads(done);
  }

  lemma AdvanceNothing(q: Queue)
    ensures Advance(q, []) == q && (|q.used| <= |q.published| ==> CompletesOldest(q, []))
  {
    WrapWord(q.next);
    assert q.used + [] == q.used;
  }

  lemma QueueLengths(q: Queue)
    requires QueueOk(q)
    ensures |q.used| <= |q.published| && 0 < q.size <= QUEUE_SIZE
  {
  }

  lemma OldestHeads(q: Queue, heads: seq<U16>, done: seq<Completion>)
    requires |q.used| + |heads| <= |q.published| && heads == q.published[|q.used|..|q.used| + |heads|]
    requires |done| <= |heads| && Heads(done) == heads[..|done|]
    ensures CompletesOldest(q, done)
  {
    assert q.published[|q.used|..|q.used| + |heads|][..|done|] == q.published[|q.used|..|q.used| + |done|];
  }

  // ----- Guest memory

  /** The writes that publish a batch on a used ring. */
  function Publication(mem: seq<Byte>, ring: nat, size: nat, done: seq<Completion>): seq<WriteRange>
    requires size > 0 && ring + 4 <= |mem|
  {
    BatchWrites(ring, size, UsedIndex(mem, ring), done)
  }

  /** Two used rings do not overlap. */
  predicate RingsApart(a: nat, aSize: nat, b: nat, bSize: nat) {
    a + 4 + 8 * aSize <= b || b + 4 + 8 * bSize <= a
  }

  /** Writing one queue's batch extends its history and leaves another queue's alone. */
  lemma PublicationRecords(mem: seq<Byte>, ring: nat, size: nat, used: seq<Completion>, done: seq<Completion>)
    requires Records(mem, ring, size, used) && |done| <= size
    ensures size > 0 && RingInMemory(mem, ring, size)
    ensures var writes := Publication(mem, ring, size, done);
            InMemory(mem, writes) && Addressable(writes) && Records(ApplyRanges(mem, writes), ring, size, used + done)
  {
    hide Records, BatchWrites, ApplyRanges, InMemory, UsedIndex;
    BatchRecords(mem, ring, size, used, done);
  }

  lemma PublicationApart(mem: seq<Byte>, ring: nat, size: nat, done: seq<Completion>, other: nat, otherSize: nat, used: seq<Completion>)
    requires size > 0 && ring + 4 <= |mem| && RingsApart(ring, size, other, otherSize)
    requires Records(mem, other, otherSize, used) && InMemory(mem, Publication(mem, ring, size, done))
    ensures Records(ApplyRanges(mem, Publication(mem, ring, size, done)), other, otherSize, used)
  {
    hide Records, BatchWrites, ApplyRanges, InMemory, UsedIndex;
    var writes := Publication(mem, ring, size, done);
    forall k | 0 <= k < |writes|
      ensures Apart(writes[k].offset, |writes[k].data|, other, otherSize)
    {
      BatchWithin(ring, size, UsedIndex(mem, ring), done, k);
    }
    WritesApart(mem, other, otherSize, used, writes);
  }

  // ----- One turn

  /** What the device read of a queue: nothing when it is not ready, an error, or both indices and the available ring. */
  datatype Snapshot = NotReady | Unreadable | Snapshot(available: U16, ring: seq<U16>, usedIndex: U16)

  /** The snapshot shows the queue: an index the guest published at some point, the ring at or after it, and the used index. */
  ghost predicate Shows(q: Queue, mem: seq<Byte>, usedRing: nat, s: Snapshot, seen: nat) {
    s.Snapshot? ==>
      && |q.used| <= seen <= |q.published| && s.available == Wrap16(seen) && s.ring == q.ring
      && usedRing + 4 <= |mem| && s.usedIndex == UsedIndex(mem, usedRing)
  }

  /** A captured batch holds the oldest heads of the queue, up to the limit; an empty one stands for none. */
  predicate Holds(q: Queue, batch: Batch, usedIndex: U16) {
    && |q.used| + |batch.heads| <= |q.published| && batch.heads == q.published[|q.used|..|q.used| + |batch.heads|]
    && (batch.heads != [] ==> batch.size == q.size && batch.usedIndex == usedIndex)
  }

  /** The device's cursors count the completions, and guest memory records them in two separate used rings. */
  ghost predicate Tracked(queues: seq<Queue>, next: seq<U16>, mem: seq<Byte>, usedRings: seq<nat>)
    requires |queues| == |next| == |usedRings| == 2
  {
    && (forall q :: 0 <= q < 2 ==> QueueOk(queues[q]) && next[q] == queues[q].next)
    && (forall q :: 0 <= q < 2 ==> Records(mem, usedRings[q], queues[q].size, queues[q].used))
    && RingsApart(usedRings[RX], queues[RX].size, usedRings[TX], queues[TX].size)
  }

  /** The first `n` heads not yet completed. */
  function Oldest(q: Queue, n: nat): seq<U16>
    requires |q.used| + n <= |q.published|
  {
    q.published[|q.used|..|q.used| + n]
  }

  const EMPTY: Batch := Batch(0, 0, [], false)

  class VsockQueues {
    var next: seq<U16>
    var pending: seq<bool>
    var heldTxCompletions: nat
    var interrupts: nat
    var usedRings: seq<nat>
    var memory: seq<Byte>
    ghost var queues: seq<Queue>

    ghost predicate Valid()
      reads this
    {
      && |next| == |pending| == |queues| == |usedRings| == 2
      && heldTxCompletions < MAX_HELD_TX_COMPLETIONS
      && Tracked(queues, next, memory, usedRings)
    }

    constructor (memory: seq<Byte>, rxRing: nat, txRing: nat, ghost rx: Queue, ghost tx: Queue)
      requires QueueOk(rx) && QueueOk(tx) && rx.next == 0 && tx.next == 0
      requires Records(memory, rxRing, rx.size, rx.used) && Records(memory, txRing, tx.size, tx.used)
      requires RingsApart(rxRing, rx.size, txRing, tx.size)
      ensures Valid() && queues == [rx, tx] && interrupts == 0 && heldTxCompletions == 0 && this.memory == memory
    {
      next, pending, heldTxCompletions, interrupts, queues := [0, 0], [false, false], 0, 0, [rx, tx];
      usedRings, this.memory := [rxRing, txRing], memory;
    }

    /** A transport reset: every cursor starts over on the rings the driver sets up next. */
    method ResetTransport(rxRing: nat, txRing: nat, ghost rx: Queue, ghost tx: Queue)
      requires QueueOk(rx) && QueueOk(tx) && rx.next == 0 && tx.next == 0
      requires Records(memory, rxRing, rx.size, rx.used) && Records(memory, txRing, tx.size, tx.used)
      requires RingsApart(rxRing, rx.size, txRing, tx.size)
      modifies this`next, this`pending, this`heldTxCompletions, this`usedRings, this`queues
      ensures Valid() && queues == [rx, tx] && usedRings == [rxRing, txRing]
      ensures next == [0, 0] && pending == [false, false] && heldTxCompletions == 0
    {
      next, pending, heldTxCompletions, usedRings, queues := [0, 0], [false, false], 0, [rxRing, txRing], [rx, tx];
    }

    /** Captures the oldest heads of a queue. */
    method Capture(q: nat, s: Snapshot, maxSteps: nat, ghost seen: nat) returns (batch: Option<Batch>)
      requires Valid() && q < 2 && Shows(queues[q], memory, usedRings[q], s, seen)
      ensures batch.None? <==> s.Unreadable? || (s.Snapshot? && maxSteps == 0 && seen > |queues[q].used|)
      ensures s.NotReady? ==> batch == Some(EMPTY)
      ensures batch.Some? ==> usedRings[q] + 4 <= |memory| && Holds(queues[q], batch.value, UsedIndex(memory, usedRings[q]))
      ensures s.Snapshot? && batch.Some? ==>
                var left := seen - |queues[q].used|;
                |batch.value.heads| == Min(left, maxSteps) && (batch.value.hasMore <==> left > maxSteps)
    {
      hide IsPowerOfTwo, SnapshotHeads, Resync, Heads, RingHolds, UsedIndex, Records;
      RecordsRing(memory, usedRings[q], queues[q].size, queues[q].used);
      match s {
        case NotReady => return Some(EMPTY);
        case Unreadable => return None;
        case Snapshot(available, ring, usedIndex) =>
          SnapshotIsOldest(queues[q], seen, maxSteps);
          var cursor, count := ResyncPending(next[q], available, |ring|);
          ResyncIsDetermined(next[q], available, |ring|, cursor, count);
          if count == 0 {
            return Some(EMPTY);
          }
          cursor, batch := DecodeBatch(next[q], available, maxSteps, ring, usedIndex);
      }
    }

    /** Writes completions to the used ring and moves the cursor; `wanted` is the guest's interrupt flag afterwards. The
        ranges of a captured batch always exist, so only the write itself can fail. */
    method PublishBatch(q: nat, batch: Batch, done: seq<Completion>, writeOk: bool, wanted: bool) returns (result: Option<bool>)
      requires Valid() && q < 2 && CompletesOldest(queues[q], done) && usedRings[q] + 4 <= |memory|
      requires done != [] ==> batch.size == queues[q].size && batch.usedIndex == UsedIndex(memory, usedRings[q])
      modifies this`next, this`queues, this`memory
      ensures Valid()
      ensures result == if done == [] then Some(false) else if writeOk then Some(wanted) else None
      ensures queues == if result.Some? then old(queues)[q := Advance(old(queues)[q], done)] else old(queues)
      ensures done == [] || !writeOk ==> memory == old(memory)
      ensures done != [] && writeOk ==>
                var writes := Publication(old(memory), usedRings[q], old(queues)[q].size, done);
                InMemory(old(memory), writes) && memory == ApplyRanges(old(memory), writes)
      ensures UsedIndex(memory, usedRings[1 - q]) == old(UsedIndex(memory, usedRings[1 - q]))
    {
      hide IsPowerOfTwo, RingHolds, Heads, BatchWrites, ApplyRanges, UsedIndex, Records, RingsApart, QueueOk;
      AdvanceOk(queues[q], done);
      QueueLengths(queues[q]);
      var ring := usedRings[q];
      ghost var size, otherSize := queues[q].size, queues[1 - q].size;
      RecordsRing(memory, ring, size, queues[q].used);
      RecordsRing(memory, usedRings[1 - q], otherSize, queues[1 - q].used);
      if done == [] {
        AdvanceNothing(queues[q]);
        return Some(false);
      }
      PublicationRecords(memory, ring, size, queues[q].used, done);
      ApartEitherWay(usedRings[RX], queues[RX].size, usedRings[TX], queues[TX].size);
      PublicationApart(memory, ring, size, done, usedRings[1 - q], otherSize, queues[1 - q].used);
      var ranges := CompletionRanges(ring, batch.size, batch.usedIndex, done);
      assert ranges == Ranges(Publication(memory, ring, size, done)) by { SizeOk(queues[q]); }
      if ranges.Failed? {
        assert false;
      }
      if !writeOk {
        return None;
      }
      RecordsRing(ApplyRanges(memory, ranges.ranges), usedRings[1 - q], otherSize, queues[1 - q].used);
      memory := ApplyRanges(memory, ranges.ranges);
      next := next[q := Wrap16(next[q] + |done|)];
      queues := queues[q := Advance(queues[q], done)];
      return Some(wanted);
    }

    /** Receive completions and packets with payload interrupt at once; header-only transmit completions are held. */
    method RequestUsedInterrupt(rxRequested: bool, hasPayload: bool, txRequested: nat)
      requires heldTxCompletions < MAX_HELD_TX_COMPLETIONS
      modifies this`heldTxCompletions, this`interrupts
      ensures heldTxCompletions < MAX_HELD_TX_COMPLETIONS
      ensures var held := old(heldTxCompletions) + txRequested;
              if rxRequested || hasPayload || held >= MAX_HELD_TX_COMPLETIONS
              then heldTxCompletions == 0 && interrupts == old(interrupts) + 1
              else heldTxCompletions == held && interrupts == old(interrupts)
    {
      heldTxCompletions := heldTxCompletions + txRequested;
      if rxRequested || hasPayload || heldTxCompletions >= MAX_HELD_TX_COMPLETIONS {
        heldTxCompletions := 0;
        interrupts := interrupts + 1;
      }
    }

    /** Receive packets written to guest buffers leave both used rings alone. */
    method WriteBuffers(buffers: seq<WriteRange>)
      requires Valid() && InMemory(memory, buffers)
      requires forall q :: 0 <= q < 2 ==> AllApart(buffers, usedRings[q], queues[q].size)
      modifies this`memory
      ensures Valid() && |memory| == |old(memory)|
      ensures forall q :: 0 <= q < 2 ==> usedRings[q] + 4 <= |memory| && UsedIndex(memory, usedRings[q]) == old(UsedIndex(memory, usedRings[q]))
    {
      hide IsPowerOfTwo, RingHolds, Heads, ApplyRanges, UsedIndex, Records, RingsApart, QueueOk;
      forall q | 0 <= q < 2
        ensures Records(ApplyRanges(memory, buffers), usedRings[q], queues[q].size, queues[q].used)
        ensures usedRings[q] + 4 <= |memory| && UsedIndex(ApplyRanges(memory, buffers), usedRings[q]) == UsedIndex(memory, usedRings[q])
      {
        WritesApart(memory, usedRings[q], queues[q].size, queues[q].used, buffers);
        RecordsRing(memory, usedRings[q], queues[q].size, queues[q].used);
        RecordsRing(ApplyRanges(memory, buffers), usedRings[q], queues[q].size, queues[q].used);
      }
      memory := ApplyRanges(memory, buffers);
    }

    /** Captures transmit, then receive when it is pending or transmit has work; none when a read fails. */
    method CaptureTurn(maxSteps: nat, rx: Snapshot, tx: Snapshot, ghost rxSeen: nat, ghost txSeen: nat) returns (batches: Option<(Batch, Batch)>)
      requires Valid() && Shows(queues[RX], memory, usedRings[RX], rx, rxSeen) && Shows(queues[TX], memory, usedRings[TX], tx, txSeen)
      ensures batches.Some? ==>
                var (r, t) := batches.value;
                && usedRings[RX] + 4 <= |memory| && Holds(queues[RX], r, UsedIndex(memory, usedRings[RX])) && |r.heads| <= maxSteps
                && usedRings[TX] + 4 <= |memory| && Holds(queues[TX], t, UsedIndex(memory, usedRings[TX])) && |t.heads| <= maxSteps
                && (pending[TX] && tx.Snapshot? ==>
                      var left := txSeen - |queues[TX].used|;
                      |t.heads| == Min(left, maxSteps) && (t.hasMore <==> left > maxSteps))
                && ((pending[RX] || t.heads != []) && rx.Snapshot? ==>
                      var left := rxSeen - |queues[RX].used|;
                      |r.heads| == Min(left, maxSteps) && (r.hasMore <==> left > maxSteps))
                && (!pending[TX] ==> t == EMPTY) && (!pending[RX] && t.heads == [] ==> r == EMPTY)
    {
      hide QueueOk, Records, UsedIndex;
      RecordsRing(memory, usedRings[RX], queues[RX].size, queues[RX].used);
      RecordsRing(memory, usedRings[TX], queues[TX].size, queues[TX].used);
      QueueLengths(queues[RX]);
      QueueLengths(queues[TX]);
      var t := Some(EMPTY);
      if pending[TX] {
        t := Capture(TX, tx, maxSteps, txSeen);
      }
      if t.None? {
        return None;
      }
      var r := Some(EMPTY);
      if pending[RX] || t.value.heads != [] {
        r := Capture(RX, rx, maxSteps, rxSeen);
      }
      if r.None? {
        return None;
      }
      return Some((r.value, t.value));
    }

    /** Processes two captured batches and writes the receive buffers; used rings and cursors stay. */
    method ProcessTurn(maxSteps: nat, r: Batch, t: Batch, outcomes: seq<RxStep>, payloads: seq<bool>, buffers: seq<WriteRange>)
      returns (tDone: seq<Completion>, rDone: seq<Completion>, rxEnabled: bool, hasPayload: bool, moved: bool, taken: nat)
      requires Valid() && usedRings[RX] + 4 <= |memory| && usedRings[TX] + 4 <= |memory|
      requires Holds(queues[RX], r, UsedIndex(memory, usedRings[RX])) && Holds(queues[TX], t, UsedIndex(memory, usedRings[TX]))
      requires |r.heads| <= maxSteps <= |outcomes| && |t.heads| <= maxSteps <= |payloads|
      requires InMemory(memory, buffers) && forall q :: 0 <= q < 2 ==> AllApart(buffers, usedRings[q], queues[q].size)
      modifies this`memory
      ensures Valid() && |memory| == |old(memory)|
      ensures UsedIndex(memory, usedRings[RX]) == old(UsedIndex(memory, usedRings[RX]))
      ensures UsedIndex(memory, usedRings[TX]) == old(UsedIndex(memory, usedRings[TX]))
      ensures CompletesOldest(queues[RX], rDone) && CompletesOldest(queues[TX], tDone)
      ensures |tDone| == |t.heads| && |rDone| <= |r.heads| && (hasPayload <==> AnyPayload(payloads, |tDone|))
      ensures taken <= maxSteps && rDone == Received(r.heads, outcomes[..taken]) && (!moved ==> rDone == [] && tDone == [])
      ensures ServesReceive(pending[RX] || t.heads != [], |r.heads|, |t.heads|, |rDone|, maxSteps, outcomes, taken)
      ensures rxEnabled <==> (pending[RX] || t.heads != []) && !EndsIdle(outcomes, taken)
    {
      hide AnyPayload, AnyRetry, Transmitted, Heads, Tracked, Received, CompletesOldest, UsedIndex, InMemory, AllApart, ServesReceive, EndsIdle;
      tDone, rDone, rxEnabled, hasPayload, moved, taken :=
        ProcessBatches(t.heads, r.heads, maxSteps, pending[RX], outcomes, payloads);
      WriteBuffers(buffers);
      OldestHeads(queues[TX], t.heads, tDone);
      OldestHeads(queues[RX], r.heads, rDone);
    }

    /** One turn over both queues. Whatever fails, each queue has completed its oldest heads, in order and once, and guest
        memory records exactly the completions so far. */
    method ProcessPending(maxSteps: nat, rx: Snapshot, tx: Snapshot, outcomes: seq<RxStep>, payloads: seq<bool>, buffers: seq<WriteRange>,
                          rxWrite: bool, txWrite: bool, rxWanted: bool, txWanted: bool,
                          ghost rxSeen: nat, ghost txSeen: nat)
      returns (progressed: Option<bool>, rxDone: seq<Completion>, txDone: seq<Completion>, taken: nat)
      requires Valid() && Shows(queues[RX], memory, usedRings[RX], rx, rxSeen) && Shows(queues[TX], memory, usedRings[TX], tx, txSeen)
      requires maxSteps <= |outcomes| && maxSteps <= |payloads|
      requires InMemory(memory, buffers) && forall q :: 0 <= q < 2 ==> AllApart(buffers, usedRings[q], queues[q].size)
      modifies this`next, this`pending, this`queues, this`memory, this`heldTxCompletions, this`interrupts
      ensures Valid()
      ensures CompletesOldest(old(queues)[RX], rxDone) && CompletesOldest(old(queues)[TX], txDone)
      ensures queues[RX] == Advance(old(queues)[RX], rxDone) && queues[TX] == Advance(old(queues)[TX], txDone)
      ensures |rxDone| <= maxSteps && |txDone| <= maxSteps
      ensures progressed.Some? && old(pending)[TX] && tx.Snapshot? ==>
                var left := txSeen - |old(queues)[TX].used|;
                |txDone| == Min(left, maxSteps) && (pending[TX] <==> left > maxSteps)
      ensures progressed == Some(false) ==> rxDone == [] && txDone == []
      ensures taken <= maxSteps
      ensures progressed.Some? && (old(pending)[RX] || txDone != []) && rx.Snapshot? ==>
                var left := rxSeen - |old(queues)[RX].used|;
                && rxDone == Received(Oldest(old(queues)[RX], Min(left, maxSteps)), outcomes[..taken])
                && ServesReceive(true, Min(left, maxSteps), |txDone|, |rxDone|, maxSteps, outcomes, taken)
                && (pending[RX] <==> |rxDone| < left && !EndsIdle(outcomes, taken))
      ensures progressed.Some? && !old(pending)[RX] && txDone == [] ==> rxDone == [] && !pending[RX]
      ensures progressed.Some? ==>
                var held := old(heldTxCompletions) + if txDone != [] && txWanted then |txDone| else 0;
                if (rxDone != [] && rxWanted) || AnyPayload(payloads, |txDone|) || held >= MAX_HELD_TX_COMPLETIONS
                then heldTxCompletions == 0 && interrupts == old(interrupts) + 1
                else heldTxCompletions == held && interrupts == old(interrupts)
    {
      hide AnyPayload, AnyRetry, Transmitted, Heads, Tracked, Received, CompletesOldest, Advance, UsedIndex, Shows, InMemory, AllApart,
        ServesReceive, EndsIdle;
      ghost var before := queues;
      NothingDone(queues, next, memory, usedRings);
      var batches := CaptureTurn(maxSteps, rx, tx, rxSeen, txSeen);
      if batches.None? {
        return None, [], [], 0;
      }
      var (r, t) := batches.value;
      var tDone, rDone, rxEnabled, hasPayload, moved;
      tDone, rDone, rxEnabled, hasPayload, moved, taken := ProcessTurn(maxSteps, r, t, outcomes, payloads, buffers);
      var published;
      published, rxDone, txDone :=
        PublishTurn(r, t, rDone, tDone, rxEnabled, hasPayload, rxWrite, txWrite, rxWanted, txWanted);
      progressed := if published then Some(moved) else None;
    }

    /** Publishes one captured batch; the queue stays pending when work is left and `again` allows it. */
    method PublishQueue(q: nat, batch: Batch, done: seq<Completion>, again: bool, writeOk: bool, wanted: bool) returns (interrupt: Option<bool>)
      requires Valid() && q < 2 && CompletesOldest(queues[q], done) && usedRings[q] + 4 <= |memory|
      requires done != [] ==> batch.size == queues[q].size && batch.usedIndex == UsedIndex(memory, usedRings[q])
      modifies this`next, this`pending, this`queues, this`memory
      ensures Valid() && pending == old(pending)[q := (|done| < |batch.heads| || batch.hasMore) && again]
      ensures interrupt.Some? ==> (interrupt.value <==> done != [] && wanted)
      ensures queues[1 - q] == old(queues[1 - q])
      ensures queues[q] == if interrupt.Some? then Advance(old(queues[q]), done) else old(queues[q])
      ensures |memory| == |old(memory)| && UsedIndex(memory, usedRings[1 - q]) == old(UsedIndex(memory, usedRings[1 - q]))
    {
      hide Tracked, CompletesOldest, Advance, UsedIndex;
      pending := pending[q := (|done| < |batch.heads| || batch.hasMore) && again];
      interrupt := PublishBatch(q, batch, done, writeOk, wanted);
    }

    /** Publishes both batches, transmit first, then decides on the interrupt. */
    method PublishTurn(rxBatch: Batch, txBatch: Batch, rDone: seq<Completion>, tDone: seq<Completion>, rxEnabled: bool,
                       hasPayload: bool, rxWrite: bool, txWrite: bool, rxWanted: bool, txWanted: bool)
      returns (published: bool, rxDone: seq<Completion>, txDone: seq<Completion>)
      requires Valid() && CompletesOldest(queues[RX], rDone) && CompletesOldest(queues[TX], tDone)
      requires usedRings[RX] + 4 <= |memory| && usedRings[TX] + 4 <= |memory|
      requires rDone != [] ==> rxBatch.size == queues[RX].size && rxBatch.usedIndex == UsedIndex(memory, usedRings[RX])
      requires tDone != [] ==> txBatch.size == queues[TX].size && txBatch.usedIndex == UsedIndex(memory, usedRings[TX])
      modifies this`next, this`pending, this`queues, this`memory, this`heldTxCompletions, this`interrupts
      ensures Valid()
      ensures (rxDone == rDone || rxDone == []) && (txDone == tDone || txDone == []) && (published ==> rxDone == rDone && txDone == tDone)
      ensures queues[RX] == Advance(old(queues)[RX], rxDone) && queues[TX] == Advance(old(queues)[TX], txDone)
      ensures published ==> (pending[TX] <==> |tDone| < |txBatch.heads| || txBatch.hasMore)
      ensures published ==> (pending[RX] <==> (|rDone| < |rxBatch.heads| || rxBatch.hasMore) && rxEnabled)
      ensures published ==>
                var held := old(heldTxCompletions) + if tDone != [] && txWanted then |tDone| else 0;
                if (rDone != [] && rxWanted) || hasPayload || held >= MAX_HELD_TX_COMPLETIONS
                then heldTxCompletions == 0 && interrupts == old(interrupts) + 1
                else heldTxCompletions == held && interrupts == old(interrupts)
    {
      hide Tracked, CompletesOldest, Advance, UsedIndex;
      AdvanceNothing(queues[RX]);
      AdvanceNothing(queues[TX]);
      var txInterrupt := PublishQueue(TX, txBatch, tDone, true, txWrite, txWanted);
      if txInterrupt.None? {
        return false, [], [];
      }
      var rxInterrupt := PublishQueue(RX, rxBatch, rDone, rxEnabled, rxWrite, rxWanted);
      if rxInterrupt.None? {
        return false, [], tDone;
      }
      RequestUsedInterrupt(rxInterrupt.value, hasPayload, if txInterrupt.value then |tDone| else 0);
      return true, rDone, tDone;
    }
  }

  lemma NothingDone(queues: seq<Queue>, next: seq<U16>, mem: seq<Byte>, usedRings: seq<nat>)
    requires |queues| == |next| == |usedRings| == 2 && Tracked(queues, next, mem, usedRings)
    ensures forall q :: 0 <= q < 2 ==> Advance(queues[q], []) == queues[q] && CompletesOldest(queues[q], [])
  {
    AdvanceNothing(queues[RX]);
    AdvanceNothing(queues[TX]);
  }

  lemma ApartEitherWay(a: nat, aSize: nat, b: nat, bSize: nat)
    requires RingsApart(a, aSize, b, bSize)
    ensures RingsApart(b, bSize, a, aSize)
  {
  }

  lemma SizeOk(q: Queue)
    requires QueueOk(q)
    ensures ValidSize(q.size)
  {
  }

  // ----- Whole runs of one queue

  /** A queue and the guest memory that holds its used ring. */
  datatype Machine = Machine(q: Queue, usedRing: nat, mem: seq<Byte>)

  /** The guest publishes a head, someone writes memory outside the used ring, or the device takes a turn with the 16-bit
      arithmetic of the source. */
  datatype QueueStep = PublishStep(head: U16) | WriteStep(offset: nat, data: seq<Byte>) | TurnStep(seen: nat, maxSteps: nat, lens: seq<U32>)

  predicate MachineOk(m: Machine) {
    QueueOk(m.q) && Records(m.mem, m.usedRing, m.q.size, m.q.used)
  }

  function TurnHeads(q: Queue, seen: nat, maxSteps: nat): seq<U16>
    requires |q.ring| > 0
  {
    var (cursor, count) := Resync(q.next, Wrap16(seen), |q.ring|);
    SnapshotHeads(q.ring, cursor, Min(count, maxSteps))
  }

  function TurnDone(q: Queue, seen: nat, maxSteps: nat, lens: seq<U32>): (done: seq<Completion>)
    requires |q.ring| > 0 && |lens| <= |TurnHeads(q, seen, maxSteps)|
  {
    var heads := TurnHeads(q, seen, maxSteps);
    seq(|lens|, i requires 0 <= i < |lens| => Completion(heads[i], lens[i]))
  }

  /** A guest that keeps at most `size` heads outstanding; the device completes any prefix of the heads it captured. */
  predicate Enabled(m: Machine, step: QueueStep) {
    match step
    case PublishStep(head) => |m.q.ring| > 0 && |m.q.published| < |m.q.used| + m.q.size
    case WriteStep(offset, data) => offset + |data| <= |m.mem| && Apart(offset, |data|, m.usedRing, m.q.size)
    case TurnStep(seen, maxSteps, lens) =>
      && |m.q.ring| > 0 && |m.q.used| <= seen <= |m.q.published| && |lens| <= |TurnHeads(m.q, seen, maxSteps)|
      && m.q.size > 0 && m.usedRing + 4 <= |m.mem|
      && InMemory(m.mem, Publication(m.mem, m.usedRing, m.q.size, TurnDone(m.q, seen, maxSteps, lens)))
  }

  function Next(m: Machine, step: QueueStep): Machine
    requires Enabled(m, step)
  {
    match step
    case PublishStep(head) => m.(q := Publish(m.q, head))
    case WriteStep(offset, data) => m.(mem := Write(m.mem, offset, data))
    case TurnStep(seen, maxSteps, lens) =>
      var done := TurnDone(m.q, seen, maxSteps, lens);
      m.(q := Advance(m.q.(next := Resync(m.q.next, Wrap16(seen), |m.q.ring|).0), done),
         mem := ApplyRanges(m.mem, Publication(m.mem, m.usedRing, m.q.size, done)))
  }

  predicate Reaches(m: Machine, steps: seq<QueueStep>, after: Machine)
    decreases |steps|
  {
    if steps == [] then after == m
    else Enabled(m, steps[0]) && Reaches(Next(m, steps[0]), steps[1..], after)
  }

  lemma TurnOk(m: Machine, seen: nat, maxSteps: nat, lens: seq<U32>)
    requires MachineOk(m) && Enabled(m, TurnStep(seen, maxSteps, lens))
    ensures MachineOk(Next(m, TurnStep(seen, maxSteps, lens)))
  {
    hide IsPowerOfTwo, Mod, Resync, SnapshotHeads, RingHolds, Wrap16, Records, ApplyRanges, InMemory, Publication;
    SnapshotIsOldest(m.q, seen, maxSteps);
    var done := TurnDone(m.q, seen, maxSteps, lens);
    OldestHeads(m.q, TurnHeads(m.q, seen, maxSteps), done);
    AdvanceOk(m.q, done);
    PublicationRecords(m.mem, m.usedRing, m.q.size, m.q.used, done);
  }

  lemma StepOk(m: Machine, step: QueueStep)
    requires MachineOk(m) && Enabled(m, step)
    ensures MachineOk(Next(m, step))
  {
    hide QueueOk, Records, Write, ApplyRanges, Publication;
    match step
    case PublishStep(head) => PublishOk(m.q, head);
    case WriteStep(offset, data) => WriteApart(m.mem, m.usedRing, m.q.size, m.q.used, offset, data);
    case TurnStep(seen, maxSteps, lens) => TurnOk(m, seen, maxSteps, lens);
  }

  lemma {:induction false} RunOk(m: Machine, steps: seq<QueueStep>, after: Machine)
    requires MachineOk(m) && Reaches(m, steps, after)
    ensures MachineOk(after)
    decreases |steps|
  {
    hide MachineOk, Next, Enabled;
    if steps != [] {
      StepOk(m, steps[0]);
      RunOk(Next(m, steps[0]), steps[1..], after);
    }
  }

  /** Nothing is published or completed, and the used index in memory is zero. */
  predicate IsNew(m: Machine) {
    && ValidSize(m.q.size) && m.q == NewQueue(m.q.size)
    && RingInMemory(m.mem, m.usedRing, m.q.size) && UsedIndex(m.mem, m.usedRing) == 0
  }

  lemma NewOk(m: Machine)
    requires IsNew(m)
    ensures MachineOk(m)
  {
  }

  /** However publications, turns and other writes interleave, and however often the indices wrap: completed heads are the
      oldest published ones, each once and in order; the cursor and the used index in memory have advanced by their
      number; and a driver that reads the used ring finds the heads and lengths of the latest completions. */
  lemma CompletesOnceInOrder(new_: Machine, steps: seq<QueueStep>, after: Machine)
    requires IsNew(new_) && Reaches(new_, steps, after)
    ensures |after.q.used| <= |after.q.published| && Heads(after.q.used) == after.q.published[..|after.q.used|]
    ensures RingInMemory(after.mem, after.usedRing, after.q.size) && after.q.size > 0
    ensures after.q.next == UsedIndex(after.mem, after.usedRing) == Wrap16(|after.q.used|)
    ensures forall k :: 0 <= k < |after.q.used| && |after.q.used| <= k + after.q.size ==>
              DecodeEntry(Slot(after.mem, after.usedRing, after.q.size, k)) == (after.q.used[k].head, after.q.used[k].len)
  {
    hide IsPowerOfTwo, Mod, Next, Enabled, IsNew, Reaches, UsedIndex, Entry, DecodeEntry, Slot;
    NewOk(new_);
    RunOk(new_, steps, after);
    forall k | 0 <= k < |after.q.used| && |after.q.used| <= k + after.q.size
      ensures DecodeEntry(Slot(after.mem, after.usedRing, after.q.size, k)) == (after.q.used[k].head, after.q.used[k].len)
    {
      EntryDecodes(after.q.used[k]);
    }
  }

  /** A turn of the device is always possible: the writes of its batch lie in memory. */
  lemma TurnEnabled(m: Machine, seen: nat, maxSteps: nat, lens: seq<U32>)
    requires MachineOk(m) && |m.q.used| <= seen <= |m.q.published| && |lens| <= Min(seen - |m.q.used|, maxSteps)
    ensures Enabled(m, TurnStep(seen, maxSteps, lens))
  {
    hide IsPowerOfTwo, Mod, RingHolds, Wrap16, Records, InMemory, Publication;
    SnapshotIsOldest(m.q, seen, maxSteps);
    RecordsRing(m.mem, m.usedRing, m.q.size, m.q.used);
    PublicationRecords(m.mem, m.usedRing, m.q.size, m.q.used, TurnDone(m.q, seen, maxSteps, lens));
  }
}
