/** What guest memory shows of the completions so far: the index counts them and the slots hold the latest. */
module UsedHistory {
  import opened Words
  import opened Modular
  import opened UsedRing

  function Slot(mem: seq<Byte>, ring: nat, size: nat, k: nat): (b: seq<Byte>)
    requires size > 0 && RingInMemory(mem, ring, size)
    ensures |b| == 8
  {
    mem[SlotOffset(ring, size, k)..SlotOffset(ring, size, k) + 8]
  }

  /** The used ring records the history: the 16-bit index is its length, and each slot holds its latest completion. */
  predicate Records(mem: seq<Byte>, ring: nat, size: nat, used: seq<Completion>) {
    && IsPowerOfTwo(size) && 0 < size <= U16_LIMIT && RingInMemory(mem, ring, size)
    && UsedIndex(mem, ring) == Wrap16(|used|)
    && forall k :: 0 <= k < |used| && |used| <= k + size ==> Slot(mem, ring, size, k) == Entry(used[k])
  }

  /** The bytes of the ring that completions may change, in an address range. */
  predicate Apart(offset: nat, len: nat, ring: nat, size: nat) {
    offset + len <= ring + 2 || ring + 4 + 8 * size <= offset
  }

  lemma WriteSlice(mem: seq<Byte>, offset: nat, data: seq<Byte>, lo: nat, hi: nat)
    requires offset + |data| <= |mem| && lo <= hi <= |mem| && (offset + |data| <= lo || hi <= offset)
    ensures Write(mem, offset, data)[lo..hi] == mem[lo..hi]
  {
  }

  lemma WrittenSlice(mem: seq<Byte>, offset: nat, data: seq<Byte>)
    requires offset + |data| <= |mem|
    ensures Write(mem, offset, data)[offset..offset + |data|] == data
  {
  }

  /** A write elsewhere leaves the history as it is. */
  lemma WriteApart(mem: seq<Byte>, ring: nat, size: nat, used: seq<Completion>, offset: nat, data: seq<Byte>)
    requires Records(mem, ring, size, used) && offset + |data| <= |mem| && Apart(offset, |data|, ring, size)
    ensures Records(Write(mem, offset, data), ring, size, used)
  {
    hide Write, Entry, IsPowerOfTwo, FromLe16, Wrap16, Mod;
    var after := Write(mem, offset, data);
    WriteSlice(mem, offset, data, ring + 2, ring + 4);
    forall k | 0 <= k < |used| && |used| <= k + size
      ensures Slot(after, ring, size, k) == Entry(used[k])
    {
      var slot := SlotOffset(ring, size, k);
      WriteSlice(mem, offset, data, slot, slot + 8);
      assert Slot(mem, ring, size, k) == Entry(used[k]);
    }
  }

  predicate AllApart(writes: seq<WriteRange>, ring: nat, size: nat) {
    forall k :: 0 <= k < |writes| ==> Apart(writes[k].offset, |writes[k].data|, ring, size)
  }

  lemma {:induction false} WritesApart(mem: seq<Byte>, ring: nat, size: nat, used: seq<Completion>, writes: seq<WriteRange>)
    requires Records(mem, ring, size, used) && InMemory(mem, writes) && AllApart(writes, ring, size)
    ensures Records(ApplyRanges(mem, writes), ring, size, used)
    decreases |writes|
  {
    hide Write, Records;
    if writes != [] {
      WriteApart(mem, ring, size, used, writes[0].offset, writes[0].data);
      WritesApart(Write(mem, writes[0].offset, writes[0].data), ring, size, used, writes[1..]);
    }
  }

  /** One completion adds itself to the history. */
  lemma CompleteRecords(mem: seq<Byte>, ring: nat, size: nat, used: seq<Completion>, c: Completion)
    requires Records(mem, ring, size, used)
    ensures Records(Complete(mem, ring, size, c), ring, size, used + [c])
  {
    hide Write, Entry, IsPowerOfTwo, Mod, Le16, FromLe16;
    var n := |used|;
    var index: int := UsedIndex(mem, ring);
    WrapKeepsSlot(n, size);
    var slot := SlotOffset(ring, size, n);
    var filled := Write(mem, slot, Entry(c));
    var after := Write(filled, ring + 2, Le16(Wrap16(index + 1)));
    assert after == Complete(mem, ring, size, c);
    ReadBack(filled, ring, Wrap16(index + 1));
    NextIndex(n);
    forall k | 0 <= k < n + 1 && n + 1 <= k + size
      ensures Slot(after, ring, size, k) == Entry((used + [c])[k])
    {
      var other := SlotOffset(ring, size, k);
      WriteSlice(filled, ring + 2, Le16(Wrap16(index + 1)), other, other + 8);
      if k == n {
        WrittenSlice(mem, slot, Entry(c));
      } else {
        NotSameSlot(k, n, size);
        WriteSlice(mem, slot, Entry(c), other, other + 8);
        assert Slot(mem, ring, size, k) == Entry(used[k]);
      }
    }
  }

  lemma NextIndex(n: nat)
    ensures Wrap16(Wrap16(n) + 1) == Wrap16(n + 1)
  {
  }

  lemma {:induction false} CompleteAllRecords(mem: seq<Byte>, ring: nat, size: nat, used: seq<Completion>, cs: seq<Completion>)
    requires Records(mem, ring, size, used)
    ensures Records(CompleteAll(mem, ring, size, cs), ring, size, used + cs)
    decreases |cs|
  {
    hide Records, Complete;
    assert size > 0 && RingInMemory(mem, ring, size) by { RecordsRing(mem, ring, size, used); }
    if cs == [] {
      assert used + cs == used;
    } else {
      CompleteRecords(mem, ring, size, used, cs[0]);
      CompleteAllRecords(Complete(mem, ring, size, cs[0]), ring, size, used + [cs[0]], cs[1..]);
      assert used + [cs[0]] + cs[1..] == used + cs;
    }
  }

  lemma RecordsRing(mem: seq<Byte>, ring: nat, size: nat, used: seq<Completion>)
    requires Records(mem, ring, size, used)
    ensures IsPowerOfTwo(size) && 0 < size <= U16_LIMIT && RingInMemory(mem, ring, size) && UsedIndex(mem, ring) == Wrap16(|used|)
  {
  }

  /** Publishing a batch adds it to the history, and touches nothing outside the slots and the index. */
  lemma BatchRecords(mem: seq<Byte>, ring: nat, size: nat, used: seq<Completion>, cs: seq<Completion>)
    requires Records(mem, ring, size, used) && |cs| <= size
    ensures size > 0 && RingInMemory(mem, ring, size)
    ensures var writes := BatchWrites(ring, size, UsedIndex(mem, ring), cs);
            InMemory(mem, writes) && Addressable(writes) && Records(ApplyRanges(mem, writes), ring, size, used + cs)
  {
    hide Records, BatchWrites, CompleteAll, ApplyRanges, InMemory;
    RecordsRing(mem, ring, size, used);
    BatchRefinesSingles(mem, ring, size, cs);
    CompleteAllRecords(mem, ring, size, used, cs);
  }

  /** The writes of a batch stay within the ring that `Apart` describes. */
  lemma BatchWithin(ring: nat, size: nat, index: U16, cs: seq<Completion>, k: nat)
    requires size > 0 && k < |BatchWrites(ring, size, index, cs)|
    ensures var w := BatchWrites(ring, size, index, cs)[k];
            ring + 2 <= w.offset && w.offset + |w.data| <= ring + 4 + 8 * size
  {
    hide Entries, Mod, Wrap16, Le16;
    if k < |SlotWrites(ring, size, index, cs)| { SlotsWithin(ring, size, index, cs, k); }
  }

  lemma {:induction false} SlotsWithin(ring: nat, size: nat, index: U16, cs: seq<Completion>, k: nat)
    requires size > 0 && k < |SlotWrites(ring, size, index, cs)|
    ensures var w := SlotWrites(ring, size, index, cs)[k];
            ring + 4 <= w.offset && w.offset + |w.data| <= ring + 4 + 8 * size
    decreases |cs|
  {
    hide Entry, Mod, Wrap16;
    var count := Min(|cs|, size - Mod(index, size));
    SlotWritesStep(ring, size, index, cs);
    if k > 0 { SlotsWithin(ring, size, Wrap16(index + count), cs[count..], k - 1); }
  }
}
