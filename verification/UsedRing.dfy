/** Completions in the used ring: one batched write refines one completion at a time. */
module UsedRing {
  import opened Words
  import opened Modular
  import opened LittleEndian

  const QUEUE_SIZE: nat := 256

  datatype Completion = Completion(head: U16, len: U32)
  datatype WriteRange = WriteRange(offset: nat, data: seq<Byte>)
  datatype RingError = BadLen | Unmapped
  datatype RangesResult = Ranges(ranges: seq<WriteRange>) | Failed(error: RingError)

  // ----- Bytes

  function Le16(v: U16): (b: seq<Byte>)
    ensures |b| == 2
  {
    [(v % 256) as Byte, (v / 256) as Byte]
  }

  function FromLe16(b: seq<Byte>): U16
    requires |b| == 2
  {
    b[0] as int + 256 * b[1] as int
  }

  function Le32(v: U32): (b: seq<Byte>)
    ensures |b| == 4
  {
    Le16(v % 65536) + Le16(v / 65536)
  }

  function Entry(c: Completion): (b: seq<Byte>)
    ensures |b| == 8
  {
    Le32(c.head) + Le32(c.len)
  }

  lemma Le16Writes(v: U16)
    ensures Le16(v) == Le(v, 2)
  {
    assert v / 256 % 256 == v / 256;
    assert Le(v / 256, 1) == [(v / 256 % 256) as Byte] + [];
  }

  lemma Le16Reads(b: seq<Byte>)
    requires |b| == 2
    ensures FromLe16(b) == FromLe(b)
  {
    assert FromLe(b[1..]) == b[1] as nat + 256 * FromLe(b[1..][1..]);
  }

  lemma LeHalves(v: nat)
    ensures Le(v, 4) == Le(v, 2) + Le(v / 65536, 2)
  {
    assert v / 256 / 256 == v / 65536;
    assert Le(v, 4) == [(v % 256) as Byte] + Le(v / 256, 3);
    assert Le(v / 256, 3) == [(v / 256 % 256) as Byte] + Le(v / 256 / 256, 2);
    assert Le(v, 2) == [(v % 256) as Byte] + Le(v / 256, 1);
    assert Le(v / 256, 1) == [(v / 256 % 256) as Byte] + Le(v / 256 / 256, 0);
  }

  lemma Le32Writes(v: U32)
    ensures Le32(v) == Le(v, 4)
  {
    hide Le, Le16;
    LeHalves(v);
    Le16Writes(v % 65536);
    Le16Writes(v / 65536);
    LeLow(v);
  }

  /** The lowest bytes of a number depend on its remainder only. */
  lemma LeLow(v: nat)
    ensures Le(v, 2) == Le(v % 65536, 2)
  {
    assert v % 65536 % 256 == v % 256;
    assert v % 65536 / 256 % 256 == v / 256 % 256;
    assert Le(v / 256, 1) == [(v / 256 % 256) as Byte] + [] && Le(v % 65536 / 256, 1) == [(v % 65536 / 256 % 256) as Byte] + [];
  }

  /** What a driver reads in a slot of the used ring: the head and the length. */
  function DecodeEntry(b: seq<Byte>): (nat, nat)
    requires |b| == 8
  {
    (FromLe(b[..4]), FromLe(b[4..]))
  }

  lemma EntryDecodes(c: Completion)
    ensures DecodeEntry(Entry(c)) == (c.head, c.len)
  {
    hide Le, FromLe, Le32;
    var b := Entry(c);
    assert b[..4] == Le32(c.head) && b[4..] == Le32(c.len);
    Le32Writes(c.head);
    Le32Writes(c.len);
    Limits();
    Reads(c.head, 4);
    Reads(c.len, 4);
  }

  function Entries(cs: seq<Completion>): (b: seq<Byte>)
    ensures |b| == 8 * |cs|
  {
    if cs == [] then [] else Entry(cs[0]) + Entries(cs[1..])
  }

  /** Guest memory after a write inside it. */
  function Write(mem: seq<Byte>, offset: nat, data: seq<Byte>): (after: seq<Byte>)
    requires offset + |data| <= |mem|
    ensures |after| == |mem|
  {
    seq(|mem|, i requires 0 <= i < |mem| => if offset <= i < offset + |data| then data[i - offset] else mem[i])
  }

  predicate InMemory(mem: seq<Byte>, ranges: seq<WriteRange>) {
    forall k :: 0 <= k < |ranges| ==> ranges[k].offset + |ranges[k].data| <= |mem|
  }

  function ApplyRanges(mem: seq<Byte>, ranges: seq<WriteRange>): (after: seq<Byte>)
    requires InMemory(mem, ranges)
    ensures |after| == |mem|
    decreases |ranges|
  {
    if ranges == [] then mem
    else ApplyRanges(Write(mem, ranges[0].offset, ranges[0].data), ranges[1..])
  }

  // ----- One completion at a time

  predicate RingInMemory(mem: seq<Byte>, ring: nat, size: nat) {
    ring + 4 + 8 * size <= |mem| < U64_LIMIT
  }

  function UsedIndex(mem: seq<Byte>, ring: nat): U16
    requires ring + 4 <= |mem|
  {
    FromLe16(mem[ring + 2..ring + 4])
  }

  function Complete(mem: seq<Byte>, ring: nat, size: nat, c: Completion): (after: seq<Byte>)
    requires size > 0 && RingInMemory(mem, ring, size)
    ensures |after| == |mem|
  {
    var index := UsedIndex(mem, ring);
    var filled := Write(mem, SlotOffset(ring, size, index), Entry(c));
    Write(filled, ring + 2, Le16(Wrap16(index + 1)))
  }

  function CompleteAll(mem: seq<Byte>, ring: nat, size: nat, cs: seq<Completion>): (after: seq<Byte>)
    requires size > 0 && RingInMemory(mem, ring, size)
    ensures |after| == |mem|
    decreases |cs|
  {
    if cs == [] then mem else CompleteAll(Complete(mem, ring, size, cs[0]), ring, size, cs[1..])
  }

  function SlotOffset(ring: nat, size: nat, index: nat): (offset: nat)
    requires size > 0
    ensures ring + 4 <= offset <= ring + 4 + 8 * size - 8
  {
    ring + 4 + 8 * Mod(index, size)
  }

  // ----- Entries without the index

  /** Fills the slots from `index` on, which counts without wrapping. */
  function Fill(mem: seq<Byte>, ring: nat, size: nat, index: nat, cs: seq<Completion>): (after: seq<Byte>)
    requires size > 0 && RingInMemory(mem, ring, size)
    ensures |after| == |mem|
    decreases |cs|
  {
    if cs == [] then mem
    else Fill(Write(mem, SlotOffset(ring, size, index), Entry(cs[0])), ring, size, index + 1, cs[1..])
  }

  lemma WriteTwice(mem: seq<Byte>, offset: nat, a: seq<Byte>, b: seq<Byte>)
    requires |a| == |b| && offset + |a| <= |mem|
    ensures Write(Write(mem, offset, a), offset, b) == Write(mem, offset, b)
  {
  }

  lemma WritesCommute(mem: seq<Byte>, p: nat, a: seq<Byte>, q: nat, b: seq<Byte>)
    requires p + |a| <= q && q + |b| <= |mem|
    ensures Write(Write(mem, p, a), q, b) == Write(Write(mem, q, b), p, a)
  {
  }

  lemma WritesJoin(mem: seq<Byte>, offset: nat, a: seq<Byte>, b: seq<Byte>)
    requires offset + |a| + |b| <= |mem|
    ensures Write(Write(mem, offset, a), offset + |a|, b) == Write(mem, offset, a + b)
  {
  }

  lemma ReadBack(mem: seq<Byte>, ring: nat, v: U16)
    requires ring + 4 <= |mem|
    ensures UsedIndex(Write(mem, ring + 2, Le16(v)), ring) == v
  {
    assert Write(mem, ring + 2, Le16(v))[ring + 2..ring + 4] == Le16(v);
  }

  lemma {:induction false} FillKeepsIndex(mem: seq<Byte>, ring: nat, size: nat, index: nat, cs: seq<Completion>, v: seq<Byte>)
    requires size > 0 && RingInMemory(mem, ring, size) && |v| == 2
    ensures Fill(Write(mem, ring + 2, v), ring, size, index, cs) == Write(Fill(mem, ring, size, index, cs), ring + 2, v)
    decreases |cs|
  {
    hide Write, Entry;
    if cs != [] {
      WritesCommute(mem, ring + 2, v, SlotOffset(ring, size, index), Entry(cs[0]));
      FillKeepsIndex(Write(mem, SlotOffset(ring, size, index), Entry(cs[0])), ring, size, index + 1, cs[1..], v);
    }
  }

  /** A power of two up to 2^16 divides it, so wrapping the index keeps its slot. */
  lemma {:induction false} DividesRange(size: nat, range: nat)
    requires IsPowerOfTwo(size) && IsPowerOfTwo(range) && size <= range
    ensures exists k: nat :: range == k * size
  {
    if size == 1 {
      assert range == range * size;
    } else {
      DividesRange(size / 2, range / 2);
      var k: nat :| range / 2 == k * (size / 2);
      assert k * (2 * (size / 2)) == 2 * (k * (size / 2));
      assert range == k * size;
    }
  }

  lemma RangeIsPowerOfTwo()
    ensures IsPowerOfTwo(U16_LIMIT)
  {
    assert IsPowerOfTwo(2) && IsPowerOfTwo(8) && IsPowerOfTwo(32) && IsPowerOfTwo(128) && IsPowerOfTwo(512);
    assert IsPowerOfTwo(2048) && IsPowerOfTwo(8192) && IsPowerOfTwo(32768);
  }

  lemma Reassociate(a: nat, b: nat, c: nat)
    ensures (a * b) * c == b * (a * c)
  {
  }

  lemma WrapKeepsSlot(index: nat, size: nat)
    requires IsPowerOfTwo(size) && size <= U16_LIMIT
    ensures size > 0 && Mod(Wrap16(index), size) == Mod(index, size)
  {
    hide Mod;
    RangeIsPowerOfTwo();
    DividesRange(size, U16_LIMIT);
    var k: nat :| U16_LIMIT == k * size;
    var laps := index / U16_LIMIT;
    assert index == Wrap16(index) + U16_LIMIT * laps;
    Reassociate(k, size, laps);
    WholeLaps(Wrap16(index), size, k * laps);
  }

  lemma WrapNext(i: nat, j: nat, n: nat)
    requires Wrap16(i) == Wrap16(j)
    ensures Wrap16(i + n) == Wrap16(j + n)
  {
  }

  lemma WrapWord(i: U16)
    ensures Wrap16(i) == i
  {
  }

  lemma WrapAgain(i: nat)
    ensures Wrap16(Wrap16(i)) == Wrap16(i)
  {
  }

  lemma {:induction false} FillWraps(mem: seq<Byte>, ring: nat, size: nat, i: nat, j: nat, cs: seq<Completion>)
    requires size > 0 && RingInMemory(mem, ring, size) && IsPowerOfTwo(size) && size <= U16_LIMIT && Wrap16(i) == Wrap16(j)
    ensures Fill(mem, ring, size, i, cs) == Fill(mem, ring, size, j, cs)
    decreases |cs|
  {
    hide Write, Entry, IsPowerOfTwo, Mod, Wrap16;
    if cs != [] {
      WrapKeepsSlot(i, size);
      WrapKeepsSlot(j, size);
      WrapNext(i, j, 1);
      FillWraps(Write(mem, SlotOffset(ring, size, i), Entry(cs[0])), ring, size, i + 1, j + 1, cs[1..]);
    }
  }

  /** Completing one entry at a time fills the slots and leaves the index of the last completion. */
  lemma {:induction false} CompleteAllFills(mem: seq<Byte>, ring: nat, size: nat, cs: seq<Completion>)
    requires IsPowerOfTwo(size) && size <= U16_LIMIT && RingInMemory(mem, ring, size) && cs != []
    ensures size > 0
    ensures var index := UsedIndex(mem, ring);
            CompleteAll(mem, ring, size, cs) == Write(Fill(mem, ring, size, index, cs), ring + 2, Le16(Wrap16(index + |cs|)))
    decreases |cs|
  {
    hide Write, Entry, IsPowerOfTwo, Le16, UsedIndex, Mod, Wrap16;
    assert size > 0 by { WrapKeepsSlot(0, size); }
    var index := UsedIndex(mem, ring);
    var filled := Write(mem, SlotOffset(ring, size, index), Entry(cs[0]));
    var next := Le16(Wrap16(index + 1));
    var first := Complete(mem, ring, size, cs[0]);
    ReadBack(filled, ring, Wrap16(index + 1));
    if |cs| > 1 {
      CompleteAllFills(first, ring, size, cs[1..]);
      WrapAgain(index + 1);
      WrapNext(Wrap16(index + 1), index + 1, |cs| - 1);
      FillWraps(first, ring, size, Wrap16(index + 1), index + 1, cs[1..]);
      FillKeepsIndex(filled, ring, size, index + 1, cs[1..], next);
      WriteTwice(Fill(filled, ring, size, index + 1, cs[1..]), ring + 2, next, Le16(Wrap16(index + |cs|)));
    } else {
      assert cs[1..] == [];
    }
  }

  /** Consecutive slots take their entries in one write. */
  lemma {:induction false} FillIsOneWrite(mem: seq<Byte>, ring: nat, size: nat, index: nat, cs: seq<Completion>)
    requires size > 0 && RingInMemory(mem, ring, size) && Mod(index, size) + |cs| <= size && cs != []
    ensures Fill(mem, ring, size, index, cs) == Write(mem, SlotOffset(ring, size, index), Entries(cs))
    decreases |cs|
  {
    hide Write, Entry;
    var slot := SlotOffset(ring, size, index);
    if |cs| > 1 {
      SameLap(index, 1, size);
      var filled := Write(mem, slot, Entry(cs[0]));
      FillIsOneWrite(filled, ring, size, index + 1, cs[1..]);
      WritesJoin(mem, slot, Entry(cs[0]), Entries(cs[1..]));
    } else {
      assert cs[1..] == [] && Entries(cs) == Entry(cs[0]) + [] == Entry(cs[0]);
    }
  }

  lemma {:induction false} FillAppends(mem: seq<Byte>, ring: nat, size: nat, index: nat, a: seq<Completion>, b: seq<Completion>)
    requires size > 0 && RingInMemory(mem, ring, size)
    ensures Fill(mem, ring, size, index, a + b) == Fill(Fill(mem, ring, size, index, a), ring, size, index + |a|, b)
    decreases |a|
  {
    hide Write, Entry;
    if a == [] {
      assert a + b == b;
    } else {
      assert (a + b)[0] == a[0] && (a + b)[1..] == a[1..] + b;
      FillAppends(Write(mem, SlotOffset(ring, size, index), Entry(a[0])), ring, size, index + 1, a[1..], b);
    }
  }

  // ----- The batch

  /** The writes of a batch: one per run of consecutive slots. */
  function SlotWrites(ring: nat, size: nat, index: U16, cs: seq<Completion>): seq<WriteRange>
    requires size > 0
    decreases |cs|
  {
    if cs == [] then []
    else
      var count := Min(|cs|, size - Mod(index, size));
      [WriteRange(SlotOffset(ring, size, index), Entries(cs[..count]))]
      + SlotWrites(ring, size, Wrap16(index + count), cs[count..])
  }

  function BatchWrites(ring: nat, size: nat, index: U16, cs: seq<Completion>): seq<WriteRange>
    requires size > 0
  {
    if cs == [] then [] else SlotWrites(ring, size, index, cs) + [WriteRange(ring + 2, Le16(Wrap16(index + |cs|)))]
  }

  predicate Addressable(writes: seq<WriteRange>) {
    forall k :: 0 <= k < |writes| ==> writes[k].offset < U64_LIMIT
  }

  lemma Reassociate3(a: seq<Byte>, b: seq<Byte>, c: seq<Byte>)
    ensures (a + b) + c == a + (b + c)
  {
  }

  method EntryBytes(cs: seq<Completion>) returns (data: seq<Byte>)
    ensures data == Entries(cs)
  {
    hide Le32;
    data := [];
    for i := 0 to |cs|
      invariant data + Entries(cs[i..]) == Entries(cs)
    {
      assert cs[i..][0] == cs[i] && cs[i..][1..] == cs[i + 1..];
      var entry := Le32(cs[i].head) + Le32(cs[i].len);
      Reassociate3(data, entry, Entries(cs[i + 1..]));
      data := data + entry;
    }
  }

  lemma SlotWritesStep(ring: nat, size: nat, index: U16, cs: seq<Completion>)
    requires size > 0 && cs != []
    ensures var count := Min(|cs|, size - Mod(index, size));
            SlotWrites(ring, size, index, cs)
            == [WriteRange(SlotOffset(ring, size, index), Entries(cs[..count]))]
               + SlotWrites(ring, size, Wrap16(index + count), cs[count..])
  {
  }

  lemma SlotWritesEnd(ring: nat, size: nat, index: U16)
    requires size > 0
    ensures SlotWrites(ring, size, index, []) == []
  {
  }

  /** One write per run of consecutive slots, and the index after the last. */
  method SlotRanges(ring: U64, size: U16, usedIndex: U16, completions: seq<Completion>)
    returns (ranges: seq<WriteRange>, index: U16, mapped: bool)
    requires 0 < size
    ensures mapped == Addressable(SlotWrites(ring, size, usedIndex, completions))
    ensures mapped ==> ranges == SlotWrites(ring, size, usedIndex, completions)
    ensures mapped ==> index == Wrap16(usedIndex + |completions|)
  {
    hide Entries, Mod, Wrap16, SlotWrites;
    ranges, index, mapped := [], usedIndex, true;
    var rest := completions;
    WrapWord(usedIndex);
    ghost var done: nat := usedIndex;
    ghost var writes := SlotWrites(ring, size, usedIndex, completions);
    while rest != []
      invariant done + |rest| == usedIndex + |completions| && index == Wrap16(done)
      invariant writes == ranges + SlotWrites(ring, size, index, rest)
      invariant Addressable(ranges)
      decreases |rest|
    {
      SlotWritesStep(ring, size, index, rest);
      var slot := Mod(index, size);
      var count := Min(|rest|, size - slot);
      var data := EntryBytes(rest[..count]);
      if ring + 4 + 8 * slot >= U64_LIMIT {
        assert writes[|ranges|].offset == ring + 4 + 8 * slot;
        return ranges, index, false;
      }
      ranges := ranges + [WriteRange(ring + 4 + 8 * slot, data)];
      WrapAgain(done);
      WrapNext(index, done, count);
      done := done + count;
      index := Wrap16(index + count);
      rest := rest[count..];
    }
    SlotWritesEnd(ring, size, index);
  }

  method CompletionRanges(ring: U64, size: U16, usedIndex: U16, completions: seq<Completion>) returns (r: RangesResult)
    ensures r == Failed(BadLen) <==> !(0 < size <= QUEUE_SIZE && IsPowerOfTwo(size)) || |completions| > size
    ensures r != Failed(BadLen) ==>
              var writes := BatchWrites(ring, size, usedIndex, completions);
              r == if Addressable(writes) then Ranges(writes) else Failed(Unmapped)
  {
    hide IsPowerOfTwo, Wrap16, SlotWrites, Le16;
    if size == 0 || size > QUEUE_SIZE || !IsPowerOfTwo(size) || |completions| > size {
      return Failed(BadLen);
    }
    if completions == [] {
      return Ranges([]);
    }
    ghost var writes := BatchWrites(ring, size, usedIndex, completions);
    var ranges, index, mapped := SlotRanges(ring, size, usedIndex, completions);
    assert Addressable(writes) ==> Addressable(writes[..|writes| - 1]) && writes[|writes| - 1].offset < U64_LIMIT;
    assert writes[..|writes| - 1] == SlotWrites(ring, size, usedIndex, completions);
    if !mapped || ring + 2 >= U64_LIMIT {
      return Failed(Unmapped);
    }
    return Ranges(ranges + [WriteRange(ring + 2, Le16(index))]);
  }

  /** A batch of at most `size` completions leaves guest memory as that many single completions do, in at most three
      writes, of which the index is the last and the only one outside the slots. */
  lemma BatchRefinesSingles(mem: seq<Byte>, ring: nat, size: nat, cs: seq<Completion>)
    requires IsPowerOfTwo(size) && size <= U16_LIMIT && RingInMemory(mem, ring, size) && |cs| <= size
    ensures size > 0
    ensures var writes := BatchWrites(ring, size, UsedIndex(mem, ring), cs);
            && |writes| <= 3
            && InMemory(mem, writes) && Addressable(writes)
            && (forall k :: 0 <= k < |writes| - 1 ==> ring + 4 <= writes[k].offset && |writes[k].data| > 0)
            && (cs != [] ==> writes[|writes| - 1] == WriteRange(ring + 2, Le16(Wrap16(UsedIndex(mem, ring) + |cs|))))
            && ApplyRanges(mem, writes) == CompleteAll(mem, ring, size, cs)
  {
    hide Write, Entry, IsPowerOfTwo, Le16, UsedIndex, Mod, Wrap16, SlotWrites, Fill;
    assert size > 0 by { WrapKeepsSlot(0, size); }
    if cs != [] {
      var index := UsedIndex(mem, ring);
      var slots := SlotWrites(ring, size, index, cs);
      var last := WriteRange(ring + 2, Le16(Wrap16(index + |cs|)));
      TwoWrites(mem, ring, size, index, cs);
      LastWrite(mem, ring, slots, last);
      assert ApplyRanges(mem, slots + [last]) == CompleteAll(mem, ring, size, cs) by {
        CompleteAllFills(mem, ring, size, cs);
        ApplyAppends(mem, slots, last);
      }
    }
  }

  /** The index write comes last and is the only one below the slots. */
  lemma LastWrite(mem: seq<Byte>, ring: nat, slots: seq<WriteRange>, last: WriteRange)
    requires 1 <= |slots| <= 2 && InMemory(mem, slots) && |mem| < U64_LIMIT
    requires forall k :: 0 <= k < |slots| ==> ring + 4 <= slots[k].offset && |slots[k].data| > 0
    requires last.offset == ring + 2 && |last.data| == 2 && ring + 4 <= |mem|
    ensures var writes := slots + [last];
            && |writes| <= 3 && InMemory(mem, writes) && Addressable(writes) && writes[|writes| - 1] == last
            && forall k :: 0 <= k < |writes| - 1 ==> ring + 4 <= writes[k].offset && |writes[k].data| > 0
  {
  }

  lemma TwoWrites(mem: seq<Byte>, ring: nat, size: nat, index: U16, cs: seq<Completion>)
    requires IsPowerOfTwo(size) && size <= U16_LIMIT && RingInMemory(mem, ring, size) && 0 < |cs| <= size
    ensures size > 0
    ensures var writes := SlotWrites(ring, size, index, cs);
            && 1 <= |writes| <= 2
            && (forall k :: 0 <= k < |writes| ==> ring + 4 <= writes[k].offset && |writes[k].data| > 0)
            && InMemory(mem, writes)
            && (ApplyRanges(mem, writes) == Fill(mem, ring, size, index, cs))
  {
    hide Write, Entry, Entries, IsPowerOfTwo, Mod, Wrap16, ApplyRanges, Fill;
    assert size > 0 by { WrapKeepsSlot(0, size); }
    SlotWritesStep(ring, size, index, cs);
    var count := Min(|cs|, size - Mod(index, size));
    var first, rest := cs[..count], cs[count..];
    FillIsOneWrite(mem, ring, size, index, first);
    if rest == [] {
      assert first == cs;
      OneSlotWrite(ring, size, index, cs);
      assert SlotWrites(ring, size, index, cs) == [WriteRange(SlotOffset(ring, size, index), Entries(cs))];
      ApplyTwo(mem, SlotWrites(ring, size, index, cs));
    } else {
      assert cs == first + rest;
      FillAppends(mem, ring, size, index, first, rest);
      var next := Wrap16(index + count);
      var filled := Write(mem, SlotOffset(ring, size, index), Entries(first));
      WrapAgain(index + count);
      FillWraps(filled, ring, size, next, index + count, rest);
      WrapKeepsSlot(index + count, size);
      NextLap(index, size);
      FillIsOneWrite(filled, ring, size, next, rest);
      OneSlotWrite(ring, size, next, rest);
      assert SlotWrites(ring, size, index, cs)
          == [WriteRange(SlotOffset(ring, size, index), Entries(first)), WriteRange(SlotOffset(ring, size, next), Entries(rest))];
      ApplyTwo(mem, SlotWrites(ring, size, index, cs));
    }
  }

  lemma OneSlotWrite(ring: nat, size: nat, index: U16, cs: seq<Completion>)
    requires size > 0 && 0 < |cs| && Mod(index, size) + |cs| <= size
    ensures SlotWrites(ring, size, index, cs) == [WriteRange(SlotOffset(ring, size, index), Entries(cs))]
  {
    hide Mod, Wrap16, Entry;
    assert cs[..|cs|] == cs && cs[|cs|..] == [];
  }

  lemma ApplyTwo(mem: seq<Byte>, ws: seq<WriteRange>)
    requires 1 <= |ws| <= 2 && InMemory(mem, ws)
    ensures var once := Write(mem, ws[0].offset, ws[0].data);
            ApplyRanges(mem, ws) == if |ws| == 1 then once else Write(once, ws[1].offset, ws[1].data)
  {
    hide Write;
    var once := Write(mem, ws[0].offset, ws[0].data);
    var rest := ws[1..];
    if |ws| == 2 {
      assert rest[1..] == [];
      assert ApplyRanges(once, rest) == Write(once, rest[0].offset, rest[0].data);
    } else {
      assert rest == [];
    }
  }

  lemma {:induction false} ApplyAppends(mem: seq<Byte>, ws: seq<WriteRange>, w: WriteRange)
    requires InMemory(mem, ws + [w]) && InMemory(mem, ws) && w.offset + |w.data| <= |mem|
    ensures ApplyRanges(mem, ws + [w]) == Write(ApplyRanges(mem, ws), w.offset, w.data)
    decreases |ws|
  {
    hide Write;
    if ws == [] {
      assert ws + [w] == [w] && [w][1..] == [];
    } else {
      assert (ws + [w])[0] == ws[0] && (ws + [w])[1..] == ws[1..] + [w];
      ApplyAppends(Write(mem, ws[0].offset, ws[0].data), ws[1..], w);
    }
  }

  lemma NextLap(index: nat, size: nat)
    requires size > 0
    ensures Mod(index + (size - Mod(index, size)), size) == 0
  {
    var q := Quotient(index, size);
    assert index + (size - Mod(index, size)) == 0 + size * (q + 1);
    ModuloLaps(0, size, q + 1);
  }
}
