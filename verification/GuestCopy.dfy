/** Copies between a device and guest memory, cut into pieces and issued in bounded batches. */
module GuestCopy {
  import opened Words

  const MAX_SINGLE: nat := 0x4000
  const MAX_BATCH_BYTES: nat := 0x1_0000
  const MAX_BATCH_RANGES: nat := 32

  /** Guest RAM by address; it may have holes. */
  type Ram = map<nat, Byte>

  datatype Range = Range(address: nat, len: nat)
  datatype Data = Data(address: nat, bytes: seq<Byte>)
  datatype CopyError = Unmapped | TooLarge
  datatype ReadResult = Bytes(bytes: seq<Byte>) | ReadFailed(error: CopyError)
  datatype WriteResult = Written | WriteFailed(error: CopyError)

  // ----- Plain copies

  predicate InRam(ram: Ram, address: nat, len: nat) {
    forall k :: address <= k < address + len ==> k in ram
  }

  function ReadAt(ram: Ram, r: Range): (bytes: seq<Byte>)
    requires InRam(ram, r.address, r.len)
    ensures |bytes| == r.len
  {
    seq(r.len, i requires 0 <= i < r.len => ram[r.address + i])
  }

  predicate AllInRam(ram: Ram, ranges: seq<Range>) {
    forall i :: 0 <= i < |ranges| ==> InRam(ram, ranges[i].address, ranges[i].len)
  }

  function ReadAll(ram: Ram, ranges: seq<Range>): seq<Byte>
    requires AllInRam(ram, ranges)
  {
    if ranges == [] then [] else ReadAt(ram, ranges[0]) + ReadAll(ram, ranges[1..])
  }

  function WriteAt(ram: Ram, d: Data): Ram {
    map k | k in ram :: if d.address <= k < d.address + |d.bytes| then d.bytes[k - d.address] else ram[k]
  }

  function WriteAll(ram: Ram, writes: seq<Data>): Ram
    decreases |writes|
  {
    if writes == [] then ram else WriteAll(WriteAt(ram, writes[0]), writes[1..])
  }

  predicate AllWritable(ram: Ram, writes: seq<Data>) {
    forall i :: 0 <= i < |writes| ==> InRam(ram, writes[i].address, |writes[i].bytes|)
  }

  /** Reading a range that was just written gives the bytes back, and any range apart from it what it held. */
  lemma WriteThenRead(ram: Ram, d: Data, r: Range)
    requires InRam(ram, d.address, |d.bytes|) && InRam(ram, r.address, r.len)
    ensures InRam(WriteAt(ram, d), d.address, |d.bytes|) && ReadAt(WriteAt(ram, d), Range(d.address, |d.bytes|)) == d.bytes
    ensures InRam(WriteAt(ram, d), r.address, r.len)
    ensures r.address + r.len <= d.address || d.address + |d.bytes| <= r.address ==> ReadAt(WriteAt(ram, d), r) == ReadAt(ram, r)
  {
  }

  // ----- Pieces

  function Chunks(address: nat, len: nat): seq<Range>
    decreases len
  {
    if len == 0 then []
    else [Range(address, Min(len, MAX_SINGLE))] + Chunks(address + Min(len, MAX_SINGLE), len - Min(len, MAX_SINGLE))
  }

  function Pieces(ranges: seq<Range>): seq<Range> {
    if ranges == [] then [] else Chunks(ranges[0].address, ranges[0].len) + Pieces(ranges[1..])
  }

  function DataChunks(address: nat, bytes: seq<Byte>): seq<Data>
    decreases |bytes|
  {
    if bytes == [] then []
    else
      var n := Min(|bytes|, MAX_SINGLE);
      [Data(address, bytes[..n])] + DataChunks(address + n, bytes[n..])
  }

  function DataPieces(writes: seq<Data>): seq<Data> {
    if writes == [] then [] else DataChunks(writes[0].address, writes[0].bytes) + DataPieces(writes[1..])
  }

  lemma InRamConcat(ram: Ram, a: seq<Range>, b: seq<Range>)
    ensures AllInRam(ram, a + b) <==> AllInRam(ram, a) && AllInRam(ram, b)
  {
    hide InRam;
    assert forall i :: 0 <= i < |b| ==> (a + b)[|a| + i] == b[i];
    assert forall i :: 0 <= i < |a| ==> (a + b)[i] == a[i];
  }

  lemma {:induction false} ReadAllConcat(ram: Ram, a: seq<Range>, b: seq<Range>)
    ensures AllInRam(ram, a + b) <==> AllInRam(ram, a) && AllInRam(ram, b)
    ensures AllInRam(ram, a + b) ==> ReadAll(ram, a + b) == ReadAll(ram, a) + ReadAll(ram, b)
  {
    hide AllInRam, ReadAt;
    InRamConcat(ram, a, b);
    if a == [] {
      assert a + b == b;
    } else {
      assert (a + b)[0] == a[0] && (a + b)[1..] == a[1..] + b;
      InRamConcat(ram, [a[0]], a[1..]);
      assert [a[0]] + a[1..] == a;
      ReadAllConcat(ram, a[1..], b);
    }
  }

  /** The pieces of a range hold exactly its bytes, and lie in RAM exactly when it does. */
  lemma {:induction false} ChunksCover(ram: Ram, address: nat, len: nat)
    ensures AllInRam(ram, Chunks(address, len)) <==> InRam(ram, address, len)
    ensures InRam(ram, address, len) ==> ReadAll(ram, Chunks(address, len)) == ReadAt(ram, Range(address, len))
    ensures forall i :: 0 <= i < |Chunks(address, len)| ==> 0 < Chunks(address, len)[i].len <= MAX_SINGLE
    decreases len
  {
    if len > 0 {
      var n := Min(len, MAX_SINGLE);
      var first, rest := Range(address, n), Chunks(address + n, len - n);
      ChunksCover(ram, address + n, len - n);
      SplitRam(ram, address, n, len);
      ReadAllConcat(ram, [first], rest);
      OneRange(ram, first);
      if InRam(ram, address, len) {
        assert ReadAt(ram, first) + ReadAt(ram, Range(address + n, len - n)) == ReadAt(ram, Range(address, len));
      }
    }
  }

  lemma OneRange(ram: Ram, r: Range)
    ensures AllInRam(ram, [r]) <==> InRam(ram, r.address, r.len)
    ensures InRam(ram, r.address, r.len) ==> ReadAll(ram, [r]) == ReadAt(ram, r)
  {
    hide InRam;
    assert [r][0] == r && [r][1..] == [];
  }

  lemma SplitRam(ram: Ram, address: nat, n: nat, len: nat)
    requires n <= len
    ensures InRam(ram, address, len) <==> InRam(ram, address, n) && InRam(ram, address + n, len - n)
  {
  }

  lemma {:induction false} PiecesCover(ram: Ram, ranges: seq<Range>)
    ensures AllInRam(ram, Pieces(ranges)) <==> AllInRam(ram, ranges)
    ensures AllInRam(ram, ranges) ==> ReadAll(ram, Pieces(ranges)) == ReadAll(ram, ranges)
    ensures forall i :: 0 <= i < |Pieces(ranges)| ==> 0 < Pieces(ranges)[i].len <= MAX_SINGLE
  {
    hide InRam, Chunks, ReadAt;
    if ranges != [] {
      var first, rest := ranges[0], ranges[1..];
      ChunksCover(ram, first.address, first.len);
      PiecesCover(ram, rest);
      ReadAllConcat(ram, Chunks(first.address, first.len), Pieces(rest));
      assert AllInRam(ram, ranges) <==> InRam(ram, first.address, first.len) && AllInRam(ram, rest) by {
        assert forall i :: 0 <= i < |rest| ==> rest[i] == ranges[i + 1];
      }
    }
  }

  // ----- Batches

  function Total<P>(batch: seq<P>, len: P -> nat): nat {
    if batch == [] then 0 else Total(batch[..|batch| - 1], len) + len(batch[|batch| - 1])
  }

  function Flatten<P>(batches: seq<seq<P>>): seq<P> {
    if batches == [] then [] else Flatten(batches[..|batches| - 1]) + batches[|batches| - 1]
  }

  /** A batch the host accepts: not empty, few enough ranges, none too long, and few enough bytes in all. */
  predicate Bounded<P(!new)>(batch: seq<P>, len: P -> nat) {
    && 0 < |batch| <= MAX_BATCH_RANGES && Total(batch, len) <= MAX_BATCH_BYTES
    && forall i :: 0 <= i < |batch| ==> len(batch[i]) <= MAX_SINGLE
  }

  /** No batch is closed while its successor's first piece would still fit. */
  predicate Greedy<P(!new)>(batches: seq<seq<P>>, len: P -> nat) {
    var n := |batches|;
    n < 2 || (batches[n - 1] != [] && Full(batches[n - 2], batches[n - 1][0], len) && Greedy(batches[..n - 1], len))
  }

  /** Greedy batches of consecutive pieces, in order. */
  method ForEachBatch<P(!new)>(pieces: seq<P>, len: P -> nat) returns (batches: seq<seq<P>>)
    requires forall i :: 0 <= i < |pieces| ==> len(pieces[i]) <= MAX_SINGLE
    ensures Flatten(batches) == pieces
    ensures forall k :: 0 <= k < |batches| ==> Bounded(batches[k], len)
    ensures Greedy(batches, len)
  {
    hide Flatten, Total, Greedy, Full;
    batches := [];
    var batch: seq<P> := [];
    var batchBytes: nat := 0;
    NoBatches<P>(len);
    for i := 0 to |pieces|
      invariant Flatten(batches) + batch == pieces[..i] && batchBytes == Total(batch, len)
      invariant forall k :: 0 <= k < |batches| ==> Bounded(batches[k], len)
      invariant |batch| <= MAX_BATCH_RANGES && batchBytes <= MAX_BATCH_BYTES && (i > 0 ==> batch != [])
      invariant forall k :: 0 <= k < |batch| ==> len(batch[k]) <= MAX_SINGLE
      invariant Greedy(batches, len)
      invariant batches != [] ==> batch != [] && Full(batches[|batches| - 1], batch[0], len)
    {
      var piece := pieces[i];
      if batch != [] && (|batch| == MAX_BATCH_RANGES || batchBytes + len(piece) > MAX_BATCH_BYTES) {
        IsFull(batch, piece, len);
        PushBatch(batches, batch, len);
        batches := batches + [batch];
        batch := [];
        batchBytes := 0;
      }
      PushPiece(batch, piece, len);
      batch := batch + [piece];
      batchBytes := batchBytes + len(piece);
    }
    assert pieces[..|pieces|] == pieces;
    if batch != [] {
      PushBatch(batches, batch, len);
      batches := batches + [batch];
    }
  }

  lemma NoBatches<P(!new)>(len: P -> nat)
    ensures Flatten<P>([]) == [] && Total<P>([], len) == 0 && Greedy<P>([], len)
  {
  }

  lemma PushPiece<P(!new)>(batch: seq<P>, piece: P, len: P -> nat)
    ensures Total(batch + [piece], len) == Total(batch, len) + len(piece)
  {
    assert (batch + [piece])[..|batch|] == batch;
  }

  lemma PushBatch<P(!new)>(batches: seq<seq<P>>, batch: seq<P>, len: P -> nat)
    requires batch != [] && Greedy(batches, len) && (batches != [] ==> Full(batches[|batches| - 1], batch[0], len))
    ensures Flatten(batches + [batch]) == Flatten(batches) + batch && Greedy(batches + [batch], len)
  {
    hide Full;
    var all := batches + [batch];
    assert all[..|all| - 1] == batches && all[|all| - 1] == batch;
    assert Flatten(all) == Flatten(all[..|all| - 1]) + all[|all| - 1];
    if batches != [] { assert all[|all| - 2] == batches[|batches| - 1]; }
  }

  lemma IsFull<P(!new)>(batch: seq<P>, next: P, len: P -> nat)
    requires |batch| == MAX_BATCH_RANGES || Total(batch, len) + len(next) > MAX_BATCH_BYTES
    ensures Full(batch, next, len)
  {
  }

  predicate Full<P(!new)>(batch: seq<P>, next: P, len: P -> nat) {
    |batch| == MAX_BATCH_RANGES || Total(batch, len) + len(next) > MAX_BATCH_BYTES
  }

  // ----- Reading

  /** The host's batched read: it refuses a batch over its limits and one outside RAM. */
  function HostRead(ram: Ram, batch: seq<Range>): ReadResult {
    if !Bounded(batch, (r: Range) => r.len) then ReadFailed(TooLarge)
    else if AllInRam(ram, batch) then Bytes(ReadAll(ram, batch))
    else ReadFailed(Unmapped)
  }

  /** The first range whose end, or the running total, overflows 64 bits. */
  function RangeError(ranges: seq<Range>, total: nat): Option<CopyError> {
    if ranges == [] then None
    else if ranges[0].address + ranges[0].len >= U64_LIMIT then Some(Unmapped)
    else if total + ranges[0].len >= U64_LIMIT then Some(TooLarge)
    else RangeError(ranges[1..], total + ranges[0].len)
  }

  method CheckRanges(ranges: seq<Range>) returns (error: Option<CopyError>)
    ensures error == RangeError(ranges, 0)
  {
    var total: nat := 0;
    for i := 0 to |ranges|
      invariant RangeError(ranges, 0) == RangeError(ranges[i..], total)
    {
      assert ranges[i..][0] == ranges[i] && ranges[i..][1..] == ranges[i + 1..];
      if ranges[i].address + ranges[i].len >= U64_LIMIT {
        return Some(Unmapped);
      }
      if total + ranges[i].len >= U64_LIMIT {
        return Some(TooLarge);
      }
      total := total + ranges[i].len;
    }
    return None;
  }

  /** Reads exactly the ranges, in order, when all lie in RAM; the host never refuses a batch for its size. */
  method ReadGuestRanges(ram: Ram, ranges: seq<Range>) returns (r: ReadResult)
    ensures var error := RangeError(ranges, 0);
            r == if error.Some? then ReadFailed(error.value)
                 else if AllInRam(ram, ranges) then Bytes(ReadAll(ram, ranges))
                 else ReadFailed(Unmapped)
  {
    hide InRam, ReadAt, Chunks, RangeError;
    var error := CheckRanges(ranges);
    if error.Some? {
      return ReadFailed(error.value);
    }
    PiecesCover(ram, ranges);
    var pieces := Pieces(ranges);
    var batches := ForEachBatch(pieces, (r: Range) => r.len);
    r := ReadBatches(ram, batches);
  }

  method ReadBatches(ram: Ram, batches: seq<seq<Range>>) returns (r: ReadResult)
    requires forall k :: 0 <= k < |batches| ==> Bounded(batches[k], (r: Range) => r.len)
    ensures r == if AllInRam(ram, Flatten(batches)) then Bytes(ReadAll(ram, Flatten(batches))) else ReadFailed(Unmapped)
  {
    hide InRam, ReadAt, Total;
    var bytes: seq<Byte> := [];
    for i := 0 to |batches|
      invariant AllInRam(ram, Flatten(batches[..i])) && bytes == ReadAll(ram, Flatten(batches[..i]))
    {
      assert batches[..i + 1][..i] == batches[..i];
      ReadAllConcat(ram, Flatten(batches[..i]), batches[i]);
      var chunk := HostRead(ram, batches[i]);
      if chunk.ReadFailed? {
        FlattenPrefix(batches, i + 1);
        ReadAllConcat(ram, Flatten(batches[..i + 1]), Flatten(batches)[|Flatten(batches[..i + 1])|..]);
        return chunk;
      }
      bytes := bytes + chunk.bytes;
    }
    assert batches[..|batches|] == batches;
    return Bytes(bytes);
  }

  lemma {:induction false} FlattenPrefix<P>(batches: seq<seq<P>>, i: nat)
    requires i <= |batches|
    ensures Flatten(batches[..i]) <= Flatten(batches)
    decreases |batches| - i
  {
    if i == |batches| {
      assert batches[..i] == batches;
    } else {
      FlattenPrefix(batches, i + 1);
      assert batches[..i + 1][..i] == batches[..i];
    }
  }

  // ----- Writing

  lemma WritableConcat(ram: Ram, a: seq<Data>, b: seq<Data>)
    ensures AllWritable(ram, a + b) <==> AllWritable(ram, a) && AllWritable(ram, b)
  {
    hide InRam;
    assert forall i :: 0 <= i < |b| ==> (a + b)[|a| + i] == b[i];
    assert forall i :: 0 <= i < |a| ==> (a + b)[i] == a[i];
  }

  lemma {:induction false} WriteAllConcat(ram: Ram, a: seq<Data>, b: seq<Data>)
    ensures WriteAll(ram, a + b) == WriteAll(WriteAll(ram, a), b)
    ensures AllWritable(ram, a + b) <==> AllWritable(ram, a) && AllWritable(ram, b)
    decreases |a|
  {
    hide WriteAt, AllWritable;
    WritableConcat(ram, a, b);
    if a == [] {
      assert a + b == b;
    } else {
      assert (a + b)[0] == a[0] && (a + b)[1..] == a[1..] + b;
      WriteAllConcat(WriteAt(ram, a[0]), a[1..], b);
    }
  }

  lemma {:induction false} SameKeys(ram: Ram, writes: seq<Data>)
    ensures WriteAll(ram, writes).Keys == ram.Keys
    decreases |writes|
  {
    if writes != [] { SameKeys(WriteAt(ram, writes[0]), writes[1..]); }
  }

  /** The pieces of a write leave the memory the whole write leaves, and lie in RAM exactly when it does. */
  lemma {:induction false} DataChunksCover(ram: Ram, address: nat, bytes: seq<Byte>)
    ensures AllWritable(ram, DataChunks(address, bytes)) <==> InRam(ram, address, |bytes|)
    ensures WriteAll(ram, DataChunks(address, bytes)) == WriteAt(ram, Data(address, bytes))
    ensures forall i :: 0 <= i < |DataChunks(address, bytes)| ==> 0 < |DataChunks(address, bytes)[i].bytes| <= MAX_SINGLE
    decreases |bytes|
  {
    hide InRam, WriteAt, WriteAll, AllWritable;
    NothingWritten(ram, address);
    NoWrites(ram);
    if bytes != [] {
      var n := Min(|bytes|, MAX_SINGLE);
      var first, rest := Data(address, bytes[..n]), DataChunks(address + n, bytes[n..]);
      var once := WriteAt(ram, first);
      DataChunksCover(once, address + n, bytes[n..]);
      SplitRam(ram, address, n, |bytes|);
      KeysKept(ram, first);
      WritableSame(ram, once, rest);
      WriteAllConcat(ram, [first], rest);
      OneWrite(ram, first);
      WritesJoin(ram, address, bytes, n);
    }
  }

  lemma WritesJoin(ram: Ram, address: nat, bytes: seq<Byte>, n: nat)
    requires n <= |bytes|
    ensures WriteAt(WriteAt(ram, Data(address, bytes[..n])), Data(address + n, bytes[n..])) == WriteAt(ram, Data(address, bytes))
  {
  }

  lemma NoWrites(ram: Ram)
    ensures WriteAll(ram, []) == ram && AllWritable(ram, [])
  {
  }

  lemma NothingWritten(ram: Ram, address: nat)
    ensures WriteAt(ram, Data(address, [])) == ram && InRam(ram, address, 0)
  {
  }

  lemma KeysKept(ram: Ram, d: Data)
    ensures WriteAt(ram, d).Keys == ram.Keys
  {
  }

  lemma OneWrite(ram: Ram, d: Data)
    ensures AllWritable(ram, [d]) <==> InRam(ram, d.address, |d.bytes|)
    ensures WriteAll(ram, [d]) == WriteAt(ram, d)
  {
    hide InRam, WriteAt;
    assert [d][0] == d && [d][1..] == [];
  }

  lemma WritableSame(a: Ram, b: Ram, writes: seq<Data>)
    requires a.Keys == b.Keys
    ensures AllWritable(a, writes) <==> AllWritable(b, writes)
    ensures forall address, len :: InRam(a, address, len) <==> InRam(b, address, len)
  {
  }

  lemma {:induction false} DataPiecesCover(ram: Ram, writes: seq<Data>)
    ensures AllWritable(ram, DataPieces(writes)) <==> AllWritable(ram, writes)
    ensures WriteAll(ram, DataPieces(writes)) == WriteAll(ram, writes)
    ensures forall i :: 0 <= i < |DataPieces(writes)| ==> 0 < |DataPieces(writes)[i].bytes| <= MAX_SINGLE
    decreases |writes|
  {
    hide InRam, DataChunks;
    if writes != [] {
      var first, rest := writes[0], writes[1..];
      var once := WriteAt(ram, first);
      DataChunksCover(ram, first.address, first.bytes);
      DataPiecesCover(once, rest);
      WritableSame(ram, once, rest);
      WritableSame(ram, once, DataPieces(rest));
      WriteAllConcat(ram, DataChunks(first.address, first.bytes), DataPieces(rest));
      WriteAllConcat(ram, [first], rest);
      OneWrite(ram, first);
      assert writes == [first] + rest;
    }
  }

  /** The host's batched write checks every range before it changes anything. */
  function HostWrite(ram: Ram, batch: seq<Data>): (Ram, WriteResult) {
    if !Bounded(batch, (d: Data) => |d.bytes|) then (ram, WriteFailed(TooLarge))
    else if AllWritable(ram, batch) then (WriteAll(ram, batch), Written)
    else (ram, WriteFailed(Unmapped))
  }

  predicate Representable(writes: seq<Data>) {
    forall i :: 0 <= i < |writes| ==> writes[i].address + |writes[i].bytes| < U64_LIMIT
  }

  /** Succeeds exactly when all writes lie in RAM, and then leaves what the plain writes leave, in order. A failure leaves
      the pieces of whole batches before it. */
  method WriteGuestRanges(ram: Ram, writes: seq<Data>) returns (after: Ram, r: WriteResult, ghost done: seq<Data>)
    ensures r == if Representable(writes) && AllWritable(ram, writes) then Written else WriteFailed(Unmapped)
    ensures r.Written? ==> after == WriteAll(ram, writes)
    ensures done <= DataPieces(writes) && after == WriteAll(ram, done)
  {
    hide InRam, WriteAt, DataChunks;
    for i := 0 to |writes|
      invariant forall k :: 0 <= k < i ==> writes[k].address + |writes[k].bytes| < U64_LIMIT
    {
      if writes[i].address + |writes[i].bytes| >= U64_LIMIT {
        return ram, WriteFailed(Unmapped), [];
      }
    }
    DataPiecesCover(ram, writes);
    var batches := ForEachBatch(DataPieces(writes), (d: Data) => |d.bytes|);
    after, r, done := WriteBatches(ram, batches);
  }

  method WriteBatches(ram: Ram, batches: seq<seq<Data>>) returns (after: Ram, r: WriteResult, ghost done: seq<Data>)
    requires forall k :: 0 <= k < |batches| ==> Bounded(batches[k], (d: Data) => |d.bytes|)
    ensures r == if AllWritable(ram, Flatten(batches)) then Written else WriteFailed(Unmapped)
    ensures r.Written? ==> done == Flatten(batches)
    ensures done <= Flatten(batches) && after == WriteAll(ram, done)
  {
    hide InRam, WriteAt, Total;
    after, done := ram, [];
    for i := 0 to |batches|
      invariant done == Flatten(batches[..i]) && after == WriteAll(ram, done) && AllWritable(ram, done)
    {
      assert batches[..i + 1][..i] == batches[..i];
      FlattenPrefix(batches, i);
      FlattenPrefix(batches, i + 1);
      WriteAllConcat(ram, done, batches[i]);
      SameKeys(ram, done);
      WritableSame(ram, after, batches[i]);
      ghost var rest := Flatten(batches)[|Flatten(batches[..i + 1])|..];
      WriteAllConcat(ram, Flatten(batches[..i + 1]), rest);
      after, r := HostWrite(after, batches[i]).0, HostWrite(after, batches[i]).1;
      if r.WriteFailed? {
        return;
      }
      done := done + batches[i];
    }
    assert batches[..|batches|] == batches;
    r := Written;
  }
}
