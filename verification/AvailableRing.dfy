/** The available ring: cursors of 16 bits over an unbounded history of published heads. */
module AvailableRing {
  import opened Words
  import opened Modular
  import opened UsedRing

  /** One queue: what the guest published, the ring it published in, and what the device made of it. */
  datatype Queue = Queue(size: nat, ring: seq<U16>, published: seq<U16>, next: U16, used: seq<Completion>)

  predicate ValidSize(size: nat) {
    0 < size <= QUEUE_SIZE && IsPowerOfTwo(size)
  }

  function NewQueue(size: nat): Queue
    requires ValidSize(size)
  {
    Queue(size, seq(size, i => 0), [], 0, [])
  }

  function Heads(used: seq<Completion>): seq<U16> {
    seq(|used|, i requires 0 <= i < |used| => used[i].head)
  }

  /** The ring still holds every published head from `from` on. */
  predicate RingHolds(ring: seq<U16>, published: seq<U16>, from: nat) {
    && |ring| > 0
    && forall k :: from <= k < |published| ==> ring[Mod(k, |ring|)] == published[k]
  }

  /** Completed heads are a prefix of the published ones, and the 16-bit cursor counts the completions. */
  predicate QueueOk(q: Queue) {
    && ValidSize(q.size) && |q.ring| == q.size
    && |q.used| <= |q.published| <= |q.used| + q.size
    && Heads(q.used) == q.published[..|q.used|]
    && RingHolds(q.ring, q.published, |q.used|)
    && q.next == Wrap16(|q.used|)
  }

  /** The guest publishes a head; one that keeps at most `size` heads outstanding does so only with a slot free. */
  function Publish(q: Queue, head: U16): Queue
    requires |q.ring| > 0
  {
    q.(ring := q.ring[Mod(|q.published|, |q.ring|) := head], published := q.published + [head])
  }

  /** Entries between the cursor and the available index; a guest that claims more than the ring holds is skipped. */
  function Resync(next: U16, available: U16, size: nat): (U16, nat) {
    var count := Wrap16(available - next);
    if size != 0 && count <= size then (next, count) else (available, 0)
  }

  /** The heads of a snapshot, at most `maxSteps` of them. */
  function SnapshotHeads(ring: seq<U16>, next: U16, count: nat): seq<U16>
    requires |ring| > 0
  {
    seq(count, i requires 0 <= i < count => ring[Mod(Wrap16(next + i), |ring|)])
  }

  /** A captured batch, with the ring size and the used index of its snapshot. */
  datatype Batch = Batch(size: nat, usedIndex: U16, heads: seq<U16>, hasMore: bool)

  /** The cursor afterwards is `count` entries, at most a ring, before the available index. It is the old one exactly when
      the guest claims no more than a ring; otherwise it skips to the index. */
  method ResyncPending(next: U16, available: U16, size: U16) returns (cursor: U16, count: U16)
    ensures count <= size && Wrap16(cursor + count) == available
    ensures size > 0 && (exists n: nat :: n <= size && Reached(next, n, available)) ==> cursor == next
    ensures size == 0 || !(exists n: nat :: n <= size && Reached(next, n, available)) ==> cursor == available && count == 0
  {
    count := Wrap16(available - next);
    cursor := next;
    WrapReaches(next, available);
    WrapWord(available);
    if size > 0 && count <= size {
      assert Reached(next, count, available);
    } else {
      forall n: nat | size > 0 && n <= size
        ensures !Reached(next, n, available)
      {
        if Reached(next, n, available) { ReachedOnce(next, n, available); }
      }
      cursor, count := available, 0;
    }
  }

  /** `n` entries after `next` comes the index `available`. */
  predicate Reached(next: U16, n: nat, available: U16) {
    Wrap16(next + n) == available
  }

  lemma WrapReaches(next: U16, available: U16)
    ensures Wrap16(next + Wrap16(available - next)) == available
  {
  }

  lemma ReachedOnce(next: U16, n: nat, available: U16)
    requires n < U16_LIMIT && Reached(next, n, available)
    ensures Wrap16(available - next) == n
  {
  }

  /** The three facts of `ResyncPending` leave only one answer. */
  lemma ResyncIsDetermined(next: U16, available: U16, size: U16, cursor: U16, count: U16)
    requires count <= size && Wrap16(cursor + count) == available
    requires size > 0 && (exists n: nat :: n <= size && Reached(next, n, available)) ==> cursor == next
    requires size == 0 || !(exists n: nat :: n <= size && Reached(next, n, available)) ==> cursor == available && count == 0
    ensures (cursor, count) == Resync(next, available, size)
  {
    WrapReaches(next, available);
    if size > 0 && exists n: nat :: n <= size && Reached(next, n, available) {
      ReachedOnce(next, count, available);
    } else if size > 0 {
      assert Reached(next, Wrap16(available - next), available);
    }
  }

  /** In terms of unbounded positions: a guest that is at most a ring ahead is counted exactly and not skipped. */
  lemma ResyncCounts(done: nat, seen: nat, size: nat)
    requires done <= seen <= done + size && 0 < size < U16_LIMIT
    ensures Resync(Wrap16(done), Wrap16(seen), size) == (Wrap16(done), seen - done)
  {
    WrapDifference(seen, done);
  }

  lemma NextSnapshotHead(ring: seq<U16>, cursor: U16, n: nat)
    requires |ring| > 0
    ensures SnapshotHeads(ring, cursor, 0) == []
    ensures SnapshotHeads(ring, cursor, n + 1) == SnapshotHeads(ring, cursor, n) + [ring[Mod(Wrap16(cursor + n), |ring|)]]
  {
    hide Mod, Wrap16;
  }

  /** Captures the pending heads from the cursor on, up to the step limit. */
  method DecodeBatch(next: U16, available: U16, maxSteps: nat, ring: seq<U16>, usedIndex: U16) returns (cursor: U16, batch: Option<Batch>)
    ensures batch.None? <==> !ValidSize(|ring|) || maxSteps == 0
    ensures batch.None? ==> cursor == next
    ensures batch.Some? ==>
              var (resynced, count) := Resync(next, available, |ring|);
              cursor == resynced
              && batch == Some(Batch(|ring|, usedIndex, SnapshotHeads(ring, resynced, Min(count, maxSteps)), count > maxSteps))
  {
    hide Resync, IsPowerOfTwo, SnapshotHeads, Mod, Wrap16, Reached;
    if !ValidSize(|ring|) || maxSteps == 0 {
      return next, None;
    }
    var count;
    cursor, count := ResyncPending(next, available, |ring|);
    ResyncIsDetermined(next, available, |ring|, cursor, count);
    var headCount := Min(count, maxSteps);
    var heads: seq<U16> := [];
    NextSnapshotHead(ring, cursor, 0);
    for offset := 0 to headCount
      invariant heads == SnapshotHeads(ring, cursor, offset)
    {
      NextSnapshotHead(ring, cursor, offset);
      heads := heads + [ring[Mod(Wrap16(cursor + offset), |ring|)]];
    }
    batch := Some(Batch(|ring|, usedIndex, heads, count > headCount));
  }

  /** With a conforming guest the cursor is never resynchronised and the snapshot yields exactly the oldest published
      heads not yet completed. The index may have been read before later publications the snapshot already shows. */
  lemma SnapshotIsOldest(q: Queue, seen: nat, maxSteps: nat)
    requires QueueOk(q) && |q.used| <= seen <= |q.published|
    ensures var (cursor, count) := Resync(q.next, Wrap16(seen), q.size);
            && cursor == q.next && count == seen - |q.used|
            && SnapshotHeads(q.ring, cursor, Min(count, maxSteps)) == q.published[|q.used|..|q.used| + Min(count, maxSteps)]
  {
    hide Mod, IsPowerOfTwo, Resync;
    var done := |q.used|;
    ResyncCounts(done, seen, q.size);
    var n := Min(seen - done, maxSteps);
    forall i | 0 <= i < n
      ensures SnapshotHeads(q.ring, q.next, n)[i] == q.published[done..done + n][i]
    {
      WrapOffset(done, i);
      WrapKeepsSlot(done + i, q.size);
    }
  }

  lemma WrapDifference(a: nat, b: nat)
    requires b <= a < b + U16_LIMIT
    ensures Wrap16(Wrap16(a) - Wrap16(b)) == a - b
  {
  }

  lemma WrapOffset(a: nat, i: nat)
    ensures Wrap16(Wrap16(a) + i) == Wrap16(a + i)
  {
  }

  lemma PublishOk(q: Queue, head: U16)
    requires QueueOk(q) && |q.published| < |q.used| + q.size
    ensures QueueOk(Publish(q, head))
  {
    hide Mod, IsPowerOfTwo;
    var p := Publish(q, head);
    forall k | |q.used| <= k < |q.published|
      ensures Mod(k, q.size) != Mod(|q.published|, q.size)
    {
      NotSameSlot(k, |q.published|, q.size);
    }
  }
}
