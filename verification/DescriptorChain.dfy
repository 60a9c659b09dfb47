/** Walking a descriptor chain: exactly the acyclic path from the head, or why there is none within the limit. */
module DescriptorChain {
  import opened Words
  import opened LittleEndian
  import opened UsedRing

  const DESCRIPTOR_BYTES: nat := 16

  datatype Descriptor = Descriptor(addr: nat, len: nat, flags: U16, next: U16)
  datatype ChainError = BadDescriptor | ChainTooLong
  datatype ChainResult = Chain(descriptors: seq<Descriptor>) | Refused(error: ChainError)

  predicate Readable(table: seq<Byte>, index: nat) {
    (index + 1) * DESCRIPTOR_BYTES <= |table|
  }

  function DescriptorAt(table: seq<Byte>, index: nat): Descriptor
    requires Readable(table, index)
  {
    var b := table[index * DESCRIPTOR_BYTES..(index + 1) * DESCRIPTOR_BYTES];
    Descriptor(FromLe(b[..8]), FromLe(b[8..12]), FromLe16(b[12..14]), FromLe16(b[14..16]))
  }

  /** How a driver writes a descriptor. */
  function EncodeDescriptor(d: Descriptor): (b: seq<Byte>)
    ensures |b| == DESCRIPTOR_BYTES
  {
    Le(d.addr, 8) + Le(d.len, 4) + Le(d.flags, 2) + Le(d.next, 2)
  }

  /** The device reads back every field of a descriptor that a driver wrote anywhere in the table. */
  lemma DescriptorReadsBack(before: seq<Byte>, d: Descriptor, after: seq<Byte>)
    requires |before| % DESCRIPTOR_BYTES == 0 && d.addr < U64_LIMIT && d.len < U32_LIMIT
    ensures var table := before + EncodeDescriptor(d) + after; var index := |before| / DESCRIPTOR_BYTES;
            Readable(table, index) && DescriptorAt(table, index) == d
  {
    hide Le, FromLe, FromLe16;
    var table, index := before + EncodeDescriptor(d) + after, |before| / DESCRIPTOR_BYTES;
    var b := EncodeDescriptor(d);
    assert table[index * DESCRIPTOR_BYTES..(index + 1) * DESCRIPTOR_BYTES] == b;
    assert b[..8] == Le(d.addr, 8) && b[8..12] == Le(d.len, 4) && b[12..14] == Le(d.flags, 2) && b[14..16] == Le(d.next, 2);
    Limits();
    Reads(d.addr, 8);
    Reads(d.len, 4);
    Reads(d.flags, 2);
    Reads(d.next, 2);
    Le16Reads(b[12..14]);
    Le16Reads(b[14..16]);
  }

  /** The lowest flag: another descriptor follows. */
  predicate HasNext(d: Descriptor) {
    d.flags % 2 == 1
  }

  /** Every flag set is an allowed one, digit by digit. */
  predicate OnlyAllowed(flags: nat, allowed: nat)
    decreases flags
  {
    flags == 0 || ((flags % 2 == 1 ==> allowed % 2 == 1) && OnlyAllowed(flags / 2, allowed / 2))
  }

  /** With the two flags the devices allow, NEXT and WRITE, no higher flag passes. */
  lemma OnlyNextAndWrite(flags: nat)
    ensures OnlyAllowed(flags, 3) <==> flags < 4
  {
    NothingAllowed(flags / 2 / 2);
    assert OnlyAllowed(flags / 2, 1) <==> flags / 2 == 0 || OnlyAllowed(flags / 2 / 2, 0);
  }

  lemma {:induction false} NothingAllowed(flags: nat)
    ensures OnlyAllowed(flags, 0) <==> flags == 0
    decreases flags
  {
    if flags > 0 { NothingAllowed(flags / 2); }
  }

  /** A descriptor the walk may pass: in the ring, readable and with allowed flags only. */
  predicate Usable(table: seq<Byte>, size: nat, allowed: U16, index: nat) {
    index < size && Readable(table, index) && OnlyAllowed(DescriptorAt(table, index).flags, allowed)
  }

  predicate Unique(path: seq<nat>) {
    forall i, j :: 0 <= i < j < |path| ==> path[i] != path[j]
  }

  /** `path` is walked from `head` through NEXT links, each leading to the next element and the last to `end`. */
  predicate Walk(table: seq<Byte>, size: nat, allowed: U16, head: nat, path: seq<nat>, end: nat) {
    && Unique(path)
    && (forall i :: 0 <= i < |path| ==> Usable(table, size, allowed, path[i]) && HasNext(DescriptorAt(table, path[i])))
    && (if path == [] then end == head else path[0] == head && end == DescriptorAt(table, path[|path| - 1]).next)
    && (forall i :: 0 <= i < |path| - 1 ==> path[i + 1] == DescriptorAt(table, path[i]).next)
  }

  /** The whole chain: a walk that ends at a fresh usable descriptor without NEXT. */
  predicate IsChain(table: seq<Byte>, size: nat, allowed: U16, head: nat, chain: seq<nat>) {
    && chain != []
    && Unique(chain)
    && var last := chain[|chain| - 1];
       && Walk(table, size, allowed, head, chain[..|chain| - 1], last)
       && Usable(table, size, allowed, last) && !HasNext(DescriptorAt(table, last))
  }

  function Descriptors(table: seq<Byte>, path: seq<nat>): seq<Descriptor>
    requires forall i :: 0 <= i < |path| ==> Readable(table, path[i])
  {
    seq(|path|, i requires 0 <= i < |path| => DescriptorAt(table, path[i]))
  }

  /** Every chain from the head begins with every walk from it. */
  lemma {:induction false} ChainExtendsWalk(table: seq<Byte>, size: nat, allowed: U16, head: nat, path: seq<nat>, end: nat, chain: seq<nat>)
    requires Walk(table, size, allowed, head, path, end) && IsChain(table, size, allowed, head, chain)
    ensures |path| < |chain| && chain[..|path|] == path && chain[|path|] == end
    decreases |path|
  {
    hide DescriptorAt, Readable;
    if path != [] {
      var n := |path| - 1;
      var last := path[n];
      assert Walk(table, size, allowed, head, path[..n], last);
      ChainExtendsWalk(table, size, allowed, head, path[..n], last, chain);
      assert chain[n] == last;
      assert path == path[..n] + [last];
    }
  }

  /** A walk that meets an unusable or a visited descriptor rules every chain out. */
  lemma NoChain(table: seq<Byte>, size: nat, allowed: U16, head: nat, path: seq<nat>, end: nat)
    requires Walk(table, size, allowed, head, path, end)
    requires !Usable(table, size, allowed, end) || end in path
    ensures forall chain :: !IsChain(table, size, allowed, head, chain)
  {
    hide DescriptorAt, Readable;
    forall chain
      ensures !IsChain(table, size, allowed, head, chain)
    {
      if IsChain(table, size, allowed, head, chain) {
        ChainExtendsWalk(table, size, allowed, head, path, end, chain);
      }
    }
  }

  lemma LongerChains(table: seq<Byte>, size: nat, allowed: U16, head: nat, path: seq<nat>, end: nat)
    requires Walk(table, size, allowed, head, path, end)
    ensures forall chain :: IsChain(table, size, allowed, head, chain) ==> |chain| > |path|
  {
    hide Walk, IsChain;
    forall chain | IsChain(table, size, allowed, head, chain)
      ensures |chain| > |path|
    {
      ChainExtendsWalk(table, size, allowed, head, path, end, chain);
    }
  }

  lemma WalkOn(table: seq<Byte>, size: nat, allowed: U16, head: nat, path: seq<nat>, end: nat)
    requires Walk(table, size, allowed, head, path, end) && Usable(table, size, allowed, end) && end !in path
    ensures HasNext(DescriptorAt(table, end)) ==>
              Walk(table, size, allowed, head, path + [end], DescriptorAt(table, end).next)
    ensures !HasNext(DescriptorAt(table, end)) ==> IsChain(table, size, allowed, head, path + [end])
  {
    hide DescriptorAt, Readable;
    assert (path + [end])[..|path|] == path;
  }

  function Below(n: nat): (s: set<nat>)
    ensures |s| == n && forall k: nat :: k in s <==> k < n
  {
    if n == 0 then {} else Below(n - 1) + {n - 1}
  }

  function Elements(path: seq<nat>): (s: set<nat>)
    ensures forall k :: k in s <==> k in path
    ensures Unique(path) ==> |s| == |path|
  {
    if path == [] then {}
    else
      var n := |path| - 1;
      assert path == path[..n] + [path[n]];
      Elements(path[..n]) + {path[n]}
  }

  /** Distinct indices below `size` number at most `size`. */
  lemma Pigeonhole(path: seq<nat>, size: nat)
    requires Unique(path) && forall i :: 0 <= i < |path| ==> path[i] < size
    ensures |path| <= size
  {
    SubsetCount(Elements(path), Below(size));
  }

  lemma {:induction false} SubsetCount(a: set<nat>, b: set<nat>)
    requires a <= b
    ensures |a| <= |b|
  {
    if a != {} {
      var x :| x in a;
      SubsetCount(a - {x}, b - {x});
    }
  }

  /** Succeeds exactly when a chain of at most `maxDescriptors` exists, with its descriptors in order. The limit is the
      reason for refusal only when a walk of that many links leads on to a fresh index, so only below the ring size. */
  method SplitRingChain(table: seq<Byte>, head: U16, size: U16, maxDescriptors: nat, allowed: U16)
    returns (r: ChainResult, ghost path: seq<nat>)
    ensures r.Chain? ==> IsChain(table, size, allowed, head, path) && |path| <= maxDescriptors
    ensures r.Chain? ==> (forall i :: 0 <= i < |path| ==> Readable(table, path[i])) && r.descriptors == Descriptors(table, path)
    ensures r.Refused? ==> forall chain :: IsChain(table, size, allowed, head, chain) ==> |chain| > maxDescriptors
    ensures r == Refused(ChainTooLong) ==> |path| == maxDescriptors && LeadsOn(table, size, allowed, head, path)
    ensures r == Refused(ChainTooLong) ==> 0 < maxDescriptors < size
    ensures r == Refused(BadDescriptor) ==> maxDescriptors == 0 || forall chain :: !IsChain(table, size, allowed, head, chain)
  {
    hide DescriptorAt, Readable, Walk, IsChain, Usable, HasNext;
    path := [];
    if size == 0 || maxDescriptors == 0 {
      EmptyRing(table, size, allowed, head);
      return Refused(BadDescriptor), path;
    }
    var index: nat := head;
    var chain: seq<Descriptor> := [];
    var visited := new bool[size](_ => false);
    StartWalk(table, size, allowed, head);
    for step := 0 to maxDescriptors
      invariant |path| == step && Walk(table, size, allowed, head, path, index)
      invariant forall i :: 0 <= i < |path| ==> Readable(table, path[i])
      invariant chain == Descriptors(table, path)
      invariant forall k :: 0 <= k < size ==> (visited[k] <==> k in path)
      invariant step > 0 ==> index < size && index !in path
    {
      if index >= size || visited[index] {
        Unusable(table, size, allowed, index);
        NoChain(table, size, allowed, head, path, index);
        return Refused(BadDescriptor), path;
      }
      visited[index] := true;
      if !Readable(table, index) || !OnlyAllowed(DescriptorAt(table, index).flags, allowed) {
        Unusable(table, size, allowed, index);
        NoChain(table, size, allowed, head, path, index);
        return Refused(BadDescriptor), path;
      }
      var descriptor := DescriptorAt(table, index);
      Unusable(table, size, allowed, index);
      WalkOn(table, size, allowed, head, path, index);
      chain := chain + [descriptor];
      path := path + [index];
      if !HasNext(descriptor) {
        return Chain(chain), path;
      }
      if descriptor.next >= size || visited[descriptor.next] {
        Unusable(table, size, allowed, descriptor.next);
        NoChain(table, size, allowed, head, path, descriptor.next);
        return Refused(BadDescriptor), path;
      }
      index := descriptor.next;
    }
    LongerChains(table, size, allowed, head, path, index);
    WalkFits(table, size, allowed, head, path, index);
    return Refused(ChainTooLong), path;
  }

  /** The walk reaches a descriptor it has not visited. */
  ghost predicate LeadsOn(table: seq<Byte>, size: nat, allowed: U16, head: nat, path: seq<nat>) {
    exists end: nat :: end < size && end !in path && Walk(table, size, allowed, head, path, end)
  }

  lemma WalkFits(table: seq<Byte>, size: nat, allowed: U16, head: nat, path: seq<nat>, end: nat)
    requires Walk(table, size, allowed, head, path, end) && end < size && end !in path
    ensures |path| < size
  {
    Pigeonhole(path + [end], size);
  }

  lemma StartWalk(table: seq<Byte>, size: nat, allowed: U16, head: nat)
    ensures Walk(table, size, allowed, head, [], head)
  {
  }

  lemma EmptyRing(table: seq<Byte>, size: nat, allowed: U16, head: nat)
    ensures size == 0 ==> forall chain :: !IsChain(table, size, allowed, head, chain)
    ensures forall chain :: IsChain(table, size, allowed, head, chain) ==> |chain| > 0
  {
  }

  lemma Unusable(table: seq<Byte>, size: nat, allowed: U16, index: nat)
    ensures Usable(table, size, allowed, index)
            <==> index < size && Readable(table, index) && OnlyAllowed(DescriptorAt(table, index).flags, allowed)
  {
  }
}
