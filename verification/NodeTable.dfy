/** The FUSE node table: an index by identity, lookup counts, open handles and eviction. */
module NodeTable {
  import opened Words

  const ROOT: nat := 1
  const MAX_HANDLES: nat := 2048
  const MAX_DIRECTORIES: nat := 2048

  datatype Identity = Identity(dev: nat, ino: nat)

  /** `node` stands for the host's path to the file. */
  datatype NodeRecord = NodeRecord(id: Identity, lookups: nat, node: nat)

  datatype TableError = EMFILE
  datatype IdResult = Id(id: nat) | Failed(error: TableError)

  function SaturatingAdd(a: nat, b: nat): nat {
    Min(a + b, U64_LIMIT - 1)
  }

  /** The 64-bit counter after an id was taken: it wraps past the reserved ids. */
  function NextId(n: nat): nat {
    var next := (n + 1) % U64_LIMIT;
    if next < 2 then 2 else next
  }

  function Smallest(s: set<nat>): (least: nat)
    requires s != {}
    ensures least in s && forall x :: x in s ==> least <= x
  {
    SmallestExists(s);
    var least :| IsSmallest(s, least);
    least
  }

  predicate IsSmallest(s: set<nat>, least: nat) {
    least in s && forall x :: x in s ==> least <= x
  }

  lemma {:induction false} SmallestExists(s: set<nat>)
    requires s != {}
    ensures exists least :: IsSmallest(s, least)
  {
    var x :| x in s;
    var rest := s - {x};
    if rest == {} {
      assert s == {x};
      assert IsSmallest(s, x);
    } else {
      SmallestExists(rest);
      var least :| IsSmallest(rest, least);
      SmallestOfRest(s, x, least);
    }
  }

  lemma SmallestOfRest(s: set<nat>, x: nat, least: nat)
    requires x in s && IsSmallest(s - {x}, least)
    ensures IsSmallest(s, Min(x, least))
  {
    forall y | y in s
      ensures Min(x, least) <= y
    {
      assert y == x || y in s - {x};
    }
  }

  /** Some open handle of the map is on the node. */
  predicate Opens(open: map<nat, nat>, id: nat) {
    exists h :: h in open && open[h] == id
  }

  lemma OpensMore(open: map<nat, nat>, handle: nat, node: nat)
    requires handle !in open
    ensures forall id :: Opens(open[handle := node], id) <==> id == node || Opens(open, id)
  {
    var more := open[handle := node];
    forall id
      ensures Opens(more, id) <==> id == node || Opens(open, id)
    {
      if id == node { assert more[handle] == id; }
      if Opens(open, id) {
        var h :| h in open && open[h] == id;
        assert more[h] == id;
      }
    }
  }

  lemma OpensFewer(open: map<nat, nat>, handle: nat)
    requires handle in open
    ensures forall id :: id != open[handle] ==> (Opens(open - {handle}, id) <==> Opens(open, id))
  {
    var fewer := open - {handle};
    forall id | id != open[handle]
      ensures Opens(fewer, id) <==> Opens(open, id)
    {
      if Opens(open, id) {
        var h :| h in open && open[h] == id;
        assert fewer[h] == id;
      }
    }
  }

  /** The two indices are inverse, hold ids below the next one only, and are within capacity. */
  predicate Indexed(nodes: map<nat, NodeRecord>, byIdentity: map<Identity, nat>, maxNodes: nat, next: nat) {
    && |nodes| <= maxNodes
    && (forall id :: id in nodes ==> nodes[id].id in byIdentity && byIdentity[nodes[id].id] == id && ROOT <= id < next)
    && (forall k :: k in byIdentity ==> byIdentity[k] in nodes && nodes[byIdentity[k]].id == k)
  }

  /** A node that may go: not the root, no lookups and no open handle. */
  predicate Disposable(nodes: map<nat, NodeRecord>, handles: map<nat, nat>, directories: map<nat, nat>, id: nat) {
    id != ROOT && id in nodes && nodes[id].lookups == 0 && !Opens(handles, id) && !Opens(directories, id)
  }

  ghost predicate UnusedOk(nodes: map<nat, NodeRecord>, handles: map<nat, nat>, directories: map<nat, nat>, unused: set<nat>) {
    forall id :: id in unused <==> Disposable(nodes, handles, directories, id)
  }

  lemma IndexUpdate(nodes: map<nat, NodeRecord>, byIdentity: map<Identity, nat>, maxNodes: nat, next: nat, id: nat, record: NodeRecord)
    requires Indexed(nodes, byIdentity, maxNodes, next) && id in nodes && record.id == nodes[id].id
    ensures Indexed(nodes[id := record], byIdentity, maxNodes, next)
  {
    assert nodes[id := record].Keys == nodes.Keys;
    SameSize(nodes, nodes[id := record]);
  }

  lemma IndexInsert(nodes: map<nat, NodeRecord>, byIdentity: map<Identity, nat>, maxNodes: nat, next: nat, record: NodeRecord)
    requires Indexed(nodes, byIdentity, maxNodes, next) && |nodes| < maxNodes && record.id !in byIdentity && ROOT <= next
    ensures Indexed(nodes[next := record], byIdentity[record.id := next], maxNodes, next + 1)
  {
    assert nodes[next := record].Keys == nodes.Keys + {next};
    assert |nodes[next := record].Keys| == |nodes.Keys| + 1;
  }

  lemma IndexRemove(nodes: map<nat, NodeRecord>, byIdentity: map<Identity, nat>, maxNodes: nat, next: nat, id: nat)
    requires Indexed(nodes, byIdentity, maxNodes, next) && id in nodes
    ensures Indexed(nodes - {id}, byIdentity - {nodes[id].id}, maxNodes, next) && |nodes - {id}| == |nodes| - 1
  {
    assert (nodes - {id}).Keys == nodes.Keys - {id};
    assert |(nodes - {id}).Keys| == |nodes.Keys| - 1;
  }

  lemma SameSize<T>(a: map<nat, T>, b: map<nat, T>)
    requires a.Keys == b.Keys
    ensures |a| == |b|
  {
    assert |a.Keys| == |a| && |b.Keys| == |b|;
  }

  lemma SizeAfter(open: map<nat, nat>, handle: nat, node: nat)
    ensures handle !in open ==> |open[handle := node]| == |open| + 1
    ensures handle in open ==> |open - {handle}| == |open| - 1
  {
    if handle in open {
      assert (open - {handle}).Keys == open.Keys - {handle};
      assert |(open - {handle}).Keys| == |open.Keys| - 1;
    } else {
      assert open[handle := node].Keys == open.Keys + {handle};
      assert |open[handle := node].Keys| == |open.Keys| + 1;
    }
  }

  // ----- How each change moves the disposable nodes

  lemma UnusedRecord(nodes: map<nat, NodeRecord>, handles: map<nat, nat>, directories: map<nat, nat>, unused: set<nat>, id: nat, record: NodeRecord)
    requires UnusedOk(nodes, handles, directories, unused)
    ensures var after := nodes[id := record];
            UnusedOk(after, handles, directories, unused - {id} + if Disposable(after, handles, directories, id) then {id} else {})
  {
    hide Opens;
  }

  lemma UnusedRemove(nodes: map<nat, NodeRecord>, handles: map<nat, nat>, directories: map<nat, nat>, unused: set<nat>, id: nat)
    requires UnusedOk(nodes, handles, directories, unused)
    ensures UnusedOk(nodes - {id}, handles, directories, unused - {id})
  {
    hide Opens;
  }

  lemma UnusedOpen(nodes: map<nat, NodeRecord>, open: map<nat, nat>, other: map<nat, nat>, unused: set<nat>, handle: nat, node: nat)
    requires UnusedOk(nodes, open, other, unused) && handle !in open
    ensures UnusedOk(nodes, open[handle := node], other, unused - {node})
  {
    hide Opens;
    OpensMore(open, handle, node);
    var more := open[handle := node];
    forall id
      ensures id in unused - {node} <==> Disposable(nodes, more, other, id)
    {
      assert Opens(more, id) <==> id == node || Opens(open, id);
      assert id in unused <==> Disposable(nodes, open, other, id);
    }
  }

  lemma UnusedClose(nodes: map<nat, NodeRecord>, open: map<nat, nat>, other: map<nat, nat>, unused: set<nat>, handle: nat)
    requires UnusedOk(nodes, open, other, unused) && handle in open
    ensures var fewer, node := open - {handle}, open[handle];
            UnusedOk(nodes, fewer, other, unused + if Disposable(nodes, fewer, other, node) then {node} else {})
  {
    hide Opens;
    OpensFewer(open, handle);
    assert Opens(open, open[handle]) by { HandleOpens(open, handle); }
  }

  lemma HandleOpens(open: map<nat, nat>, handle: nat)
    requires handle in open
    ensures Opens(open, open[handle])
  {
  }

  lemma UnusedSwap(nodes: map<nat, NodeRecord>, a: map<nat, nat>, b: map<nat, nat>, unused: set<nat>, id: nat)
    ensures UnusedOk(nodes, a, b, unused) <==> UnusedOk(nodes, b, a, unused)
    ensures Disposable(nodes, a, b, id) <==> Disposable(nodes, b, a, id)
  {
    hide Opens;
    forall i
      ensures Disposable(nodes, a, b, i) <==> Disposable(nodes, b, a, i)
    {
    }
  }

  lemma UnusedCloseDirectory(nodes: map<nat, NodeRecord>, handles: map<nat, nat>, directories: map<nat, nat>, unused: set<nat>, handle: nat)
    requires UnusedOk(nodes, handles, directories, unused) && handle in directories
    ensures var fewer, node := directories - {handle}, directories[handle];
            UnusedOk(nodes, handles, fewer, unused + if Disposable(nodes, handles, fewer, node) then {node} else {})
  {
    hide UnusedOk, Disposable;
    var fewer, node := directories - {handle}, directories[handle];
    UnusedSwap(nodes, handles, directories, unused, node);
    UnusedClose(nodes, directories, handles, unused, handle);
    UnusedSwap(nodes, handles, fewer, unused + if Disposable(nodes, handles, fewer, node) then {node} else {}, node);
  }

  /** A node whose lookups only went down stays disposable if it was. */
  lemma UnusedForget(nodes: map<nat, NodeRecord>, handles: map<nat, nat>, directories: map<nat, nat>, unused: set<nat>, id: nat, record: NodeRecord)
    requires UnusedOk(nodes, handles, directories, unused) && id in nodes && record.lookups <= nodes[id].lookups
    ensures var after := nodes[id := record];
            UnusedOk(after, handles, directories, unused + if Disposable(after, handles, directories, id) then {id} else {})
  {
    hide Opens;
  }

  function RootNodes(root: Option<NodeRecord>): map<nat, NodeRecord> {
    if root.Some? then map[ROOT := root.value] else map[]
  }

  function RootIndex(root: Option<NodeRecord>): map<Identity, nat> {
    if root.Some? then map[root.value.id := ROOT] else map[]
  }

  lemma OnlyRoot(root: Option<NodeRecord>, maxNodes: nat)
    requires maxNodes >= 1
    ensures Indexed(RootNodes(root), RootIndex(root), maxNodes, 2) && UnusedOk(RootNodes(root), map[], map[], {})
  {
  }

  class Table {
    const maxNodes: nat
    var nodes: map<nat, NodeRecord>
    var idByIdentity: map<Identity, nat>
    var unused: set<nat>
    var handles: map<nat, nat>
    var directories: map<nat, nat>
    var nextHandle: nat
    var nextNode: nat
    /** Every id issued since the last reset. */
    ghost var issued: set<nat>

    ghost predicate Valid()
      reads this
    {
      && Indexed(nodes, idByIdentity, maxNodes, nextNode) && ROOT < nextNode
      && (forall id :: id in issued ==> id < nextNode)
      && |handles| <= MAX_HANDLES && |directories| <= MAX_DIRECTORIES
      && (forall h :: h in handles || h in directories ==> h < nextHandle) && ROOT < nextHandle
      && UnusedOk(nodes, handles, directories, unused)
    }

    constructor (maxNodes: nat, root: Option<NodeRecord>)
      requires maxNodes >= 1
      ensures Valid() && this.maxNodes == maxNodes
      ensures nodes == RootNodes(root)
      ensures handles == map[] && directories == map[] && nextHandle == 2 && nextNode == 2
    {
      OnlyRoot(root, maxNodes);
      this.maxNodes := maxNodes;
      nodes := RootNodes(root);
      idByIdentity := RootIndex(root);
      unused, handles, directories, nextHandle, nextNode, issued := {}, map[], map[], 2, 2, {};
    }

    /** Removes the smallest unused node; it is not the root, has no lookups and no open handle. */
    method EvictUnusedNode()
      requires Valid()
      modifies this`nodes, this`idByIdentity, this`unused
      ensures Valid()
      ensures old(unused) == {} ==> nodes == old(nodes) && idByIdentity == old(idByIdentity)
      ensures old(unused) != {} ==>
                var evicted := Smallest(old(unused));
                && Disposable(old(nodes), handles, directories, evicted)
                && nodes == old(nodes) - {evicted} && |nodes| == |old(nodes)| - 1
                && idByIdentity == old(idByIdentity) - {old(nodes)[evicted].id}
    {
      hide Opens, Indexed;
      if unused != {} {
        var evicted := Smallest(unused);
        assert Disposable(nodes, handles, directories, evicted);
        IndexRemove(nodes, idByIdentity, maxNodes, nextNode, evicted);
        UnusedRemove(nodes, handles, directories, unused, evicted);
        unused := unused - {evicted};
        idByIdentity := idByIdentity - {nodes[evicted].id};
        nodes := nodes - {evicted};
      }
    }

    /** The id of a file: its present one with one more lookup, or a new one that was never issued before. Only taking the
        last id of the 64-bit counter does not keep the invariant: the counter starts over. */
    method NodeId(node: nat, identity: Identity) returns (r: IdResult)
      requires Valid()
      modifies this`nodes, this`idByIdentity, this`unused, this`nextNode, this`issued
      ensures old(nextNode) + 1 < U64_LIMIT || nextNode == old(nextNode) ==> Valid()
      ensures identity in old(idByIdentity) ==>
                var id := old(idByIdentity)[identity];
                && id in old(nodes) && r == Id(id) && nextNode == old(nextNode) && issued == old(issued)
                && nodes == old(nodes)[id := NodeRecord(identity, SaturatingAdd(old(nodes)[id].lookups, 1), node)]
      ensures identity !in old(idByIdentity) ==>
                var full := |old(nodes)| == maxNodes;
                if full && old(unused) == {} then r == Failed(EMFILE) && nodes == old(nodes) && nextNode == old(nextNode) && issued == old(issued)
                else
                  && r == Id(old(nextNode)) && nextNode == NextId(old(nextNode))
                  && r.id !in old(issued) && issued == old(issued) + {r.id}
                  && nodes == (if full then old(nodes) - {Smallest(old(unused))} else old(nodes))[r.id := NodeRecord(identity, 1, node)]
    {
      hide UnusedOk, Smallest, Disposable, Indexed;
      IdentityFacts(nodes, idByIdentity, maxNodes, nextNode, identity);
      if identity in idByIdentity {
        var id := idByIdentity[identity];
        var record := NodeRecord(identity, SaturatingAdd(nodes[id].lookups, 1), node);
        LookedUp(nodes[id := record], handles, directories, id);
        assert unused - {id} + {} == unused - {id};
        IndexUpdate(nodes, idByIdentity, maxNodes, nextNode, id, record);
        UnusedRecord(nodes, handles, directories, unused, id, record);
        unused := unused - {id};
        nodes := nodes[id := record];
        return Id(id);
      }
      if |nodes| == maxNodes {
        EvictUnusedNode();
      }
      if |nodes| == maxNodes {
        return Failed(EMFILE);
      }
      var id := Insert(identity, node);
      return Id(id);
    }

    method Insert(identity: Identity, node: nat) returns (id: nat)
      requires Valid() && |nodes| < maxNodes && identity !in idByIdentity
      modifies this`nodes, this`idByIdentity, this`nextNode, this`issued
      ensures old(nextNode) + 1 < U64_LIMIT ==> Valid()
      ensures id !in old(issued) && issued == old(issued) + {id}
      ensures id == old(nextNode) && nextNode == NextId(id) && nodes == old(nodes)[id := NodeRecord(identity, 1, node)]
    {
      hide UnusedOk, Indexed, Disposable;
      id := nextNode;
      var record := NodeRecord(identity, 1, node);
      NextIsNew(nodes, idByIdentity, maxNodes, id);
      IndexInsert(nodes, idByIdentity, maxNodes, id, record);
      UnusedInsert(nodes, handles, directories, unused, id, record);
      nextNode := NextId(nextNode);
      issued := issued + {id};
      nodes := nodes[id := record];
      idByIdentity := idByIdentity[identity := id];
    }

    predicate NodeIsHeld(id: nat)
      reads this`handles, this`directories
    {
      Opens(handles, id) || Opens(directories, id)
    }

    method MarkUnusedIfUnheld(id: nat)
      modifies this`unused
      ensures unused == old(unused) + if Disposable(nodes, handles, directories, id) then {id} else {}
    {
      if id != ROOT && id in nodes && nodes[id].lookups == 0 && !NodeIsHeld(id) {
        unused := unused + {id};
      }
    }

    method Forget(id: nat, count: nat)
      requires Valid()
      modifies this`nodes, this`unused
      ensures Valid()
      ensures nodes == if id != ROOT && id in old(nodes)
                       then old(nodes)[id := old(nodes)[id].(lookups := SaturatingSub(old(nodes)[id].lookups, count))]
                       else old(nodes)
    {
      hide Opens, Indexed, UnusedOk;
      if id == ROOT {
        return;
      }
      if id in nodes {
        var record := nodes[id].(lookups := SaturatingSub(nodes[id].lookups, count));
        IndexUpdate(nodes, idByIdentity, maxNodes, nextNode, id, record);
        UnusedForget(nodes, handles, directories, unused, id, record);
        nodes := nodes[id := record];
      }
      MarkUnusedIfUnheld(id);
      assert id !in old(nodes) ==> unused == old(unused);
    }

    method IncrementLookup(id: nat)
      requires Valid()
      modifies this`nodes, this`unused
      ensures Valid()
      ensures nodes == if id in old(nodes)
                       then old(nodes)[id := old(nodes)[id].(lookups := SaturatingAdd(old(nodes)[id].lookups, 1))]
                       else old(nodes)
    {
      hide Opens, Indexed, UnusedOk;
      if id in nodes {
        var record := nodes[id].(lookups := SaturatingAdd(nodes[id].lookups, 1));
        IndexUpdate(nodes, idByIdentity, maxNodes, nextNode, id, record);
        UnusedRecord(nodes, handles, directories, unused, id, record);
        nodes := nodes[id := record];
        unused := unused - {id};
        assert unused + {} == unused && !Disposable(nodes, handles, directories, id);
      }
    }

    method RepointNode(identity: Identity, node: nat)
      requires Valid()
      modifies this`nodes
      ensures Valid()
      ensures nodes == if identity in idByIdentity && idByIdentity[identity] in old(nodes)
                       then old(nodes)[idByIdentity[identity] := old(nodes)[idByIdentity[identity]].(node := node)]
                       else old(nodes)
    {
      hide Opens, Indexed, UnusedOk;
      if identity in idByIdentity && idByIdentity[identity] in nodes {
        var id := idByIdentity[identity];
        var record := nodes[id].(node := node);
        IndexUpdate(nodes, idByIdentity, maxNodes, nextNode, id, record);
        UnusedRecord(nodes, handles, directories, unused, id, record);
        UnusedMeans(nodes, handles, directories, unused, id);
        nodes := nodes[id := record];
        assert unused - {id} + (if Disposable(nodes, handles, directories, id) then {id} else {}) == unused;
      }
    }

    /** Opens a file; its node is not unused while the handle is open, even if the node was evicted meanwhile. */
    method StoreHandle(node: nat) returns (r: IdResult)
      requires Valid()
      modifies this`handles, this`unused, this`nextHandle
      ensures old(nextHandle) + 1 < U64_LIMIT || r.Failed? ==> Valid()
      ensures (r.Id? ==> node !in unused) && nextHandle == if r.Id? then NextId(old(nextHandle)) else old(nextHandle)
      ensures r == if |old(handles)| == MAX_HANDLES then Failed(EMFILE) else Id(old(nextHandle))
      ensures handles == if r.Id? then old(handles)[r.id := node] else old(handles)
    {
      hide Opens, Indexed, UnusedOk;
      if |handles| == MAX_HANDLES {
        return Failed(EMFILE);
      }
      r := Id(nextHandle);
      SizeAfter(handles, r.id, node);
      UnusedOpen(nodes, handles, directories, unused, r.id, node);
      nextHandle := NextId(nextHandle);
      handles := handles[r.id := node];
      unused := unused - {node};
    }

    method StoreDirectory(node: nat) returns (r: IdResult)
      requires Valid()
      modifies this`directories, this`unused, this`nextHandle
      ensures old(nextHandle) + 1 < U64_LIMIT || r.Failed? ==> Valid()
      ensures (r.Id? ==> node !in unused) && nextHandle == if r.Id? then NextId(old(nextHandle)) else old(nextHandle)
      ensures r == if |old(directories)| == MAX_DIRECTORIES then Failed(EMFILE) else Id(old(nextHandle))
      ensures directories == if r.Id? then old(directories)[r.id := node] else old(directories)
    {
      hide Opens, Indexed, UnusedOk;
      if |directories| == MAX_DIRECTORIES {
        return Failed(EMFILE);
      }
      r := Id(nextHandle);
      SizeAfter(directories, r.id, node);
      UnusedSwap(nodes, handles, directories, unused, node);
      UnusedOpen(nodes, directories, handles, unused, r.id, node);
      nextHandle := NextId(nextHandle);
      directories := directories[r.id := node];
      unused := unused - {node};
      UnusedSwap(nodes, handles, directories, unused, node);
    }

    method ReleaseFile(handle: nat)
      requires Valid()
      modifies this`handles, this`unused
      ensures Valid() && handles == if handle in old(handles) then old(handles) - {handle} else old(handles)
    {
      hide Opens, Indexed, UnusedOk, Disposable;
      if handle in handles {
        var node := handles[handle];
        SizeAfter(handles, handle, node);
        UnusedClose(nodes, handles, directories, unused, handle);
        handles := handles - {handle};
        MarkUnusedIfUnheld(node);
      }
    }

    method ReleaseDirectory(handle: nat)
      requires Valid()
      modifies this`directories, this`unused
      ensures Valid() && directories == if handle in old(directories) then old(directories) - {handle} else old(directories)
    {
      hide Opens, Indexed, UnusedOk, Disposable;
      if handle in directories {
        var node := directories[handle];
        SizeAfter(directories, handle, node);
        UnusedCloseDirectory(nodes, handles, directories, unused, handle);
        directories := directories - {handle};
        MarkUnusedIfUnheld(node);
      }
    }

    /** A reset keeps the root only; ids start again. */
    method ClearRuntime()
      requires Valid() && maxNodes >= 1
      modifies this
      ensures Valid()
      ensures nodes == RootNodes(if ROOT in old(nodes) then Some(old(nodes)[ROOT]) else None)
      ensures handles == map[] && directories == map[] && unused == {} && nextNode == 2 && nextHandle == 2
    {
      hide Indexed, UnusedOk, RootNodes, RootIndex;
      var root := if ROOT in nodes then Some(nodes[ROOT]) else None;
      OnlyRoot(root, maxNodes);
      nodes := RootNodes(root);
      idByIdentity := RootIndex(root);
      unused, handles, directories, nextHandle, nextNode, issued := {}, map[], map[], 2, 2, {};
    }
  }

  lemma UnusedMeans(nodes: map<nat, NodeRecord>, handles: map<nat, nat>, directories: map<nat, nat>, unused: set<nat>, id: nat)
    requires UnusedOk(nodes, handles, directories, unused)
    ensures id in unused <==> Disposable(nodes, handles, directories, id)
  {
  }

  lemma IdentityFacts(nodes: map<nat, NodeRecord>, byIdentity: map<Identity, nat>, maxNodes: nat, next: nat, identity: Identity)
    requires Indexed(nodes, byIdentity, maxNodes, next)
    ensures |nodes| <= maxNodes
    ensures identity in byIdentity ==> byIdentity[identity] in nodes && nodes[byIdentity[identity]].id == identity
  {
  }

  lemma LookedUp(nodes: map<nat, NodeRecord>, handles: map<nat, nat>, directories: map<nat, nat>, id: nat)
    requires id in nodes && nodes[id].lookups > 0
    ensures !Disposable(nodes, handles, directories, id)
  {
  }

  /** A new record that is looked up leaves the disposable nodes as they are. */
  lemma UnusedInsert(nodes: map<nat, NodeRecord>, handles: map<nat, nat>, directories: map<nat, nat>, unused: set<nat>, id: nat, record: NodeRecord)
    requires UnusedOk(nodes, handles, directories, unused) && id !in nodes && record.lookups > 0
    ensures UnusedOk(nodes[id := record], handles, directories, unused)
  {
    hide Opens;
  }

  lemma NextIsNew(nodes: map<nat, NodeRecord>, byIdentity: map<Identity, nat>, maxNodes: nat, next: nat)
    requires Indexed(nodes, byIdentity, maxNodes, next)
    ensures next !in nodes
  {
  }
}
