/** The worker's release of retired connections. */
module Worker {
  import opened Words
  import opened VsockWire
  import opened SwitchModel
  import opened SwitchInvariant
  import opened Generations

  /** A retired endpoint whose queued resets are gone. */
  predicate Drained(e: Endpoint) {
    e.retiring.Some? && e.stream.replies == []
  }

  predicate HasPendingReplies(sw: Switch, id: ConnectionId) {
    var index := EndpointIndex(sw, id.guestPort, id.hostPort);
    && index.Some?
    && var e := sw.endpoints[index.value];
       (e.number == id.number || e.retiring == Some(id.number)) && e.stream.replies != []
  }

  /** The receive ring still holds a reply of the connection that would be delivered. */
  predicate RingHolds(sw: Switch, pending: Option<Stamped>, id: ConnectionId) {
    && pending.Some? && pending.value.reply.srcPort == id.hostPort && pending.value.reply.dstPort == id.guestPort
    && IsReplyCurrent(sw, pending.value)
  }

  /** The retired connections without queued replies, in endpoint order. */
  function Candidates(endpoints: seq<Endpoint>): (ids: seq<ConnectionId>) {
    if endpoints == [] then []
    else
      var e := endpoints[0];
      (if Drained(e) then [Identity(e, e.retiring.value)] else []) + Candidates(endpoints[1..])
  }

  /** For a retired endpoint, having no pending replies is having an empty queue. */
  lemma DrainedHasNoReplies(sw: Switch, i: nat)
    requires SwitchOk(sw) && i < |sw.endpoints| && sw.endpoints[i].retiring.Some?
    ensures HasPendingReplies(sw, Identity(sw.endpoints[i], sw.endpoints[i].retiring.value)) <==> !Drained(sw.endpoints[i])
    ensures EndpointIndex(sw, sw.endpoints[i].stream.guestPort, sw.endpoints[i].stream.hostPort) == Some(i)
  {
    hide SwitchOk;
    var e := sw.endpoints[i];
    assert HasPorts(e, e.stream.guestPort, e.stream.hostPort);
    var index := EndpointIndex(sw, e.stream.guestPort, e.stream.hostPort);
    SamePortsSameIndex(sw, index.value, i);
  }

  lemma {:induction false} CandidatesConcat(a: seq<Endpoint>, b: seq<Endpoint>)
    ensures Candidates(a + b) == Candidates(a) + Candidates(b)
  {
    if a == [] {
      assert a + b == b;
    } else {
      hide Drained;
      assert (a + b)[0] == a[0] && (a + b)[1..] == a[1..] + b;
      CandidatesConcat(a[1..], b);
      var head := if Drained(a[0]) then [Identity(a[0], a[0].retiring.value)] else [];
      assert head + (Candidates(a[1..]) + Candidates(b)) == (head + Candidates(a[1..])) + Candidates(b);
    }
  }

  lemma OneCandidate(e: Endpoint)
    ensures Candidates([e]) == if Drained(e) then [Identity(e, e.retiring.value)] else []
  {
    assert [e][1..] == [];
  }

  /** The endpoint a candidate came from. */
  lemma {:induction false} CandidateAt(endpoints: seq<Endpoint>, k: nat) returns (i: nat)
    requires k < |Candidates(endpoints)|
    ensures i < |endpoints| && Drained(endpoints[i]) && Candidates(endpoints)[k] == Identity(endpoints[i], endpoints[i].retiring.value)
    ensures |Candidates(endpoints[..i])| == k
  {
    var first := |Candidates([endpoints[0]])|;
    OneCandidate(endpoints[0]);
    if k < first {
      i := 0;
    } else {
      var j := CandidateAt(endpoints[1..], k - first);
      i := j + 1;
      assert endpoints[..i] == [endpoints[0]] + endpoints[1..][..j];
      CandidatesConcat([endpoints[0]], endpoints[1..][..j]);
    }
  }

  lemma {:induction false} DrainedIsCandidate(endpoints: seq<Endpoint>, i: nat)
    requires i < |endpoints| && Drained(endpoints[i])
    ensures Identity(endpoints[i], endpoints[i].retiring.value) in Candidates(endpoints)
  {
    if i > 0 { DrainedIsCandidate(endpoints[1..], i - 1); }
  }

  /** Replacing or removing a drained endpoint by ones that are not removes exactly its candidate. */
  lemma CandidateGoes(endpoints: seq<Endpoint>, i: nat, replacement: seq<Endpoint>, k: nat)
    requires i < |endpoints| && Drained(endpoints[i]) && Candidates(replacement) == [] && k == |Candidates(endpoints[..i])|
    ensures var after := endpoints[..i] + replacement + endpoints[i + 1..];
            k < |Candidates(endpoints)| && Candidates(after) == Candidates(endpoints)[..k] + Candidates(endpoints)[k + 1..]
  {
    var a, e, b := endpoints[..i], endpoints[i], endpoints[i + 1..];
    assert endpoints == a + ([e] + b);
    CandidatesConcat(a, [e] + b);
    CandidatesConcat([e], b);
    OneCandidate(e);
    CandidatesConcat(a + replacement, b);
    CandidatesConcat(a, replacement);
    assert a + replacement + b == (a + replacement) + b;
  }

  lemma EarlierPrefix(endpoints: seq<Endpoint>, i: nat, j: nat)
    requires i <= j <= |endpoints|
    ensures |Candidates(endpoints[..i])| <= |Candidates(endpoints[..j])|
  {
    assert endpoints[..j] == endpoints[..i] + endpoints[i..j];
    CandidatesConcat(endpoints[..i], endpoints[i..j]);
  }

  /** What releasing endpoint `i` leaves in its place. */
  function Released(sw: Switch, i: nat): seq<Endpoint>
    requires i < |sw.endpoints|
  {
    if i >= FIXED_ENDPOINTS then [] else [sw.endpoints[i].(retiring := None, number := sw.next)]
  }

  /** A drained endpoint is always released, and nothing else changes among the endpoints. */
  lemma ReleaseAt(sw: Switch, i: nat)
    requires SwitchOk(sw) && i < |sw.endpoints| && Drained(sw.endpoints[i])
    ensures var (after, released) := RetireConnection(sw, Identity(sw.endpoints[i], sw.endpoints[i].retiring.value));
            && released && Steps(sw, after)
            && after.endpoints == sw.endpoints[..i] + Released(sw, i) + sw.endpoints[i + 1..]
  {
    hide SwitchOk, Forgive, Renews;
    DrainedHasNoReplies(sw, i);
    RetireConnectionSteps(sw, Identity(sw.endpoints[i], sw.endpoints[i].retiring.value));
    if i < FIXED_ENDPOINTS {
      assert sw.endpoints[i := Released(sw, i)[0]] == sw.endpoints[..i] + Released(sw, i) + sw.endpoints[i + 1..];
    } else {
      assert sw.endpoints[..i] + sw.endpoints[i + 1..] == sw.endpoints[..i] + [] + sw.endpoints[i + 1..];
    }
  }

  predicate CurrentFor(e: Endpoint, r: Stamped) {
    e.number == r.number && (r.reply.op == OP_RW ==> !(e.stream.conn.Some? && e.stream.conn.value.peerReceiveClosed))
  }

  lemma ReplyCurrentAt(sw: Switch, r: Stamped, j: nat)
    requires SwitchOk(sw) && j < |sw.endpoints| && HasPorts(sw.endpoints[j], r.reply.dstPort, r.reply.srcPort)
    ensures IsReplyCurrent(sw, r) <==> CurrentFor(sw.endpoints[j], r)
  {
    hide SwitchOk;
    SamePortsSameIndex(sw, EndpointIndex(sw, r.reply.dstPort, r.reply.srcPort).value, j);
  }

  /** Releasing one connection does not change whether the ring holds an earlier one. */
  lemma RingHoldsStays(sw: Switch, after: Switch, pending: Option<Stamped>, i: nat, j: nat)
    requires SwitchOk(sw) && SwitchOk(after) && j < i < |sw.endpoints| && j < |after.endpoints| && after.endpoints[j] == sw.endpoints[j]
    requires Drained(sw.endpoints[j]) && RingHolds(sw, pending, Identity(sw.endpoints[j], sw.endpoints[j].retiring.value))
    ensures RingHolds(after, pending, Identity(sw.endpoints[j], sw.endpoints[j].retiring.value))
  {
    hide SwitchOk, IsReplyCurrent;
    ReplyCurrentAt(sw, pending.value, j);
    ReplyCurrentAt(after, pending.value, j);
  }

  /** The candidates before `offset` are all held by the ring. */
  predicate Skipped(sw: Switch, pending: Option<Stamped>, offset: nat) {
    && offset <= |Candidates(sw.endpoints)|
    && forall k :: 0 <= k < offset ==> RingHolds(sw, pending, Candidates(sw.endpoints)[k])
  }

  lemma ReleaseCandidate(sw: Switch, pending: Option<Stamped>, offset: nat)
    requires SwitchOk(sw) && Skipped(sw, pending, offset) && offset < |Candidates(sw.endpoints)|
    ensures var (after, released) := RetireConnection(sw, Candidates(sw.endpoints)[offset]);
            && released && Steps(sw, after) && Skipped(after, pending, offset)
            && |Candidates(after.endpoints)| == |Candidates(sw.endpoints)| - 1
            && UndrainedKept(sw.endpoints, after.endpoints)
  {
    hide SwitchOk, Renews, RetireConnection, RingHolds;
    var i := CandidateAt(sw.endpoints, offset);
    ReleaseAt(sw, i);
    var after := RetireConnection(sw, Candidates(sw.endpoints)[offset]).0;
    ReplacementIdle(sw, i);
    CandidateGoes(sw.endpoints, i, Released(sw, i), offset);
    forall k | 0 <= k < offset
      ensures RingHolds(after, pending, Candidates(after.endpoints)[k])
    {
      var j := CandidateAt(sw.endpoints, k);
      if j >= i { EarlierPrefix(sw.endpoints, i, j); }
      assert after.endpoints[j] == sw.endpoints[j];
      RingHoldsStays(sw, after, pending, i, j);
    }
    KeptAround(sw.endpoints, i, Released(sw, i));
  }

  lemma ReplacementIdle(sw: Switch, i: nat)
    requires i < |sw.endpoints|
    ensures Candidates(Released(sw, i)) == []
  {
    if i < FIXED_ENDPOINTS { OneCandidate(Released(sw, i)[0]); }
  }

  /** Endpoints that are not drained stay as they are. */
  predicate UndrainedKept(endpoints: seq<Endpoint>, after: seq<Endpoint>) {
    forall i :: 0 <= i < |endpoints| && !Drained(endpoints[i]) ==> endpoints[i] in after
  }

  lemma KeptAround(endpoints: seq<Endpoint>, i: nat, replacement: seq<Endpoint>)
    requires i < |endpoints| && Drained(endpoints[i])
    ensures UndrainedKept(endpoints, endpoints[..i] + replacement + endpoints[i + 1..])
  {
    var after := endpoints[..i] + replacement + endpoints[i + 1..];
    forall j | 0 <= j < |endpoints| && j != i
      ensures endpoints[j] in after
    {
      if j < i { assert after[j] == endpoints[j]; } else { assert after[j + |replacement| - 1] == endpoints[j]; }
    }
  }

  lemma KeptTransitive(a: seq<Endpoint>, b: seq<Endpoint>, c: seq<Endpoint>)
    requires UndrainedKept(a, b) && UndrainedKept(b, c)
    ensures UndrainedKept(a, c)
  {
  }

  /** Releases every retired connection whose resets are gone, except one whose reset the receive ring still holds. */
  method RetireConnections(start: Switch, pending: Option<Stamped>) returns (sw: Switch, progressed: bool)
    requires SwitchOk(start)
    ensures SwitchOk(sw) && Renews(start, sw) && UndrainedKept(start.endpoints, sw.endpoints)
    ensures forall i :: 0 <= i < |sw.endpoints| && Drained(sw.endpoints[i]) ==>
              RingHolds(sw, pending, Identity(sw.endpoints[i], sw.endpoints[i].retiring.value))
    ensures !progressed ==> sw == start
    ensures progressed ==> |Candidates(sw.endpoints)| < |Candidates(start.endpoints)|
  {
    hide SwitchOk, Renews, RetireConnection, RingHolds;
    sw, progressed := start, false;
    SameEndpointsRenew(start, start);
    var offset := 0;
    while true
      invariant SwitchOk(sw) && Renews(start, sw) && UndrainedKept(start.endpoints, sw.endpoints)
      invariant Skipped(sw, pending, offset)
      invariant !progressed ==> sw == start
      invariant progressed ==> |Candidates(sw.endpoints)| < |Candidates(start.endpoints)|
      decreases |Candidates(sw.endpoints)| - offset
    {
      var candidates := Candidates(sw.endpoints);
      if offset >= |candidates| {
        break;
      }
      ReleaseCandidate(sw, pending, offset);
      var (next, released) := RetireConnection(sw, candidates[offset]);
      if !RingHolds(sw, pending, candidates[offset]) && released {
        RenewsTransitive(start, sw, next);
        KeptTransitive(start.endpoints, sw.endpoints, next.endpoints);
        sw, progressed := next, true;
      } else {
        offset := offset + 1;
      }
    }
    forall i | 0 <= i < |sw.endpoints| && Drained(sw.endpoints[i])
      ensures RingHolds(sw, pending, Identity(sw.endpoints[i], sw.endpoints[i].retiring.value))
    {
      DrainedIsCandidate(sw.endpoints, i);
    }
  }
}
