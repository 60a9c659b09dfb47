/** Bounded bypass of the two-level round robin that takes replies. */
module Fairness {
  import opened Words
  import opened Modular
  import opened VsockWire
  import opened StreamModel
  import opened SwitchModel

  /** How many classes the class cursor passes before it reaches `class_`. */
  function ClassDistance(sw: Switch, class_: nat): nat {
    Mod(class_ - sw.nextReply, REPLY_CLASSES)
  }

  /** How many flows the flow cursor passes before it reaches endpoint `i`. */
  function FlowDistance(sw: Switch, i: nat): nat
    requires FIXED_ENDPOINTS <= i < |sw.endpoints|
  {
    Mod(i - FIXED_ENDPOINTS - sw.nextFlowReply, FlowCount(sw))
  }

  /** An upper bound on the takes that can still bypass endpoint `i`. */
  function Rank(sw: Switch, i: nat): nat
    requires i < |sw.endpoints|
  {
    if i < FIXED_ENDPOINTS then ClassDistance(sw, i)
    else REPLY_CLASSES * FlowDistance(sw, i) + ClassDistance(sw, FIXED_ENDPOINTS)
  }

  lemma RankBound(sw: Switch, i: nat)
    requires i < |sw.endpoints|
    ensures i < FIXED_ENDPOINTS ==> Rank(sw, i) < REPLY_CLASSES
    ensures i >= FIXED_ENDPOINTS ==> Rank(sw, i) < REPLY_CLASSES * FlowCount(sw)
  {
  }

  /** The take removed the head of endpoint `i` and stamped it with the endpoint's number. */
  predicate Serves(sw: Switch, i: nat, after: Switch, reply: Option<Stamped>)
    requires i < |sw.endpoints|
  {
    var queue := sw.endpoints[i].stream.replies;
    && queue != []
    && reply == Some(Stamped(sw.endpoints[i].number, queue[0]))
    && after.endpoints == sw.endpoints[i := sw.endpoints[i].(stream := sw.endpoints[i].stream.(replies := queue[1..]))]
  }

  lemma TakeFromServes(sw: Switch, i: nat, maxBytes: nat)
    requires CanTake(sw, i, maxBytes)
    ensures Serves(sw, i, TakeFrom(sw, i, maxBytes).0, TakeFrom(sw, i, maxBytes).1)
    ensures TakeFrom(sw, i, maxBytes).0.nextReply == sw.nextReply && TakeFrom(sw, i, maxBytes).0.nextFlowReply == sw.nextFlowReply
  {
  }

  /** The flow scan serves the first takeable flow; a takeable flow is reached no later than its distance. */
  lemma {:induction false} TakeFlowServes(sw: Switch, maxBytes: nat, offset: nat, i: nat) returns (o: nat)
    requires FIXED_ENDPOINTS <= i < |sw.endpoints| && CanTake(sw, i, maxBytes)
    requires offset <= FlowDistance(sw, i)
    ensures offset <= o <= FlowDistance(sw, i)
    ensures var (after, reply) := TakeFlow(sw, maxBytes, offset);
            && Serves(sw, FlowAt(sw, o), after, reply)
            && after.nextReply == sw.nextReply
            && after.nextFlowReply == Mod(FlowAt(sw, o) - FIXED_ENDPOINTS + 1, FlowCount(sw))
    decreases FlowCount(sw) - offset
  {
    hide TakeFrom, TakeReply, Serves, Mod;
    DistanceReaches(sw.nextFlowReply, i - FIXED_ENDPOINTS, FlowCount(sw));
    if CanTake(sw, FlowAt(sw, offset), maxBytes) {
      o := offset;
      TakeFromServes(sw, FlowAt(sw, offset), maxBytes);
      SameCursorsServe(sw, FlowAt(sw, offset), TakeFrom(sw, FlowAt(sw, offset), maxBytes).0,
                       TakeFlow(sw, maxBytes, offset).0, TakeFrom(sw, FlowAt(sw, offset), maxBytes).1);
    } else {
      o := TakeFlowServes(sw, maxBytes, offset + 1, i);
    }
  }

  lemma SameCursorsServe(sw: Switch, i: nat, a: Switch, b: Switch, reply: Option<Stamped>)
    requires i < |sw.endpoints| && Serves(sw, i, a, reply) && a.endpoints == b.endpoints
    ensures Serves(sw, i, b, reply)
  {
  }

  /** One take: it serves endpoint `i`, or it serves another one and brings both cursors closer to `i`. */
  predicate Progress(sw: Switch, i: nat, after: Switch, reply: Option<Stamped>)
    requires i < |sw.endpoints|
  {
    || Serves(sw, i, after, reply)
    || (&& reply.Some? && |after.endpoints| == |sw.endpoints| && after.endpoints[i] == sw.endpoints[i]
        && Rank(after, i) < Rank(sw, i))
  }

  /** The class that holds endpoint `i`. */
  function ClassOf(i: nat): nat {
    if i < FIXED_ENDPOINTS then i else FIXED_ENDPOINTS
  }

  /** A flow take leaves the fixed endpoints alone. */
  lemma {:induction false} TakeFlowSparesFixed(sw: Switch, maxBytes: nat, offset: nat)
    requires |sw.endpoints| >= FIXED_ENDPOINTS && offset <= FlowCount(sw)
    ensures var after := TakeFlow(sw, maxBytes, offset).0;
            && |after.endpoints| == |sw.endpoints| && after.nextReply == sw.nextReply
            && after.endpoints[0] == sw.endpoints[0] && after.endpoints[1] == sw.endpoints[1]
    decreases FlowCount(sw) - offset
  {
    hide TakeReply;
    if offset < FlowCount(sw) && !CanTake(sw, FlowAt(sw, offset), maxBytes) {
      TakeFlowSparesFixed(sw, maxBytes, offset + 1);
    }
  }

  /** The flow class is served: endpoint `i` itself, or an earlier flow and the flow cursor moves closer. */
  lemma FlowClassProgress(sw: Switch, maxBytes: nat, i: nat)
    requires FIXED_ENDPOINTS <= i && CanTake(sw, i, maxBytes)
    ensures var (after, reply) := TakeFlow(sw, maxBytes, 0);
            && reply.Some? && |after.endpoints| == |sw.endpoints|
            && (Serves(sw, i, after, reply)
                || (after.endpoints[i] == sw.endpoints[i] && FlowDistance(after, i) < FlowDistance(sw, i)))
  {
    hide TakeFlow, TakeReply, Serves, Mod;
    var o := TakeFlowServes(sw, maxBytes, 0, i);
    var (after, reply) := TakeFlow(sw, maxBytes, 0);
    ServesOne(sw, FlowAt(sw, o), after, reply);
    FlowCursorMoves(sw, after, i, o);
  }

  /** The scan at the distance of `i` finds `i`; stopping earlier leaves the cursor closer to `i`. */
  lemma FlowCursorMoves(sw: Switch, after: Switch, i: nat, o: nat)
    requires FIXED_ENDPOINTS <= i < |sw.endpoints| == |after.endpoints| && o <= FlowDistance(sw, i)
    requires after.nextFlowReply == Mod(FlowAt(sw, o) - FIXED_ENDPOINTS + 1, FlowCount(sw))
    ensures FIXED_ENDPOINTS <= FlowAt(sw, o) < |sw.endpoints|
    ensures if o == FlowDistance(sw, i) then FlowAt(sw, o) == i
            else FlowAt(sw, o) != i && FlowDistance(after, i) < FlowDistance(sw, i)
  {
    hide Mod;
    var n := FlowCount(sw);
    if o == FlowDistance(sw, i) {
      DistanceReaches(sw.nextFlowReply, i - FIXED_ENDPOINTS, n);
    } else {
      CyclicOffset(sw.nextFlowReply, o, n);
      CursorAdvances(sw.nextFlowReply, o, i - FIXED_ENDPOINTS, n);
    }
  }

  lemma ServesOne(sw: Switch, i: nat, after: Switch, reply: Option<Stamped>)
    requires i < |sw.endpoints| && Serves(sw, i, after, reply)
    ensures reply.Some? && |after.endpoints| == |sw.endpoints|
    ensures forall j :: 0 <= j < |sw.endpoints| && j != i ==> after.endpoints[j] == sw.endpoints[j]
  {
  }

  /** Serving a class before the one of endpoint `i`. */
  lemma EarlierClassProgress(sw: Switch, maxBytes: nat, offset: nat, i: nat)
    requires |sw.endpoints| >= FIXED_ENDPOINTS && i < |sw.endpoints|
    requires offset < ClassDistance(sw, ClassOf(i))
    requires TakeClass(sw, Mod(sw.nextReply + offset, REPLY_CLASSES), maxBytes).1.Some?
    ensures Progress(sw, i, TakeScan(sw, maxBytes, offset).0, TakeScan(sw, maxBytes, offset).1)
  {
    hide TakeReply, TakeFlow, Serves, Mod;
    CyclicOffset(sw.nextReply, offset, REPLY_CLASSES);
    CursorAdvances(sw.nextReply, offset, ClassOf(i), REPLY_CLASSES);
    TakeFlowSparesFixed(sw, maxBytes, 0);
  }

  lemma {:induction false} TakeScanProgress(sw: Switch, maxBytes: nat, offset: nat, i: nat)
    requires |sw.endpoints| >= FIXED_ENDPOINTS && CanTake(sw, i, maxBytes)
    requires offset <= ClassDistance(sw, ClassOf(i))
    ensures Progress(sw, i, TakeScan(sw, maxBytes, offset).0, TakeScan(sw, maxBytes, offset).1)
    decreases REPLY_CLASSES - offset
  {
    hide TakeFrom, TakeReply, TakeFlow, Serves, Mod;
    var class_ := Mod(sw.nextReply + offset, REPLY_CLASSES);
    DistanceReaches(sw.nextReply, ClassOf(i), REPLY_CLASSES);
    if TakeClass(sw, class_, maxBytes).1.Some? && offset < ClassDistance(sw, ClassOf(i)) {
      EarlierClassProgress(sw, maxBytes, offset, i);
    } else if offset < ClassDistance(sw, ClassOf(i)) {
      TakeScanProgress(sw, maxBytes, offset + 1, i);
    } else if i < FIXED_ENDPOINTS {
      TakeFromServes(sw, i, maxBytes);
      assert TakeFrom(sw, i, maxBytes).1.Some? by { CanTakeTakes(sw, i, maxBytes); }
      SameCursorsServe(sw, i, TakeFrom(sw, i, maxBytes).0, TakeScan(sw, maxBytes, offset).0, TakeFrom(sw, i, maxBytes).1);
    } else {
      FlowClassProgress(sw, maxBytes, i);
      var (taken, reply) := TakeFlow(sw, maxBytes, 0);
      if Serves(sw, i, taken, reply) {
        SameCursorsServe(sw, i, taken, TakeScan(sw, maxBytes, offset).0, reply);
      }
    }
  }

  lemma CanTakeTakes(sw: Switch, i: nat, maxBytes: nat)
    requires CanTake(sw, i, maxBytes)
    ensures TakeFrom(sw, i, maxBytes).1.Some?
  {
  }

  // ----- Runs in which endpoint `i` waits

  lemma {:induction false} ResetKeepsCursors(sw: Switch, i: nat)
    requires i <= |sw.endpoints|
    ensures ResetFrom(sw, i).nextReply == sw.nextReply && ResetFrom(sw, i).nextFlowReply == sw.nextFlowReply
    decreases |sw.endpoints| - i
  {
    if i < |sw.endpoints| { ResetKeepsCursors(ResetAt(sw, i), i + 1); }
  }

  lemma {:induction false} ClearKeepsCursors(sw: Switch, i: nat)
    requires i <= |sw.endpoints|
    ensures ClearFrom(sw, i).nextReply == sw.nextReply && ClearFrom(sw, i).nextFlowReply == sw.nextFlowReply
    decreases |sw.endpoints| - i
  {
    if i < |sw.endpoints| { ClearKeepsCursors(ClearAt(sw, i), i + 1); }
  }

  lemma RxKeepsCursors(sw: Switch, h: Header, data: seq<Byte>)
    ensures var after := SwitchRx(sw, h, data).0;
            after.nextReply == sw.nextReply && after.nextFlowReply == sw.nextFlowReply
  {
    hide StreamModel.Rx, IndexFrom, Forgive, RetireEndpoint, NewEndpoint, OpensFlow, Classify;
  }

  lemma FlowsKeepCursors(sw: Switch, hostPort: nat, id: ConnectionId)
    ensures var after := ConnectPublication(sw, hostPort).0;
            after.nextReply == sw.nextReply && after.nextFlowReply == sw.nextFlowReply
    ensures var after := RetireConnection(sw, id).0;
            after.nextReply == sw.nextReply && after.nextFlowReply == sw.nextFlowReply
  {
    hide Request, IndexFrom, Forgive, NewEndpoint;
  }

  /** Only taking a reply moves the cursors. */
  lemma OnlyTakesMoveCursors(sw: Switch, op: Op)
    requires |sw.endpoints| >= FIXED_ENDPOINTS && !op.TakeOp?
    ensures Apply(sw, op).nextReply == sw.nextReply && Apply(sw, op).nextFlowReply == sw.nextFlowReply
  {
    hide SwitchRx, ConnectPublication, RetireConnection, Deliver, Shutdown, RequestCredit, ConsumeUpstream, IndexFrom, RetireEndpoint;
    if op.RxOp? { RxKeepsCursors(sw, op.h, op.data); }
    if op.ConnectOp? { FlowsKeepCursors(sw, op.hostPort, ConnectionId(Agent, 0, 0, 0)); }
    if op.ReleaseOp? { FlowsKeepCursors(sw, 0, op.id); }
    if op.ResetAllOp? { ClearKeepsCursors(sw, 0); }
    if op.DisableNetworkOp? { ResetKeepsCursors(sw.(networkEnabled := false), Min(1, |sw.endpoints|)); }
  }

  function Takes(ops: seq<Op>): nat {
    if ops == [] then 0 else (if ops[0].TakeOp? then 1 else 0) + Takes(ops[1..])
  }

  /** Through the whole run no endpoint is added or removed, endpoint `i` has a head that every take could take,
      and no take serves it. */
  predicate Waits(sw: Switch, ops: seq<Op>, i: nat)
    decreases |ops|
  {
    ops != [] ==>
      && i < |sw.endpoints| && |sw.endpoints| >= FIXED_ENDPOINTS
      && (ops[0].TakeOp? ==> CanTake(sw, i, ops[0].maxBytes))
      && |Apply(sw, ops[0]).endpoints| == |sw.endpoints|
      && (ops[0].TakeOp? ==> !Serves(sw, i, Apply(sw, ops[0]), SwitchTake(sw, ops[0].maxBytes).1))
      && Waits(Apply(sw, ops[0]), ops[1..], i)
  }

  lemma {:induction false} BypassesAreRanked(sw: Switch, ops: seq<Op>, i: nat)
    requires i < |sw.endpoints| && Waits(sw, ops, i)
    ensures Takes(ops) <= Rank(sw, i)
    decreases |ops|
  {
    hide Apply, CanTake, TakeScan, Serves;
    if ops != [] {
      var after := Apply(sw, ops[0]);
      if ops[0].TakeOp? {
        TakeScanProgress(sw, ops[0].maxBytes, 0, i);
        ApplyTake(sw, ops[0].maxBytes);
      } else {
        OnlyTakesMoveCursors(sw, ops[0]);
        assert Rank(after, i) == Rank(sw, i);
      }
      BypassesAreRanked(after, ops[1..], i);
    }
  }

  lemma ApplyTake(sw: Switch, maxBytes: nat)
    requires |sw.endpoints| >= FIXED_ENDPOINTS
    ensures Apply(sw, TakeOp(maxBytes)) == TakeScan(sw, maxBytes, 0).0
  {
  }

  /** Agent and control are bypassed at most twice, a flow fewer than three times the number of flows. */
  lemma BoundedBypass(sw: Switch, ops: seq<Op>, i: nat)
    requires i < |sw.endpoints| && Waits(sw, ops, i)
    ensures i < FIXED_ENDPOINTS ==> Takes(ops) < REPLY_CLASSES
    ensures i >= FIXED_ENDPOINTS ==> Takes(ops) < REPLY_CLASSES * FlowCount(sw)
  {
    BypassesAreRanked(sw, ops, i);
    RankBound(sw, i);
  }
}
