/**
 Which keys a branch may still issue. Counters only grow and every lane has a lineage of its own, so
 a position is issued at most once, whichever branch moves first.
 */
module Positions {
  import opened Options
  import opened Keys
  import opened Engine

  /** The branch of a key is `path` or below it. */
  predicate Below(path: Path, k: Key) { k.Chain? && path <= k.branch }

  /** Keys a branch with these counters may issue itself, or hand to fan-outs it has not opened yet. */
  predicate Under(ctx: Ctx, k: Key) {
    && Below(ctx.path, k)
    && if |k.branch| == |ctx.path| then k.index >= ctx.agents else k.branch[|ctx.path|].index >= ctx.fanouts
  }

  predicate PlanOwns<S>(plan: seq<Launch<S>>, k: Key) { exists s :: 0 <= s < |plan| && Below(plan[s].path, k) }

  predicate Owns<S>(b: Branch<S>, k: Key)
    decreases b
  {
    match b
    case Run(_, ctx) => Under(ctx, k)
    case Waiting(_, ctx, _, _) => Under(ctx, k)
    case Fan(_, ctx, _, lanes) => Under(ctx, k) || exists i :: 0 <= i < |lanes| && LaneOwns(lanes[i], k)
    case Done(_) => false
  }

  predicate LaneOwns<S>(lane: Lane<S>, k: Key)
    decreases lane
  {
    match lane
    case Between(_, plan) => PlanOwns(plan, k)
    case Inside(b, plan) => Owns(b, k) || PlanOwns(plan, k)
    case Finished(_) => false
  }

  /** `path` belongs to lane `i` of the fan-out call `call`. */
  predicate InLane(call: Path, i: nat, path: Path) {
    |call| < |path| && call <= path && path[|call|].index == i
  }

  predicate PlanPlaced<S>(call: Path, i: nat, plan: seq<Launch<S>>) {
    && (forall s :: 0 <= s < |plan| ==> InLane(call, i, plan[s].path))
    && (forall s, t :: 0 <= s < t < |plan| ==> Apart(plan[s].path, plan[t].path))
  }

  /** Same depth, different branches: no key is below both. */
  predicate Apart(p: Path, q: Path) { |p| == |q| && p != q }

  function Home<S>(b: Branch<S>): Path
    requires !b.Done?
  {
    b.ctx.path
  }

  predicate Placed<S>(b: Branch<S>)
    decreases b
  {
    b.Fan? ==>
      && |b.call| == |b.ctx.path| + 1 && b.ctx.path <= b.call && b.call[|b.ctx.path|].index < b.ctx.fanouts
      && forall i :: 0 <= i < |b.lanes| ==> LanePlaced(b.call, i, b.lanes[i])
  }

  predicate LanePlaced<S>(call: Path, i: nat, lane: Lane<S>)
    decreases lane
  {
    match lane
    case Between(_, plan) => PlanPlaced(call, i, plan)
    case Inside(b, plan) =>
      && PlanPlaced(call, i, plan)
      && Placed(b)
      && (!b.Done? ==> InLane(call, i, Home(b)) && forall s :: 0 <= s < |plan| ==> Apart(Home(b), plan[s].path))
    case Finished(_) => true
  }

  datatype Slot = Slot(key: Key, phase: Phase)

  /** The agent calls in flight somewhere in a branch. */
  function Pending<S>(b: Branch<S>): multiset<Slot>
    decreases b, 0
  {
    match b
    case Run(_, _) => multiset{}
    case Waiting(_, _, key, phase) => multiset{Slot(key, phase)}
    case Fan(_, _, _, lanes) => PendingLanes(lanes)
    case Done(_) => multiset{}
  }

  function PendingLanes<S>(lanes: seq<Lane<S>>): multiset<Slot>
    decreases lanes, 1
  {
    if lanes == [] then multiset{} else PendingLane(lanes[0]) + PendingLanes(lanes[1..])
  }

  function PendingLane<S>(lane: Lane<S>): multiset<Slot>
    decreases lane, 0
  {
    if lane.Inside? then Pending(lane.branch) else multiset{}
  }

  /* ----- ownership ----- */

  lemma {:induction false} OwnedIsBelow<S>(b: Branch<S>, k: Key)
    requires Placed(b) && Owns(b, k)
    ensures Below(Home(b), k)
    decreases b
  {
    if b.Fan? && !Under(b.ctx, k) {
      var i :| 0 <= i < |b.lanes| && LaneOwns(b.lanes[i], k);
      LaneOwnedIsInLane(b.call, i, b.lanes[i], k);
      assert b.ctx.path == b.call[..|b.ctx.path|];
    }
  }

  lemma {:induction false} LaneOwnedIsInLane<S>(call: Path, i: nat, lane: Lane<S>, k: Key)
    requires LanePlaced(call, i, lane) && LaneOwns(lane, k)
    ensures Below(call, k) && |call| < |k.branch| && k.branch[|call|].index == i
    decreases lane
  {
    if lane.Inside? && Owns(lane.branch, k) { OwnedIsBelow(lane.branch, k); }
  }

  /** What a step issues it owned before and does not own after; it comes to own nothing else. */
  ghost predicate Narrows<S>(tag: Label, b: Branch<S>, c: Branch<S>) {
    && (forall k :: Owns(c, k) ==> Owns(b, k))
    && (tag.Issued? && tag.key.Chain? ==> Owns(b, tag.key) && !Owns(c, tag.key))
  }

  lemma {:induction false} ActNarrows<S>(e: Env<S>, body: S, ctx: Ctx)
    ensures var m := Act(e, body, ctx);
            Placed(m.branch) && (!m.branch.Done? ==> Home(m.branch) == ctx.path) &&
              Narrows(m.tag, Run(body, ctx), m.branch)
  {
    var c := Act(e, body, ctx).branch;
    if c.Fan? {
      var call := c.call;
      assert call[..|ctx.path|] == ctx.path && call[|ctx.path|].index == ctx.fanouts;
      forall i | 0 <= i < |c.lanes| ensures LanePlaced(call, i, c.lanes[i]) {
        match e.prog.next(body)
        case Parallelize(thunks) => assert c.lanes[i] == ThunkLane(call, i, thunks[i]);
        case Pipe(items, stages) =>
          assert c.lanes[i] == ItemLane(call, i, items[i], stages);
          StagesPlaced(call, i, items[i], stages);
      }
      forall k | Owns(c, k) ensures Under(ctx, k) {
        if !Under(c.ctx, k) {
          var i :| 0 <= i < |c.lanes| && LaneOwns(c.lanes[i], k);
          LaneOwnedIsInLane(call, i, c.lanes[i], k);
          assert k.branch[|ctx.path|] == call[|ctx.path|];
        }
      }
    }
  }

  lemma StagesPlaced<S>(call: Path, i: nat, item: Value, stages: seq<(Value, Value, nat) -> S>)
    ensures LanePlaced(call, i, ItemLane(call, i, item, stages))
  {
    var plan := ItemLane(call, i, item, stages).plan;
    forall s | 0 <= s < |plan|
      ensures InLane(call, i, plan[s].path) && |plan[s].path| == |call| + 2 && plan[s].path[|call| + 1].index == s {
      assert plan[s] == StageLaunch(call, i, item, s, stages[s]);
    }
  }

  lemma {:induction false} StepNarrows<S>(e: Env<S>, b: Branch<S>, addr: seq<nat>)
    requires Placed(b) && StepAt(e, b, addr).Move?
    ensures var m := StepAt(e, b, addr);
            Placed(m.branch) && (!m.branch.Done? ==> Home(m.branch) == Home(b)) && Narrows(m.tag, b, m.branch)
    decreases b
  {
    hide Act;
    match b
    case Run(body, ctx) => ActNarrows(e, body, ctx);
    case Waiting(_, _, _, _) =>
    case Fan(_, _, _, lanes) => if addr != [] { FanNarrows(e, b, addr); }
  }

  lemma {:induction false} FanNarrows<S>(e: Env<S>, b: Branch<S>, addr: seq<nat>)
    requires b.Fan? && addr != [] && Placed(b) && StepAt(e, b, addr).Move?
    ensures var m := StepAt(e, b, addr);
            Placed(m.branch) && !m.branch.Done? && Home(m.branch) == Home(b) && Narrows(m.tag, b, m.branch)
    decreases b, 0
  {
    hide Act, Under, InLane;
    var tag, c, i := StepAt(e, b, addr).tag, StepAt(e, b, addr).branch, addr[0];
    LaneNarrows(e, b.call, i, b.lanes[i], addr[1..]);
    forall k | Owns(c, k) ensures Owns(b, k) {
      if !Under(b.ctx, k) {
        var j :| 0 <= j < |c.lanes| && LaneOwns(c.lanes[j], k);
        assert LaneOwns(b.lanes[j], k);
      }
    }
    if tag.Issued? && tag.key.Chain? {
      LaneOwnedIsInLane(b.call, i, b.lanes[i], tag.key);
      NotUnder(b, tag.key);
      forall j | 0 <= j < |c.lanes| ensures !LaneOwns(c.lanes[j], tag.key) {
        if j != i && LaneOwns(b.lanes[j], tag.key) { LaneOwnedIsInLane(b.call, j, b.lanes[j], tag.key); }
      }
    }
  }

  /** Keys below an open fan-out are behind its branch's fan-out counter. */
  lemma NotUnder<S>(b: Branch<S>, k: Key)
    requires b.Fan? && Placed(b) && Below(b.call, k)
    ensures !Under(b.ctx, k)
  {
    assert k.branch[|b.ctx.path|] == b.call[|b.ctx.path|];
  }

  lemma {:induction false} LaneNarrows<S>(e: Env<S>, call: Path, i: nat, lane: Lane<S>, addr: seq<nat>)
    requires LanePlaced(call, i, lane) && LaneStepAt(e, lane, addr).LaneMove?
    ensures var m := LaneStepAt(e, lane, addr);
            && LanePlaced(call, i, m.lane)
            && (forall k :: LaneOwns(m.lane, k) ==> LaneOwns(lane, k))
            && (m.tag.Issued? && m.tag.key.Chain? ==> LaneOwns(lane, m.tag.key) && !LaneOwns(m.lane, m.tag.key))
    decreases lane
  {
    hide Act, InLane;
    var m := LaneStepAt(e, lane, addr);
    match lane
    case Between(prev, plan) =>
      if m.lane.Inside? {
        forall k | LaneOwns(m.lane, k) ensures PlanOwns(plan, k) {
          if !PlanOwns(plan[1..], k) { assert Owns(m.lane.branch, k) && Below(plan[0].path, k); }
          else { var s :| 0 <= s < |plan| - 1 && Below(plan[1..][s].path, k); assert Below(plan[s + 1].path, k); }
        }
      }
    case Inside(b, plan) =>
      if !b.Done? {
        StepNarrows(e, b, addr);
        if m.tag.Issued? && m.tag.key.Chain? {
          OwnedIsBelow(b, m.tag.key);
          assert !PlanOwns(plan, m.tag.key);
        }
      }
    case Finished(_) =>
  }

  /* ----- calls in flight ----- */

  function AfterTag(pending: multiset<Slot>, tag: Label): multiset<Slot> {
    match tag
    case Issued(k, _) => pending + multiset{Slot(k, Queued)}
    case Started(k) => pending - multiset{Slot(k, Queued)} + multiset{Slot(k, Running)}
    case Settled(k, phase) => pending - multiset{Slot(k, phase)}
    case _ => pending
  }

  /** A call starts, and settles, only while it is in flight; a recorded one never starts. */
  ghost predicate InFlight(recorded: map<Key, Recorded>, pending: multiset<Slot>, tag: Label) {
    match tag
    case Started(k) => Slot(k, Queued) in pending && k !in recorded
    case Settled(k, phase) => Slot(k, phase) in pending && (phase.Queued? ==> k in recorded)
    case _ => true
  }

  lemma {:induction false} StepPending<S>(e: Env<S>, b: Branch<S>, addr: seq<nat>)
    requires StepAt(e, b, addr).Move?
    ensures var m := StepAt(e, b, addr);
              InFlight(e.recorded, Pending(b), m.tag) && Pending(m.branch) == AfterTag(Pending(b), m.tag)
    decreases b, 0
  {
    hide Act, InFlight, AfterTag, PendingLane, PendingLanes, Effective;
    match b
    case Run(body, ctx) => ActPending(e, body, ctx);
    case Waiting(_, _, key, phase) =>
      TagFacts(e.recorded, key);
      assert phase == Queued || phase == Running;
    case Fan(_, _, _, lanes) =>
      if addr == [] { IdleLanes(lanes); TagFacts(e.recorded, Explicit("")); }
      else {
        var m := LaneStepAt(e, lanes[addr[0]], addr[1..]);
        LanePending(e, lanes[addr[0]], addr[1..]);
        SwapLane(lanes, addr[0], m.lane);
        OneLane(e.recorded, PendingLanes(lanes), PendingLane(lanes[addr[0]]), m.tag);
      }
  }

  lemma TagFacts(recorded: map<Key, Recorded>, k: Key)
    ensures k !in recorded ==> InFlight(recorded, multiset{Slot(k, Queued)}, Started(k))
    ensures AfterTag(multiset{Slot(k, Queued)}, Started(k)) == multiset{Slot(k, Running)}
    ensures k in recorded ==> InFlight(recorded, multiset{Slot(k, Queued)}, Settled(k, Queued))
    ensures AfterTag(multiset{Slot(k, Queued)}, Settled(k, Queued)) == multiset{}
    ensures InFlight(recorded, multiset{Slot(k, Running)}, Settled(k, Running))
    ensures AfterTag(multiset{Slot(k, Running)}, Settled(k, Running)) == multiset{}
    ensures InFlight(recorded, multiset{}, Internal) && AfterTag(multiset{}, Internal) == multiset{}
  {}

  lemma OneLane(recorded: map<Key, Recorded>, all: multiset<Slot>, one: multiset<Slot>, tag: Label)
    requires one <= all && InFlight(recorded, one, tag)
    ensures InFlight(recorded, all, tag) && all - one + AfterTag(one, tag) == AfterTag(all, tag)
  {}

  lemma ActPending<S>(e: Env<S>, body: S, ctx: Ctx)
    ensures var m := Act(e, body, ctx);
              InFlight(e.recorded, multiset{}, m.tag) && Pending(m.branch) == AfterTag(multiset{}, m.tag)
  {
    hide Pending, PendingLanes;
    var c := Act(e, body, ctx).branch;
    if c.Fan? { IdleLanes(c.lanes); }
    LeafPending(c);
  }

  lemma LeafPending<S>(b: Branch<S>)
    ensures Pending(b) == if b.Waiting? then multiset{Slot(b.key, b.phase)} else if b.Fan? then PendingLanes(b.lanes)
              else multiset{}
  {}

  lemma {:induction false} IdleLanes<S>(lanes: seq<Lane<S>>)
    requires forall i :: 0 <= i < |lanes| ==> !lanes[i].Inside?
    ensures PendingLanes(lanes) == multiset{}
    decreases lanes
  {
    if lanes != [] { IdleLanes(lanes[1..]); }
  }

  lemma {:induction false} LanePending<S>(e: Env<S>, lane: Lane<S>, addr: seq<nat>)
    requires LaneStepAt(e, lane, addr).LaneMove?
    ensures var m := LaneStepAt(e, lane, addr);
            InFlight(e.recorded, PendingLane(lane), m.tag) && PendingLane(m.lane) == AfterTag(PendingLane(lane), m.tag)
    decreases lane, 0
  {
    hide Act;
    if lane.Inside? {
      if lane.branch.Done? { assert PendingLane(lane) == multiset{}; }
      else { StepPending(e, lane.branch, addr); }
    }
  }

  lemma {:induction false} SwapLane<S>(lanes: seq<Lane<S>>, i: nat, lane: Lane<S>)
    requires i < |lanes|
    ensures PendingLane(lanes[i]) <= PendingLanes(lanes)
    ensures PendingLanes(lanes[i := lane]) == PendingLanes(lanes) - PendingLane(lanes[i]) + PendingLane(lane)
    decreases lanes
  {
    hide PendingLane;
    if i == 0 {
      assert lanes[0 := lane][1..] == lanes[1..];
    } else {
      assert lanes[i := lane][1..] == lanes[1..][i - 1 := lane];
      SwapLane(lanes[1..], i - 1, lane);
    }
  }
}
