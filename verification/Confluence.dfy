/**
 Every schedule computes what the sequential evaluation computes: one step of any branch, anywhere in
 the tree, takes exactly its own work out of what remains to be evaluated.
 */
module Confluence {
  import opened Options
  import opened Usage
  import opened Keys
  import opened Engine

  /* ----- the evaluation bound only has to be large enough ----- */

  lemma {:induction false} EvalMono<S>(e: Env<S>, n: nat, m: nat, b: Branch<S>)
    requires n <= m && Eval(e, n, b).Just?
    ensures Eval(e, m, b) == Eval(e, n, b)
    decreases n, 0, 0
  {
    hide Act, Join, WorkOf, Effective;
    match b
    case Done(_) =>
    case Run(body, ctx) => EvalMono(e, n - 1, m - 1, Act(e, body, ctx).branch);
    case Waiting(_, _, _, _) => EvalMono(e, n - 1, m - 1, Answered(e, b));
    case Fan(_, _, _, lanes) =>
      EvalLanesMono(e, n - 1, m - 1, lanes);
      EvalMono(e, n - 1, m - 1, Joined(e, b, EvalLanes(e, n - 1, lanes).value.values));
  }

  lemma {:induction false} EvalLaneMono<S>(e: Env<S>, n: nat, m: nat, lane: Lane<S>)
    requires n <= m && EvalLane(e, n, lane).Just?
    ensures EvalLane(e, m, lane) == EvalLane(e, n, lane)
    decreases n, 1, 0
  {
    hide Act, Join, WorkOf, Effective;
    match lane
    case Finished(_) =>
    case Between(prev, plan) => EvalLaneMono(e, n - 1, m - 1, Proceed(prev, plan));
    case Inside(b, plan) =>
      EvalMono(e, n - 1, m - 1, b);
      EvalLaneMono(e, n - 1, m - 1, Leave(Eval(e, n - 1, b).value.result, plan));
  }

  lemma {:induction false} EvalLanesMono<S>(e: Env<S>, n: nat, m: nat, lanes: seq<Lane<S>>)
    requires n <= m && EvalLanes(e, n, lanes).Just?
    ensures EvalLanes(e, m, lanes) == EvalLanes(e, n, lanes)
    decreases n, 2, |lanes|
  {
    hide Act, Join, WorkOf, Effective;
    if lanes != [] {
      EvalLaneMono(e, n, m, lanes[0]);
      EvalLanesMono(e, n, m, lanes[1..]);
    }
  }

  lemma {:induction false} FinishedLanes<S>(e: Env<S>, n: nat, lanes: seq<Lane<S>>)
    requires AllFinished(lanes)
    ensures EvalLanes(e, n, lanes) == Just(LanesOut(Values(lanes), NO_WORK))
    decreases |lanes|
  {
    hide Act, Join, WorkOf, Effective;
    if lanes == [] {
      assert Values(lanes) == [];
    } else {
      FinishedLanes(e, n, lanes[1..]);
      JoinLaws(NO_WORK, NO_WORK, NO_WORK);
      assert Values(lanes) == [lanes[0].value] + Values(lanes[1..]);
    }
  }

  /* ----- forward: a step leaves the rest of the evaluation ----- */

  lemma {:induction false} Forward<S>(e: Env<S>, n: nat, b: Branch<S>, addr: seq<nat>)
    requires StepAt(e, b, addr).Move? && Eval(e, n, b).Just?
    ensures var m := StepAt(e, b, addr);
            Eval(e, n, m.branch).Just? && Eval(e, n, b) == More(WorkOf(e, m.tag), Eval(e, n, m.branch))
    decreases b
  {
    hide Act, Join, WorkOf, Effective;
    var c := StepAt(e, b, addr).branch;
    match b
    case Run(_, _) => EvalMono(e, n - 1, n, c);
    case Waiting(_, _, key, phase) =>
      var rest := Eval(e, n - 1, Answered(e, b)).value.work;
      JoinLaws(WorkOf(e, Started(key)), WorkOf(e, Settled(key, Running)), rest);
      if c.Run? { EvalMono(e, n - 1, n, c); }
    case Fan(_, _, _, lanes) =>
      if addr == [] {
        FinishedLanes(e, n - 1, lanes);
        JoinLaws(Join(WorkOf(e, Internal), Eval(e, n - 1, c).value.work), NO_WORK, NO_WORK);
        EvalMono(e, n - 1, n, c);
      } else {
        ForwardLanes(e, n - 1, lanes, addr[0], addr[1..]);
        var w := WorkOf(e, StepAt(e, b, addr).tag);
        var after := EvalLanes(e, n - 1, c.lanes).value;
        var rest := Join(WorkOf(e, Internal), Eval(e, n - 1, Joined(e, b, after.values)).value.work);
        JoinLaws(w, after.work, rest);
      }
  }

  lemma {:induction false} ForwardLane<S>(e: Env<S>, n: nat, lane: Lane<S>, addr: seq<nat>)
    requires LaneStepAt(e, lane, addr).LaneMove? && EvalLane(e, n, lane).Just?
    ensures var m := LaneStepAt(e, lane, addr);
            EvalLane(e, n, m.lane).Just? && EvalLane(e, n, lane) == LaneMore(WorkOf(e, m.tag), EvalLane(e, n, m.lane))
    decreases lane
  {
    hide Act, Join, WorkOf, Effective;
    var m := LaneStepAt(e, lane, addr);
    match lane
    case Between(_, _) => EvalLaneMono(e, n - 1, n, m.lane);
    case Inside(b, plan) =>
      if b.Done? {
        JoinLaws(Join(WorkOf(e, Internal), EvalLane(e, n - 1, m.lane).value.work), NO_WORK, NO_WORK);
        EvalLaneMono(e, n - 1, n, m.lane);
      } else {
        Forward(e, n - 1, b, addr);
        var after := Eval(e, n - 1, m.lane.branch).value;
        JoinLaws(WorkOf(e, m.tag), after.work,
          Join(WorkOf(e, Internal), EvalLane(e, n - 1, Leave(after.result, plan)).value.work));
      }
  }

  lemma {:induction false} ForwardLanes<S>(e: Env<S>, n: nat, lanes: seq<Lane<S>>, i: nat, addr: seq<nat>)
    requires i < |lanes| && LaneStepAt(e, lanes[i], addr).LaneMove? && EvalLanes(e, n, lanes).Just?
    ensures var m := LaneStepAt(e, lanes[i], addr);
            var after := EvalLanes(e, n, lanes[i := m.lane]);
            && after.Just?
            && EvalLanes(e, n, lanes) == Just(LanesOut(after.value.values, Join(WorkOf(e, m.tag), after.value.work)))
    decreases lanes
  {
    hide Act, Join, WorkOf, Effective;
    var m := LaneStepAt(e, lanes[i], addr);
    var w := WorkOf(e, m.tag);
    var next := lanes[i := m.lane];
    var first := EvalLane(e, n, next[0]);
    var rest := EvalLanes(e, n, next[1..]);
    if i == 0 {
      assert next[1..] == lanes[1..];
      ForwardLane(e, n, lanes[0], addr);
      JoinLaws(w, first.value.work, rest.value.work);
    } else {
      assert next[1..] == lanes[1..][i - 1 := m.lane];
      ForwardLanes(e, n, lanes[1..], i - 1, addr);
      JoinSwap(first.value.work, w, rest.value.work);
    }
  }

  /* ----- backward: whatever remains after a step was there before it ----- */

  lemma {:induction false} Backward<S>(e: Env<S>, n: nat, b: Branch<S>, addr: seq<nat>)
    requires var m := StepAt(e, b, addr); m.Move? && Eval(e, n, m.branch).Just?
    ensures var m := StepAt(e, b, addr);
            Eval(e, n + 1, b) == More(WorkOf(e, m.tag), Eval(e, n, m.branch))
    decreases b
  {
    hide Act, Join, WorkOf, Effective;
    var c := StepAt(e, b, addr).branch;
    match b
    case Run(_, _) =>
    case Waiting(_, _, key, phase) =>
      if !c.Run? {
        EvalMono(e, n - 1, n, Answered(e, b));
        var rest := Eval(e, n, Answered(e, b)).value.work;
        JoinLaws(WorkOf(e, Started(key)), WorkOf(e, Settled(key, Running)), rest);
      }
    case Fan(_, _, _, lanes) =>
      if addr == [] {
        FinishedLanes(e, n, lanes);
        JoinLaws(Join(WorkOf(e, Internal), Eval(e, n, c).value.work), NO_WORK, NO_WORK);
      } else {
        BackwardLanes(e, n - 1, lanes, addr[0], addr[1..]);
        var after := EvalLanes(e, n - 1, c.lanes).value;
        EvalMono(e, n - 1, n, Joined(e, b, after.values));
        var rest := Join(WorkOf(e, Internal), Eval(e, n, Joined(e, b, after.values)).value.work);
        JoinLaws(WorkOf(e, StepAt(e, b, addr).tag), after.work, rest);
      }
  }

  lemma {:induction false} BackwardLane<S>(e: Env<S>, n: nat, lane: Lane<S>, addr: seq<nat>)
    requires var m := LaneStepAt(e, lane, addr); m.LaneMove? && EvalLane(e, n, m.lane).Just?
    ensures var m := LaneStepAt(e, lane, addr);
            EvalLane(e, n + 1, lane) == LaneMore(WorkOf(e, m.tag), EvalLane(e, n, m.lane))
    decreases lane
  {
    hide Act, Join, WorkOf, Effective;
    var m := LaneStepAt(e, lane, addr);
    match lane
    case Between(_, _) =>
    case Inside(b, plan) =>
      if b.Done? {
        var o := EvalLane(e, n, m.lane).value;
        JoinLaws(Join(WorkOf(e, Internal), o.work), NO_WORK, NO_WORK);
      } else {
        Backward(e, n - 1, b, addr);
        var after := Eval(e, n - 1, m.lane.branch).value;
        EvalLaneMono(e, n - 1, n, Leave(after.result, plan));
        JoinLaws(WorkOf(e, m.tag), after.work,
          Join(WorkOf(e, Internal), EvalLane(e, n, Leave(after.result, plan)).value.work));
      }
  }

  lemma {:induction false} BackwardLanes<S>(e: Env<S>, n: nat, lanes: seq<Lane<S>>, i: nat, addr: seq<nat>)
    requires i < |lanes|
    requires var m := LaneStepAt(e, lanes[i], addr); m.LaneMove? && EvalLanes(e, n, lanes[i := m.lane]).Just?
    ensures var m := LaneStepAt(e, lanes[i], addr);
            var after := EvalLanes(e, n, lanes[i := m.lane]).value;
            EvalLanes(e, n + 1, lanes) == Just(LanesOut(after.values, Join(WorkOf(e, m.tag), after.work)))
    decreases lanes
  {
    hide Act, Join, WorkOf, Effective;
    var m := LaneStepAt(e, lanes[i], addr);
    var w := WorkOf(e, m.tag);
    var next := lanes[i := m.lane];
    var first := EvalLane(e, n, next[0]);
    var rest := EvalLanes(e, n, next[1..]);
    if i == 0 {
      assert next[1..] == lanes[1..];
      BackwardLane(e, n, lanes[0], addr);
      EvalLanesMono(e, n, n + 1, lanes[1..]);
      JoinLaws(w, first.value.work, rest.value.work);
    } else {
      assert next[1..] == lanes[1..][i - 1 := m.lane];
      BackwardLanes(e, n, lanes[1..], i - 1, addr);
      EvalLaneMono(e, n, n + 1, lanes[0]);
      JoinSwap(first.value.work, w, rest.value.work);
    }
  }
}
