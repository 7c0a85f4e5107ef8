/**
 What parallel() and pipeline() compute (src/runtime/primitives.ts), stated without lanes or schedules: each
 item goes through its stages on its own, null stops it, and a failure nulls it alone.
 */
module Fanouts {
  import opened Options
  import opened Usage
  import opened Keys
  import opened Engine
  import Confluence

  /** The body of one stage, run alone on the previous stage's value. */
  function Stage<S>(launch: Launch<S>, prev: Value): Branch<S> { Run(launch.start(prev), NewCtx(launch.path)) }

  /** One item through its stages; Nothing if the bound does not suffice or the whole fan-out aborts. */
  function Stages<S>(e: Env<S>, n: nat, prev: Value, plan: seq<Launch<S>>): Option<Value>
    decreases |plan|
  {
    if prev.Null? || plan == [] then Just(prev)
    else
      var r := Eval(e, n, Stage(plan[0], prev));
      if r.Nothing? || (r.value.result.Err? && r.value.result.error.ControlFlow?) then Nothing
      else if r.value.result.Err? then Just(Null)
      else Stages(e, n, r.value.result.value, plan[1..])
  }

  /** A lane's value is its item's, run through its stages. */
  lemma {:induction false} LaneIsStages<S>(e: Env<S>, n: nat, m: nat, prev: Value, plan: seq<Launch<S>>)
    requires n <= m && EvalLane(e, n, Between(prev, plan)).Just?
    ensures Stages(e, m, prev, plan) == Just(EvalLane(e, n, Between(prev, plan)).value.value)
    decreases |plan|
  {
    hide Act, Join, WorkOf, Effective, Eval, Joined, CallWork;
    if !(prev.Null? || plan == []) {
      var b := Stage(plan[0], prev);
      LaneEnters(e, n, prev, plan);
      var r := Eval(e, n - 2, b);
      Confluence.EvalMono(e, n - 2, m, b);
      if r.value.result.Val? {
        LaneLeaves(e, n, prev, plan);
        LaneIsStages(e, n - 2, m, r.value.result.value, plan[1..]);
      } else {
        LaneFails(e, n, prev, plan);
      }
    } else {
      LaneStops(e, n, prev, plan);
    }
  }

  /** A finished item, or a null, ends its lane. */
  lemma LaneStops<S>(e: Env<S>, n: nat, prev: Value, plan: seq<Launch<S>>)
    requires (prev.Null? || plan == []) && EvalLane(e, n, Between(prev, plan)).Just?
    ensures EvalLane(e, n, Between(prev, plan)).value.value == prev
  {
    hide WorkOf;
    assert Proceed(prev, plan) == Finished(prev);
    assert EvalLane(e, n - 1, Proceed(prev, plan)) == Just(LaneOut(prev, NO_WORK));
  }

  lemma LaneEnters<S>(e: Env<S>, n: nat, prev: Value, plan: seq<Launch<S>>)
    requires !prev.Null? && plan != [] && EvalLane(e, n, Between(prev, plan)).Just?
    ensures n >= 2 && EvalLane(e, n - 1, Inside(Stage(plan[0], prev), plan[1..])).Just?
    ensures EvalLane(e, n, Between(prev, plan)).value.value ==
              EvalLane(e, n - 1, Inside(Stage(plan[0], prev), plan[1..])).value.value
    ensures var r := Eval(e, n - 2, Stage(plan[0], prev));
              r.Just? && !(r.value.result.Err? && r.value.result.error.ControlFlow?)
  {
    hide Act, Join, WorkOf, Effective, Eval;
    assert Proceed(prev, plan) == Inside(Stage(plan[0], prev), plan[1..]);
  }

  lemma LaneLeaves<S>(e: Env<S>, n: nat, prev: Value, plan: seq<Launch<S>>)
    requires !prev.Null? && plan != [] && EvalLane(e, n, Between(prev, plan)).Just?
    requires n >= 2 && Eval(e, n - 2, Stage(plan[0], prev)).Just? &&
               Eval(e, n - 2, Stage(plan[0], prev)).value.result.Val?
    ensures var v := Eval(e, n - 2, Stage(plan[0], prev)).value.result.value;
            && EvalLane(e, n - 2, Between(v, plan[1..])).Just?
            && EvalLane(e, n, Between(prev, plan)).value.value == EvalLane(e, n - 2, Between(v, plan[1..])).value.value
  {
    hide Act, Join, WorkOf, Effective, Eval;
    LaneEnters(e, n, prev, plan);
  }

  lemma LaneFails<S>(e: Env<S>, n: nat, prev: Value, plan: seq<Launch<S>>)
    requires !prev.Null? && plan != [] && EvalLane(e, n, Between(prev, plan)).Just?
    requires n >= 2 && Eval(e, n - 2, Stage(plan[0], prev)).Just? &&
               Eval(e, n - 2, Stage(plan[0], prev)).value.result.Err?
    ensures EvalLane(e, n, Between(prev, plan)).value.value == Null
  {
    hide Act, Join, WorkOf, Effective, Eval;
    LaneEnters(e, n, prev, plan);
  }

  /** Lanes do not affect each other's values. */
  lemma {:induction false} LanesAreIndependent<S>(e: Env<S>, n: nat, lanes: seq<Lane<S>>, i: nat)
    requires EvalLanes(e, n, lanes).Just? && i < |lanes|
    ensures |EvalLanes(e, n, lanes).value.values| == |lanes|
    ensures EvalLane(e, n, lanes[i]).Just? &&
              EvalLanes(e, n, lanes).value.values[i] == EvalLane(e, n, lanes[i]).value.value
    decreases |lanes|
  {
    hide Act, Join, WorkOf, Effective, Eval, EvalLane;
    LanesCount(e, n, lanes);
    if i > 0 { LanesAreIndependent(e, n, lanes[1..], i - 1); }
  }

  lemma {:induction false} LanesCount<S>(e: Env<S>, n: nat, lanes: seq<Lane<S>>)
    requires EvalLanes(e, n, lanes).Just?
    ensures |EvalLanes(e, n, lanes).value.values| == |lanes|
    decreases |lanes|
  {
    hide Act, Join, WorkOf, Effective, Eval, EvalLane;
    if lanes != [] { LanesCount(e, n, lanes[1..]); }
  }

  /**
   pipeline(): the fan-out makes, of each item, what the item's stages make of it one after another: each stage
   sees the value before it, the item and its index, null stops the item, and a failing stage nulls it alone.
   */
  lemma PipelineIsPointwise<S>(e: Env<S>, n: nat, body: S, ctx: Ctx, items: seq<Value>,
      stages: seq<(Value, Value, nat) -> S>, i: nat)
    requires e.prog.next(body) == Pipe(items, stages) && i < |items| && |items| <= e.maxFanout
    requires n > 0 && Eval(e, n, Act(e, body, ctx).branch).Just?
    ensures var fan := Act(e, body, ctx).branch;
            && fan.Fan? && EvalLanes(e, n - 1, fan.lanes).Just? &&
              |EvalLanes(e, n - 1, fan.lanes).value.values| == |items|
            && Just(EvalLanes(e, n - 1, fan.lanes).value.values[i]) ==
              Stages(e, n, items[i], ItemLane(fan.call, i, items[i], stages).plan)
  {
    hide Join, WorkOf, Effective, EvalLane, EvalLanes, Stages;
    var fan := Act(e, body, ctx).branch;
    assert fan.lanes == ItemLanes(fan.call, items, stages);
    LanesAreIndependent(e, n - 1, fan.lanes, i);
    LaneIsStages(e, n - 1, n, items[i], ItemLane(fan.call, i, items[i], stages).plan);
  }

  /** parallel(): the fan-out makes of each thunk its own value, or null for one that failed. */
  lemma ParallelIsPointwise<S>(e: Env<S>, n: nat, body: S, ctx: Ctx, thunks: seq<S>, i: nat)
    requires e.prog.next(body) == Parallelize(thunks) && i < |thunks| && |thunks| <= e.maxFanout
    requires n > 0 && Eval(e, n, Act(e, body, ctx).branch).Just?
    ensures var fan := Act(e, body, ctx).branch;
            && fan.Fan? && EvalLanes(e, n - 1, fan.lanes).Just? &&
              |EvalLanes(e, n - 1, fan.lanes).value.values| == |thunks|
            && var alone := Eval(e, n, Run(thunks[i], NewCtx(fan.call + [Node(Kind.Branch, i)])));
               alone.Just? && !(alone.value.result.Err? && alone.value.result.error.ControlFlow?)
               && EvalLanes(e, n - 1, fan.lanes).value.values[i] ==
                 (if alone.value.result.Val? then alone.value.result.value else Null)
  {
    hide Join, WorkOf, Effective, EvalLane, EvalLanes;
    var fan := Act(e, body, ctx).branch;
    assert fan.lanes == ThunkLanes(fan.call, thunks);
    LanesAreIndependent(e, n - 1, fan.lanes, i);
    var lane := ThunkLane(fan.call, i, thunks[i]);
    LaneIsStages(e, n - 1, n, lane.prev, lane.plan);
    ThunkStages(e, n, lane.plan[0], lane.plan);
  }

  /** A thunk is a single stage. */
  lemma ThunkStages<S>(e: Env<S>, n: nat, launch: Launch<S>, plan: seq<Launch<S>>)
    requires plan == [launch] && Stages(e, n, UNUSED, plan).Just?
    ensures var r := Eval(e, n, Stage(launch, UNUSED));
            && r.Just? && !(r.value.result.Err? && r.value.result.error.ControlFlow?)
            && Stages(e, n, UNUSED, plan) == Just(if r.value.result.Val? then r.value.result.value else Null)
  {
    hide Eval;
    assert plan[1..] == [];
    var r := Eval(e, n, Stage(plan[0], UNUSED));
    assert r.Just? && r.value.result.Val? ==>
      Stages(e, n, r.value.result.value, plan[1..]) == Just(r.value.result.value);
  }
}
