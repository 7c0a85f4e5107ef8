/**
 What a body is resumed with (src/runtime/primitives.ts), said of evaluations alone: each call of a body gives
 it one value, which these lemmas name, and the rest of the body is run with it and with one counter moved on.
 By Attempt.EveryScheduleIsSequential the same holds of every schedule.
 */
module Bodies {
  import opened Options
  import opened Usage
  import opened Keys
  import opened Engine
  import Confluence
  import Fanouts

  /** What evaluating a body gives is what evaluating its continuation gives, with `done` before it. */
  ghost predicate GoesOn<S>(e: Env<S>, n: nat, body: S, ctx: Ctx, rest: Branch<S>, done: multiset<Event>, calls: nat,
      billed: Usage) {
    var a, b := Eval(e, n, Run(body, ctx)), Eval(e, n, rest);
    a.Just? ==>
      && b.Just? && a.value.result == b.value.result
      && a.value.work.events == done + b.value.work.events && a.value.work.calls == calls + b.value.work.calls
      && a.value.work.usage == Add(billed, b.value.work.usage)
  }

  /** A step of a body is its work, and then the evaluation of what it became. */
  lemma OneStep<S>(e: Env<S>, n: nat, body: S, ctx: Ctx)
    requires Eval(e, n, Run(body, ctx)).Just?
    ensures var m := Act(e, body, ctx);
            && Eval(e, n, m.branch).Just? && n > 0 && Eval(e, n - 1, m.branch) == Eval(e, n, m.branch)
            && Eval(e, n, Run(body, ctx)) == More(WorkOf(e, m.tag), Eval(e, n, m.branch))
  {
    hide Act, WorkOf, Join;
    Confluence.EvalMono(e, n - 1, n, Act(e, body, ctx).branch);
  }

  lemma StepGoesOn<S>(e: Env<S>, n: nat, body: S, ctx: Ctx)
    ensures var m := Act(e, body, ctx);
            var w := WorkOf(e, m.tag);
            GoesOn(e, n, body, ctx, m.branch, w.events, w.calls, w.usage)
  {
    hide Act, WorkOf, Eval, Add;
    if Eval(e, n, Run(body, ctx)).Just? { OneStep(e, n, body, ctx); }
  }

  /** now() gives the base time plus the reads so far; random() the next draw. */
  lemma ReadResumes<S>(e: Env<S>, n: nat, body: S, ctx: Ctx)
    ensures e.prog.next(body).AskNow? ==>
              var t := e.base + ctx.nows;
              GoesOn(e, n, body, ctx, Run(e.prog.resume(body, Clock(t)), ctx.(nows := ctx.nows + 1)),
                multiset{Now(ctx.path, ctx.nows, t)}, 0, EMPTY)
    ensures e.prog.next(body).AskRandom? ==>
              var d := e.draw(e.seed, ctx.path, ctx.draws);
              GoesOn(e, n, body, ctx, Run(e.prog.resume(body, Dice(d)), ctx.(draws := ctx.draws + 1)),
                multiset{Random(ctx.path, ctx.draws, d)}, 0, EMPTY)
  {
    hide GoesOn, Eval, Add, ThunkLanes, ItemLanes;
    StepGoesOn(e, n, body, ctx);
  }

  /** A body that returns or throws ends so. */
  lemma FinishEnds<S>(e: Env<S>, n: nat, body: S, ctx: Ctx)
    requires e.prog.next(body).Finish? && Eval(e, n, Run(body, ctx)).Just?
    ensures Eval(e, n, Run(body, ctx)).value.result == e.prog.next(body).result
  {}

  /** agent() on a refused spec gives its error, without a key of its own or a call counted. */
  lemma RefusedResumes<S>(e: Env<S>, n: nat, body: S, ctx: Ctx, call: Call)
    requires e.prog.next(body) == CallAgent(call) && call.invalid.Just?
    ensures GoesOn(e, n, body, ctx,
              Run(e.prog.resume(body, Settle(Err(call.invalid.value))), ctx.(agents := ctx.agents + 1)),
              multiset{}, 0, EMPTY)
  {
    hide GoesOn, Eval, Add, ThunkLanes, ItemLanes;
    StepGoesOn(e, n, body, ctx);
  }

  /** agent() gives the recorded value of its key, or else what the worker returned or threw. */
  lemma CallResumes<S>(e: Env<S>, n: nat, body: S, ctx: Ctx, call: Call)
    requires e.prog.next(body) == CallAgent(call) && call.invalid.Nothing?
    ensures var k := if call.key.Just? && call.key.value != "" then Explicit(call.key.value)
                     else Chain(ctx.path, ctx.agents, call.prompt, call.fields);
            var (reply, billed) :=
              if k in e.recorded then (Val(e.recorded[k].value), e.recorded[k].usage)
              else
                match e.worker(k)
                case Returned(_, v, u) => (Val(v), u)
                case Rejected(error, _, u) => (Err(error), u);
            GoesOn(e, n, body, ctx, Run(e.prog.resume(body, Settle(reply)), ctx.(agents := ctx.agents + 1)),
              multiset{Asked(k, call), Answer(k, reply)}, 1, billed)
  {
    hide Eval, Add, ThunkLanes, ItemLanes;
    StepGoesOn(e, n, body, ctx);
    var b := Act(e, body, ctx).branch;
    if Eval(e, n, Run(body, ctx)).Just? {
      CallAnswered(e, n, b);
      AddIsCommutativeMonoid(Eval(e, n, b).value.work.usage, EMPTY, EMPTY);
    }
  }

  /** A call that was not started yet still has its answer and its usage to come. */
  lemma CallWorkIs<S>(e: Env<S>, k: Key)
    ensures var w := CallWork(e, k, Queued);
            w.events == multiset{Answer(k, Effective(e, k).Reply())} && w.calls == 0 && w.usage == Effective(e, k).usage
  {
    hide Add, Effective;
    AddIsCommutativeMonoid(Effective(e, k).usage, EMPTY, EMPTY);
  }

  lemma WaitingUnfolds<S>(e: Env<S>, n: nat, b: Branch<S>)
    requires b.Waiting? && Eval(e, n, b).Just?
    ensures Eval(e, n, Answered(e, b)).Just?
    ensures Eval(e, n, b) == More(CallWork(e, b.key, b.phase), Eval(e, n, Answered(e, b)))
  {
    hide Act, Join, Effective, CallWork, Answered;
    Confluence.EvalMono(e, n - 1, n, Answered(e, b));
  }

  lemma CallAnswered<S>(e: Env<S>, n: nat, b: Branch<S>)
    requires b.Waiting? && b.phase.Queued? && Eval(e, n, b).Just?
    ensures var all, rest := Eval(e, n, b), Eval(e, n, Answered(e, b));
            && rest.Just? && all.value.result == rest.value.result && all.value.work.calls == rest.value.work.calls
            && all.value.work.events == multiset{Answer(b.key, Effective(e, b.key).Reply())} + rest.value.work.events
            && all.value.work.usage == Add(Effective(e, b.key).usage, rest.value.work.usage)
  {
    hide Eval, Act, Add, Effective, CallWork, Answered;
    WaitingUnfolds(e, n, b);
    CallWorkIs(e, b.key);
  }

  /** A fan-out wider than the cap gives an error that aborts the fan-out around it. */
  lemma TooWideResumes<S>(e: Env<S>, n: nat, body: S, ctx: Ctx)
    requires var a := e.prog.next(body);
             (a.Parallelize? && |a.thunks| > e.maxFanout) || (a.Pipe? && |a.items| > e.maxFanout)
    ensures exists why: string ::
              GoesOn(e, n, body, ctx, Run(e.prog.resume(body, Settle(Err(ControlFlow(why)))), ctx), multiset{}, 0,
                EMPTY)
  {
    hide GoesOn, Eval, Add, ThunkLanes, ItemLanes;
    StepGoesOn(e, n, body, ctx);
    var why := "exceeds the fan-out cap";
    assert GoesOn(e, n, body, ctx, Run(e.prog.resume(body, Settle(Err(ControlFlow(why)))), ctx), multiset{}, 0, EMPTY);
  }

  /* ----- fan-outs ----- */

  /** A branch run alone to an end that aborts nothing around it. */
  predicate Ends<S>(e: Env<S>, n: nat, body: S, path: Path) {
    var r := Eval(e, n, Run(body, Ctx(path, 0, 0, 0, 0)));
    r.Just? && !(r.value.result.Err? && r.value.result.error.ControlFlow?)
  }

  /** Its value, or null if it failed. */
  function OwnValue<S>(e: Env<S>, n: nat, body: S, path: Path): Value
    requires Ends(e, n, body, path)
  {
    match Eval(e, n, Run(body, Ctx(path, 0, 0, 0, 0))).value.result
    case Val(v) => v
    case Err(_) => Null
  }

  lemma LanesOfFan<S>(e: Env<S>, n: nat, body: S, ctx: Ctx)
    requires Eval(e, n, Run(body, ctx)).Just? && Act(e, body, ctx).branch.Fan?
    ensures var fan := Act(e, body, ctx).branch;
            && n > 1 && Eval(e, n, fan).Just? && Eval(e, n - 1, fan).Just? && EvalLanes(e, n - 2, fan.lanes).Just?
            && EvalLanes(e, n - 1, fan.lanes) == EvalLanes(e, n - 2, fan.lanes)
            && var rest := Eval(e, n, Joined(e, fan, EvalLanes(e, n - 1, fan.lanes).value.values));
               rest.Just? && rest.value.result == Eval(e, n, Run(body, ctx)).value.result
  {
    hide Act, WorkOf, Join;
    OneStep(e, n, body, ctx);
    var fan := Act(e, body, ctx).branch;
    Confluence.EvalLanesMono(e, n - 2, n - 1, fan.lanes);
    Confluence.EvalMono(e, n - 2, n, Joined(e, fan, EvalLanes(e, n - 2, fan.lanes).value.values));
  }

  /** parallel() gives the list of its thunks' own values, in their order, null for each that failed. */
  lemma ParallelResumes<S>(e: Env<S>, n: nat, body: S, ctx: Ctx, thunks: seq<S>) returns (vs: seq<Value>)
    requires e.prog.next(body) == Parallelize(thunks) && |thunks| <= e.maxFanout && Eval(e, n, Run(body, ctx)).Just?
    ensures |vs| == |thunks|
    ensures forall i :: 0 <= i < |thunks| ==>
              var path := ctx.path + [Node(Parallel, ctx.fanouts)] + [Node(Kind.Branch, i)];
              Ends(e, n, thunks[i], path) && vs[i] == OwnValue(e, n, thunks[i], path)
    ensures var rest := Eval(e, n, Run(e.prog.resume(body, Results(vs)), ctx.(fanouts := ctx.fanouts + 1)));
            rest.Just? && rest.value.result == Eval(e, n, Run(body, ctx)).value.result
  {
    hide Eval, EvalLanes;
    var fan := Act(e, body, ctx).branch;
    LanesOfFan(e, n, body, ctx);
    vs := EvalLanes(e, n - 1, fan.lanes).value.values;
    Fanouts.LanesCount(e, n - 1, fan.lanes);
    forall i | 0 <= i < |thunks|
      ensures var path := ctx.path + [Node(Parallel, ctx.fanouts)] + [Node(Kind.Branch, i)];
              Ends(e, n, thunks[i], path) && vs[i] == OwnValue(e, n, thunks[i], path) {
      Fanouts.ParallelIsPointwise(e, n, body, ctx, thunks, i);
    }
  }

  /**
   One item through the stages from the `s`-th on: null stops it, each stage is given the value before it, the
   item and its index, and a stage that fails makes it null. Nothing if a stage aborts the fan-out.
   */
  function StageFold<S>(e: Env<S>, n: nat, call: Path, i: nat, item: Value, stages: seq<(Value, Value, nat) -> S>,
      s: nat, prev: Value): Option<Value>
    requires s <= |stages|
    decreases |stages| - s
  {
    if prev.Null? || s == |stages| then Just(prev)
    else
      var path := call + [Node(Item, i)] + [Node(Stage, s)];
      if !Ends(e, n, stages[s](prev, item, i), path) then Nothing
      else
        match Eval(e, n, Run(stages[s](prev, item, i), Ctx(path, 0, 0, 0, 0))).value.result
        case Val(v) => StageFold(e, n, call, i, item, stages, s + 1, v)
        case Err(_) => Just(Null)
  }

  lemma {:induction false} FoldIsStages<S>(e: Env<S>, n: nat, call: Path, i: nat, item: Value,
      stages: seq<(Value, Value, nat) -> S>, s: nat, prev: Value)
    requires s <= |stages|
    ensures StageFold(e, n, call, i, item, stages, s, prev) ==
              Fanouts.Stages(e, n, prev, ItemLane(call, i, item, stages).plan[s..])
    decreases |stages| - s
  {
    hide Eval;
    var plan := ItemLane(call, i, item, stages).plan;
    if !prev.Null? && s < |stages| {
      assert plan[s..][0] == StageLaunch(call, i, item, s, stages[s]) && plan[s..][1..] == plan[s + 1..];
      var r := Eval(e, n, Run(stages[s](prev, item, i), Ctx(call + [Node(Item, i)] + [Node(Stage, s)], 0, 0, 0, 0)));
      assert r == Eval(e, n, Fanouts.Stage(plan[s..][0], prev));
      if r.Just? && r.value.result.Val? { FoldIsStages(e, n, call, i, item, stages, s + 1, r.value.result.value); }
    }
  }

  /** pipeline() gives the list of what its stages make of each item, in the items' order. */
  lemma PipelineResumes<S>(e: Env<S>, n: nat, body: S, ctx: Ctx, items: seq<Value>,
      stages: seq<(Value, Value, nat) -> S>) returns (vs: seq<Value>)
    requires e.prog.next(body) == Pipe(items, stages) && |items| <= e.maxFanout && Eval(e, n, Run(body, ctx)).Just?
    ensures |vs| == |items|
    ensures forall i :: 0 <= i < |items| ==>
              Just(vs[i]) == StageFold(e, n, ctx.path + [Node(Pipeline, ctx.fanouts)], i, items[i], stages, 0, items[i])
    ensures var rest := Eval(e, n, Run(e.prog.resume(body, Results(vs)), ctx.(fanouts := ctx.fanouts + 1)));
            rest.Just? && rest.value.result == Eval(e, n, Run(body, ctx)).value.result
  {
    hide Eval, EvalLanes, StageFold;
    var fan := Act(e, body, ctx).branch;
    LanesOfFan(e, n, body, ctx);
    vs := EvalLanes(e, n - 1, fan.lanes).value.values;
    Fanouts.LanesCount(e, n - 1, fan.lanes);
    forall i | 0 <= i < |items|
      ensures Just(vs[i]) ==
              StageFold(e, n, ctx.path + [Node(Pipeline, ctx.fanouts)], i, items[i], stages, 0, items[i]) {
      Fanouts.PipelineIsPointwise(e, n, body, ctx, items, stages, i);
      FoldIsStages(e, n, fan.call, i, items[i], stages, 0, items[i]);
      var plan := ItemLane(fan.call, i, items[i], stages).plan;
      assert plan[0..] == plan;
    }
  }
}
