/**
 The record/replay engine (src/runtime/primitives.ts).

 A workflow body is any deterministic program over its own local state `S`: `next` says what it does,
 `resume` continues it with the reply. A run is a tree of such branches: parallel() and pipeline()
 open one lane per thunk or item, and every branch carries its own counters. Which branch moves next
 is the scheduler's choice, given as the address of a branch in the tree. `Eval` is the reference:
 one branch at a time, depth first.
 */
module Engine {
  import opened Options
  import opened Usage
  import opened Keys

  /** A JavaScript value as far as the engine looks at it: pipeline() tests for null. */
  datatype Value = Null | Atom(repr: string) | List(elems: seq<Value>)

  /** Control-flow errors abort a whole fan-out; any other error nulls its own item (isControlFlow). */
  datatype Error = Ordinary(message: string) | ControlFlow(message: string)

  datatype Result = Val(value: Value) | Err(error: Error)

  /** An agent() call: `fields` is the canonical text of its keyed spec, `invalid` why its spec is refused. */
  datatype Call = Call(prompt: string, fields: string, key: Option<string>, invalid: Option<Error>)

  datatype Action<S> =
    | Finish(result: Result)
    | CallAgent(call: Call)
    | AskNow
    | AskRandom
    | Parallelize(thunks: seq<S>)
    | Pipe(items: seq<Value>, stages: seq<(Value, Value, nat) -> S>)

  datatype Reply = Settle(result: Result) | Clock(time: int) | Dice(roll: int) | Results(values: seq<Value>)

  datatype Program<!S> = Program(next: S -> Action<S>, resume: (S, Reply) -> S)

  datatype Status = Completed | Failed | Interrupted

  /** How a started agent() ends, and what it billed: the worker's answer with its status, or an error. */
  datatype Outcome =
    | Returned(status: Status, value: Value, usage: Usage)
    | Rejected(error: Error, interrupted: bool, usage: Usage)
  {
    /** What the caller of agent() sees. */
    function Reply(): Result { if Returned? then Val(value) else Err(error) }

    /** What the journal records. */
    function Journaled(): Status { if Returned? then status else if interrupted then Interrupted else Failed }
  }

  /** A completed journal entry that a resume replays. */
  datatype Recorded = Recorded(value: Value, usage: Usage)

  /**
   One attempt's surroundings. `draw(seed, b, n)` is the n-th random() of branch b;
   `worker(k)` is what running the agent with key k gives; `recorded` holds the completed entries of
   the journal being resumed.
   */
  datatype Env<!S> = Env(
    prog: Program<S>,
    base: int,
    seed: int,
    draw: (int, Path, nat) -> int,
    maxFanout: nat,
    recorded: map<Key, Recorded>,
    worker: Key -> Outcome)

  /** KeyContext: a branch's lineage and its four counters. */
  datatype Ctx = Ctx(path: Path, agents: nat, fanouts: nat, nows: nat, draws: nat)

  function NewCtx(path: Path): Ctx { Ctx(path, 0, 0, 0, 0) }

  datatype Phase = Queued | Running

  datatype Branch<S> =
    | Run(body: S, ctx: Ctx)
    | Waiting(body: S, ctx: Ctx, key: Key, phase: Phase)
    | Fan(body: S, ctx: Ctx, call: Path, lanes: seq<Lane<S>>)
    | Done(result: Result)

  /** A lane still has to run the branches in `plan`, each started on the previous one's value. */
  datatype Lane<S> =
    | Between(prev: Value, plan: seq<Launch<S>>)
    | Inside(branch: Branch<S>, plan: seq<Launch<S>>)
    | Finished(value: Value)

  datatype Launch<S> = Launch(path: Path, start: Value -> S)

  /** What a step does beyond its branch. */
  datatype Label =
    | Internal
    | Read(branch: Path, n: nat, value: int)
    | Drew(branch: Path, n: nat, value: int)
    | Issued(key: Key, call: Call)
    | Started(key: Key)
    | Settled(key: Key, phase: Phase)

  /** The observable calls of a run, as the author of the body would list them. */
  datatype Event =
    | Asked(key: Key, call: Call)
    | Answer(key: Key, result: Result)
    | Now(branch: Path, n: nat, value: int)
    | Random(branch: Path, n: nat, value: int)

  /* ----- accounting ----- */

  datatype Work = Work(events: multiset<Event>, usage: Usage, calls: nat, steps: nat)

  const NO_WORK: Work := Work(multiset{}, EMPTY, 0, 0)

  function Join(a: Work, b: Work): Work {
    Work(a.events + b.events, Add(a.usage, b.usage), a.calls + b.calls, a.steps + b.steps)
  }

  lemma JoinLaws(a: Work, b: Work, c: Work)
    ensures Join(a, NO_WORK) == a && Join(NO_WORK, a) == a
    ensures Join(a, b) == Join(b, a)
    ensures Join(Join(a, b), c) == Join(a, Join(b, c))
  {
    AddIsCommutativeMonoid(a.usage, b.usage, c.usage);
  }

  lemma JoinSwap(a: Work, b: Work, c: Work)
    ensures Join(a, Join(b, c)) == Join(b, Join(a, c))
  {
    JoinLaws(a, b, c);
    JoinLaws(b, a, c);
  }

  /** Replay short-circuits the worker; otherwise the worker decides. */
  function Effective<S>(e: Env<S>, k: Key): Outcome {
    if k in e.recorded then Returned(Completed, e.recorded[k].value, e.recorded[k].usage) else e.worker(k)
  }

  function WorkOf<S>(e: Env<S>, l: Label): Work {
    match l
    case Internal => Work(multiset{}, EMPTY, 0, 1)
    case Read(b, n, v) => Work(multiset{Now(b, n, v)}, EMPTY, 0, 1)
    case Drew(b, n, v) => Work(multiset{Random(b, n, v)}, EMPTY, 0, 1)
    case Issued(k, c) => Work(multiset{Asked(k, c)}, EMPTY, 1, 1)
    case Started(_) => Work(multiset{}, EMPTY, 0, 1)
    case Settled(k, _) => Work(multiset{Answer(k, Effective(e, k).Reply())}, Effective(e, k).usage, 0, 1)
  }

  /* ----- one step of one branch ----- */

  function KeyOf(ctx: Ctx, call: Call): Key {
    if call.key.Just? && call.key.value != "" then Explicit(call.key.value)
    else Chain(ctx.path, ctx.agents, call.prompt, call.fields)
  }

  /** The value a parallel() thunk is started on; it ignores it. */
  const UNUSED: Value := Atom("")

  function ThunkLane<S>(call: Path, i: nat, thunk: S): Lane<S> {
    Between(UNUSED, [Launch(call + [Node(Kind.Branch, i)], (_: Value) => thunk)])
  }

  function ThunkLanes<S>(call: Path, thunks: seq<S>): (lanes: seq<Lane<S>>)
    ensures |lanes| == |thunks|
    ensures forall i :: 0 <= i < |thunks| ==> lanes[i] == ThunkLane(call, i, thunks[i])
  {
    seq(|thunks|, i requires 0 <= i < |thunks| => ThunkLane(call, i, thunks[i]))
  }

  function StageLaunch<S>(call: Path, i: nat, item: Value, s: nat, stage: (Value, Value, nat) -> S): Launch<S> {
    Launch(call + [Node(Item, i)] + [Node(Stage, s)], (prev: Value) => stage(prev, item, i))
  }

  function ItemLane<S>(call: Path, i: nat, item: Value, stages: seq<(Value, Value, nat) -> S>): (lane: Lane<S>)
    ensures lane.Between? && |lane.plan| == |stages|
    ensures forall s :: 0 <= s < |stages| ==> lane.plan[s] == StageLaunch(call, i, item, s, stages[s])
  {
    Between(item, seq(|stages|, s requires 0 <= s < |stages| => StageLaunch(call, i, item, s, stages[s])))
  }

  function ItemLanes<S>(call: Path, items: seq<Value>, stages: seq<(Value, Value, nat) -> S>): (lanes: seq<Lane<S>>)
    ensures |lanes| == |items|
    ensures forall i :: 0 <= i < |items| ==> lanes[i] == ItemLane(call, i, items[i], stages)
  {
    seq(|items|, i requires 0 <= i < |items| => ItemLane(call, i, items[i], stages))
  }

  const FANOUT_CAP: Result := Err(ControlFlow("exceeds the fan-out cap"))

  datatype Move<S> = Stuck | Move(tag: Label, branch: Branch<S>)

  datatype LaneMove<S> = LaneStuck | LaneMove(tag: Label, lane: Lane<S>)

  /** What a branch does when its body runs: always possible, and decided by the branch alone. */
  function Act<S>(e: Env<S>, body: S, ctx: Ctx): (m: Move<S>)
    ensures m.Move?
  {
    match e.prog.next(body)
    case Finish(r) => Move(Internal, Done(r))
    case CallAgent(call) =>
      var after := ctx.(agents := ctx.agents + 1);
      if call.invalid.Just? then Move(Internal, Run(e.prog.resume(body, Settle(Err(call.invalid.value))), after))
      else Move(Issued(KeyOf(ctx, call), call), Waiting(body, after, KeyOf(ctx, call), Queued))
    case AskNow =>
      var v := e.base + ctx.nows;
      Move(Read(ctx.path, ctx.nows, v), Run(e.prog.resume(body, Clock(v)), ctx.(nows := ctx.nows + 1)))
    case AskRandom =>
      var v := e.draw(e.seed, ctx.path, ctx.draws);
      Move(Drew(ctx.path, ctx.draws, v), Run(e.prog.resume(body, Dice(v)), ctx.(draws := ctx.draws + 1)))
    case Parallelize(thunks) =>
      if |thunks| > e.maxFanout then Move(Internal, Run(e.prog.resume(body, Settle(FANOUT_CAP)), ctx))
      else
        var call := ctx.path + [Node(Parallel, ctx.fanouts)];
        Move(Internal, Fan(body, ctx.(fanouts := ctx.fanouts + 1), call, ThunkLanes(call, thunks)))
    case Pipe(items, stages) =>
      if |items| > e.maxFanout then Move(Internal, Run(e.prog.resume(body, Settle(FANOUT_CAP)), ctx))
      else
        var call := ctx.path + [Node(Pipeline, ctx.fanouts)];
        Move(Internal, Fan(body, ctx.(fanouts := ctx.fanouts + 1), call, ItemLanes(call, items, stages)))
  }

  predicate AllFinished<S>(lanes: seq<Lane<S>>) { forall i :: 0 <= i < |lanes| ==> lanes[i].Finished? }

  function Values<S>(lanes: seq<Lane<S>>): seq<Value>
    requires AllFinished(lanes)
  {
    seq(|lanes|, i requires 0 <= i < |lanes| => lanes[i].value)
  }

  function Joined<S>(e: Env<S>, b: Branch<S>, values: seq<Value>): Branch<S>
    requires b.Fan?
  {
    Run(e.prog.resume(b.body, Results(values)), b.ctx)
  }

  function Answered<S>(e: Env<S>, b: Branch<S>): Branch<S>
    requires b.Waiting?
  {
    Run(e.prog.resume(b.body, Settle(Effective(e, b.key).Reply())), b.ctx)
  }

  /** Let the branch at `addr` take its next step. A recorded call settles without ever starting. */
  function StepAt<S>(e: Env<S>, b: Branch<S>, addr: seq<nat>): Move<S>
    decreases b
  {
    match b
    case Run(body, ctx) => if addr == [] then Act(e, body, ctx) else Stuck
    case Waiting(_, _, key, phase) =>
      if addr != [] then Stuck
      else if phase.Queued? && key !in e.recorded then Move(Started(key), b.(phase := Running))
      else Move(Settled(key, phase), Answered(e, b))
    case Fan(_, _, _, lanes) =>
      if addr == [] then
        if AllFinished(lanes) then Move(Internal, Joined(e, b, Values(lanes))) else Stuck
      else if addr[0] >= |lanes| then Stuck
      else
        var m := LaneStepAt(e, lanes[addr[0]], addr[1..]);
        if m.LaneStuck? then Stuck else Move(m.tag, b.(lanes := lanes[addr[0] := m.lane]))
    case Done(_) => Stuck
  }

  function LaneStepAt<S>(e: Env<S>, lane: Lane<S>, addr: seq<nat>): LaneMove<S>
    decreases lane
  {
    match lane
    case Between(prev, plan) => if addr == [] then LaneMove(Internal, Proceed(prev, plan)) else LaneStuck
    case Inside(b, plan) =>
      if b.Done? then
        if addr == [] && !(b.result.Err? && b.result.error.ControlFlow?) then LaneMove(Internal, Leave(b.result, plan))
        else LaneStuck
      else
        var m := StepAt(e, b, addr);
        if m.Stuck? then LaneStuck else LaneMove(m.tag, Inside(m.branch, plan))
    case Finished(_) => LaneStuck
  }

  /** The stage loop of pipeline(): stop at null or at the end, else start the next stage's branch. */
  function Proceed<S>(prev: Value, plan: seq<Launch<S>>): Lane<S> {
    if prev.Null? || plan == [] then Finished(prev)
    else Inside(Run(plan[0].start(prev), NewCtx(plan[0].path)), plan[1..])
  }

  /** A lane's branch ended: go on with its value, or degrade the item to null. */
  function Leave<S>(r: Result, plan: seq<Launch<S>>): Lane<S> {
    if r.Val? then Between(r.value, plan) else Finished(Null)
  }

  /* ----- the sequential reference ----- */

  datatype Out = Out(result: Result, work: Work)

  datatype LaneOut = LaneOut(value: Value, work: Work)

  datatype LanesOut = LanesOut(values: seq<Value>, work: Work)

  function More(w: Work, r: Option<Out>): Option<Out> {
    if r.Nothing? then Nothing else Just(Out(r.value.result, Join(w, r.value.work)))
  }

  function LaneMore(w: Work, r: Option<LaneOut>): Option<LaneOut> {
    if r.Nothing? then Nothing else Just(LaneOut(r.value.value, Join(w, r.value.work)))
  }

  /** The work an outstanding agent call still has to do. */
  function CallWork<S>(e: Env<S>, key: Key, phase: Phase): Work {
    if phase.Queued? && key !in e.recorded then Join(WorkOf(e, Started(key)), WorkOf(e, Settled(key, Running)))
    else WorkOf(e, Settled(key, phase))
  }

  /**
   Finish a branch alone, depth first: each fan-out runs its lanes one after another, to the end.
   `n` bounds the depth of the evaluation; the theorems ask only that some bound suffices.
   */
  function Eval<S>(e: Env<S>, n: nat, b: Branch<S>): Option<Out>
    decreases n, 0, 0
  {
    if b.Done? then Just(Out(b.result, NO_WORK))
    else if n == 0 then Nothing
    else
      match b
      case Run(body, ctx) =>
        var m := Act(e, body, ctx);
        More(WorkOf(e, m.tag), Eval(e, n - 1, m.branch))
      case Waiting(_, _, key, phase) =>
        More(CallWork(e, key, phase), Eval(e, n - 1, Answered(e, b)))
      case Fan(_, _, _, lanes) =>
        var r := EvalLanes(e, n - 1, lanes);
        if r.Nothing? then Nothing
        else More(r.value.work, More(WorkOf(e, Internal), Eval(e, n - 1, Joined(e, b, r.value.values))))
  }

  function EvalLane<S>(e: Env<S>, n: nat, lane: Lane<S>): Option<LaneOut>
    decreases n, 1, 0
  {
    match lane
    case Finished(v) => Just(LaneOut(v, NO_WORK))
    case Between(prev, plan) =>
      if n == 0 then Nothing else LaneMore(WorkOf(e, Internal), EvalLane(e, n - 1, Proceed(prev, plan)))
    case Inside(b, plan) =>
      if n == 0 then Nothing
      else
        var r := Eval(e, n - 1, b);
        if r.Nothing? || (r.value.result.Err? && r.value.result.error.ControlFlow?) then Nothing
        else LaneMore(r.value.work, LaneMore(WorkOf(e, Internal), EvalLane(e, n - 1, Leave(r.value.result, plan))))
  }

  function EvalLanes<S>(e: Env<S>, n: nat, lanes: seq<Lane<S>>): Option<LanesOut>
    decreases n, 2, |lanes|
  {
    if lanes == [] then Just(LanesOut([], NO_WORK))
    else
      var first := EvalLane(e, n, lanes[0]);
      var rest := EvalLanes(e, n, lanes[1..]);
      if first.Nothing? || rest.Nothing? then Nothing
      else Just(LanesOut([first.value.value] + rest.value.values, Join(first.value.work, rest.value.work)))
  }
}
