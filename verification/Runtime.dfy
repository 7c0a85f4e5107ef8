/**
 The parts of the runtime that work by updating fields in place (src/runtime/primitives.ts,
 src/worker/errors.ts): a branch's counters, the bookkeeping before an agent runs, and one agent's
 attempts, retries and billing. Each is tied to what the engine's model says of it.
 */
module Runtime {
  import opened Options
  import opened Usage
  import opened Keys
  import opened Engine
  import opened Journal
  import opened Attempt

  /* ----- a branch's counters ----- */

  const STEP: bv32 := 0x6d2b79f5

  /** mulberry32's output for a state. */
  function Mix(s: bv32): bv32 {
    var t := (s ^ (s >> 15)) * (s | 1);
    var u := t ^ (t + (t ^ (t >> 7)) * (t | 61));
    u ^ (u >> 14)
  }

  /** The generator's state after `n` draws. */
  function StateAfter(start: bv32, n: nat): bv32 { if n == 0 then start else StateAfter(start, n - 1) + STEP }

  /** The n-th draw of a substream: a function of where it starts and of n alone, as Engine.draw assumes. */
  function NthDraw(start: bv32, n: nat): bv32 { Mix(StateAfter(start, n + 1)) }

  class KeyContext {
    const path: Path
    const start: bv32
    var agentIndex: nat
    var fanoutIndex: nat
    var nowCounter: nat
    var rngState: bv32
    ghost var draws: nat

    ghost predicate Valid()
      reads this
    {
      rngState == StateAfter(start, draws)
    }

    ghost function Counters(): Ctx
      reads this
    {
      Ctx(path, agentIndex, fanoutIndex, nowCounter, draws)
    }

    /** A fresh branch; its substream starts at a state derived from the run's seed and the branch's key. */
    constructor (path: Path, start: bv32)
      ensures Valid() && Counters() == NewCtx(path) && this.start == start
    {
      this.path, this.start := path, start;
      agentIndex, fanoutIndex, nowCounter, rngState, draws := 0, 0, 0, start, 0;
    }

    /** now(): the engine's reading step of a body that asks for the time. */
    method Now<S>(base: int, ghost e: Env<S>, ghost body: S) returns (time: int)
      requires Valid() && e.base == base && e.prog.next(body).AskNow?
      modifies this`nowCounter
      ensures Valid() && time == base + old(Counters()).nows
      ensures Act(e, body, old(Counters())) ==
                Move(Read(path, old(Counters()).nows, time), Run(e.prog.resume(body, Clock(time)), Counters()))
    {
      time := base + nowCounter;
      nowCounter := nowCounter + 1;
    }

    /** random(): the engine's drawing step, for an engine whose draws are this branch's substream. */
    method Random<S>(ghost e: Env<S>, ghost body: S) returns (draw: bv32)
      requires Valid() && e.prog.next(body).AskRandom? &&
                 e.draw(e.seed, path, Counters().draws) == NthDraw(start, Counters().draws) as int
      modifies this`rngState, this`draws
      ensures Valid() && draw == NthDraw(start, old(Counters()).draws)
      ensures Act(e, body, old(Counters())) ==
              Move(Drew(path, old(Counters()).draws, draw as int),
                Run(e.prog.resume(body, Dice(draw as int)), Counters()))
    {
      hide Mix;
      rngState := rngState + STEP;
      draws := draws + 1;
      draw := Mix(rngState);
    }

    /** The lineage node of the next parallel() or pipeline() call, as the engine opens the fan-out under it. */
    method NextFanout<S>(kind: Kind, ghost e: Env<S>, ghost body: S) returns (call: Path)
      requires Valid()
      requires var a := e.prog.next(body);
               (kind.Parallel? && a.Parallelize? && |a.thunks| <= e.maxFanout) ||
                 (kind.Pipeline? && a.Pipe? && |a.items| <= e.maxFanout)
      modifies this`fanoutIndex
      ensures Valid() && call == path + [Node(kind, old(fanoutIndex))]
      ensures var b := Act(e, body, old(Counters())).branch; b.Fan? && b.call == call && b.ctx == Counters()
    {
      call := path + [Node(kind, fanoutIndex)];
      fanoutIndex := fanoutIndex + 1;
    }
  }

  /* ----- before an agent runs ----- */

  /** How agent()'s synchronous prefix ends. */
  datatype Begun =
    | Refused(error: Error)
    | Duplicate(name: string)
    | CapReached
    | Replays(key: Key, index: nat, value: Value)
    | Runs(key: Key, index: nat)

  /** Runtime fields that agree with the state `s` of an attempt at a run. */
  ghost predicate Mirrors<S>(display: nat, calls: nat, total: Usage, names: set<string>, s: State<S>) {
    display == s.display && calls == s.work.calls && total == s.total && forall name :: name in names <==>
      Explicit(name) in s.issued
  }

  /** The engine's issuing step changes what agentImpl changes. */
  lemma IssueMirrors<S>(cfg: Config<S>, journal: seq<Entry>, s: State<S>, key: Key, call: Call, display: nat,
      calls: nat, total: Usage, names: set<string>)
    requires Mirrors(display, calls, total, names, s)
    ensures var t := Record(EnvOf(cfg, journal), journal, s, Issued(key, call));
            Mirrors(if key in Load(journal).indexByKey then display else display + 1, calls + 1, total,
                    if key.Explicit? then names + {key.name} else names, t)
  {
    hide Load, EnvOf, Add;
  }

  /** So does the settling step of a recorded key. */
  lemma ReplayMirrors<S>(cfg: Config<S>, journal: seq<Entry>, s: State<S>, key: Key, display: nat, calls: nat,
      total: Usage, names: set<string>)
    requires Mirrors(display, calls, total, names, s) && key in Recordings(journal)
    ensures Mirrors(display, calls, Add(total, Recordings(journal)[key].usage), names,
                    Record(EnvOf(cfg, journal), journal, s, Settled(key, Queued)))
  {
    hide Load, Add, Recordings, Seed, BaseTime;
  }

  class Bookkeeping {
    const maxAgents: nat
    const indexByKey: map<Key, nat>
    const recorded: map<Key, Recorded>
    var displayIndex: nat
    var agentCalls: nat
    var explicitKeys: set<string>
    var totalUsage: Usage

    constructor (maxAgents: nat, indexByKey: map<Key, nat>, recorded: map<Key, Recorded>, highest: nat)
      ensures this.maxAgents == maxAgents && this.indexByKey == indexByKey && this.recorded == recorded
      ensures displayIndex == highest && agentCalls == 0 && explicitKeys == {} && totalUsage == EMPTY
    {
      this.maxAgents, this.indexByKey, this.recorded := maxAgents, indexByKey, recorded;
      displayIndex, agentCalls, explicitKeys, totalUsage := highest, 0, {}, EMPTY;
    }

    /** This runtime serves an attempt, and is in its state `s`. */
    ghost predicate Serves<S>(cfg: Config<S>, journal: seq<Entry>, s: State<S>)
      reads this
    {
      && maxAgents == cfg.maxAgents && indexByKey == Load(journal).indexByKey && recorded == Recordings(journal)
      && Mirrors(displayIndex, agentCalls, totalUsage, explicitKeys, s)
    }

    /**
     agentImpl up to its semaphore: what it decides, and the state it leaves, are those of the engine's
     issuing step, followed, for a recorded key, by its settling step.
     */
    method Begin<S>(ctx: KeyContext, call: Call, ghost cfg: Config<S>, ghost journal: seq<Entry>, ghost s: State<S>)
      returns (b: Begun)
      requires ctx.Valid() && Serves(cfg, journal, s)
      modifies this, ctx`agentIndex
      ensures ctx.Valid() && ctx.Counters() == old(ctx.Counters()).(agents := old(ctx.Counters()).agents + 1)
      ensures call.invalid.Just? ==> b == Refused(call.invalid.value) && Serves(cfg, journal, s)
      ensures var key, e := KeyOf(old(ctx.Counters()), call), EnvOf(cfg, journal);
              var issued := Record(e, journal, s, Issued(key, call));
              call.invalid.Nothing? ==>
                if Aborts(cfg, s, Issued(key, call)) then
                  (key.Explicit? && key in s.issued && b == Duplicate(key.name)) ||
                    (s.work.calls + 1 > cfg.maxAgents && b.CapReached?)
                else if key in recorded then
                  b == Replays(key, IndexFor(journal, s, key), recorded[key].value)
                  && Serves(cfg, journal, Record(e, journal, issued, Settled(key, Queued)))
                else
                  b == Runs(key, IndexFor(journal, s, key)) && Serves(cfg, journal, issued)
    {
      hide Load, Recordings, EnvOf, Add, Sum, Record, Mirrors, StateAfter;
      MirroredFields(displayIndex, agentCalls, totalUsage, explicitKeys, s);
      ghost var before := ctx.Counters();
      var local := ctx.agentIndex;
      ctx.agentIndex := local + 1;
      if call.invalid.Just? { return Refused(call.invalid.value); }
      var named := call.key.Just? && call.key.value != "";
      var key := if named then Explicit(call.key.value) else Chain(ctx.path, local, call.prompt, call.fields);
      assert key == KeyOf(before, call);
      IssueMirrors(cfg, journal, s, key, call, displayIndex, agentCalls, totalUsage, explicitKeys);
      if named {
        if call.key.value in explicitKeys { return Duplicate(call.key.value); }
        explicitKeys := explicitKeys + {call.key.value};
      }
      agentCalls := agentCalls + 1;
      if agentCalls > maxAgents { return CapReached; }
      var index: nat;
      if key in indexByKey {
        index := indexByKey[key];
      } else {
        displayIndex := displayIndex + 1;
        index := displayIndex;
      }
      if key in recorded {
        ReplayMirrors(cfg, journal, Record(EnvOf(cfg, journal), journal, s, Issued(key, call)), key, displayIndex,
          agentCalls, totalUsage, explicitKeys);
        totalUsage := Add(totalUsage, recorded[key].usage);
        return Replays(key, index, recorded[key].value);
      }
      return Runs(key, index);
    }
  }

  lemma MirroredFields<S>(display: nat, calls: nat, total: Usage, names: set<string>, s: State<S>)
    requires Mirrors(display, calls, total, names, s)
    ensures display == s.display && calls == s.work.calls && forall name :: name in names <==>
              Explicit(name) in s.issued
  {}

  /* ----- an agent's attempts ----- */

  /** What one invocation of the worker does, with the usage it reports. */
  datatype Answer = Succeeds(text: string, usage: Usage) | Errs(code: string, retryable: bool,
    billed: Option<Usage>) | Throws(message: string)

  function Reported(a: Answer): Usage {
    match a
    case Succeeds(_, u) => u
    case Errs(_, _, u) => if u.Just? then u.value else EMPTY
    case Throws(_) => EMPTY
  }

  /**
   An invocation ends, or the agent's deadline (Ctrl-C, or its timeout) overtakes it: withinDeadline() then
   gives up at once, and what the provider answers later, if ever, goes nowhere.
   */
  datatype Course = Ends(answer: Answer) | Overtaken(answer: Answer)

  /** How a call to withRetry, or the whole body, ends. */
  datatype Ending = Got(text: string, usage: Usage) | Threw(answer: Answer) | Stopped | NotAccepted(message: string)

  /**
   The world an agent runs in: the course of the k-th invocation, and whether the deadline came before it or
   during the backoff after it.
   */
  datatype World = World(course: nat -> Course, aborted: nat -> bool, wakes: nat -> bool)

  const ATTEMPTS: nat := 4

  /** The reports of invocations `from` to `to`. */
  function Reports(w: World, from: nat, to: nat): seq<Usage>
    requires from <= to
  {
    seq(to - from, i requires 0 <= i < to - from => Reported(w.course(from + i).answer))
  }

  lemma ReportsSnoc(w: World, from: nat, to: nat)
    requires from <= to
    ensures Reports(w, from, to + 1) == Reports(w, from, to) + [Reported(w.course(to).answer)]
    ensures Sum(Reports(w, from, to + 1)) == Add(Sum(Reports(w, from, to)), Reported(w.course(to).answer))
  {
    var all := Reports(w, from, to + 1);
    assert all == Reports(w, from, to) + [Reported(w.course(to).answer)];
    assert all[..|all| - 1] == Reports(w, from, to);
  }

  class AgentRun {
    var ended: nat
    var overtaken: bool
    var attemptUsage: Usage

    constructor ()
      ensures ended == 0 && !overtaken && attemptUsage == EMPTY
    {
      ended, overtaken, attemptUsage := 0, false, EMPTY;
    }

    /** Invocations begun: those that ended, and the one the deadline overtook. */
    function Begun(): nat
      reads this
    {
      ended + if overtaken then 1 else 0
    }

    /** Everything reported so far is billed, but for the last `unbilled` invocations. */
    ghost predicate Billed(w: World, unbilled: nat)
      reads this
    {
      && unbilled <= ended && attemptUsage == Sum(Reports(w, 0, ended - unbilled))
      && (forall k :: 0 <= k < ended ==> w.course(k).Ends?)
    }

    /** How withRetry may leave things, from the `first` invocation it was free to make. */
    ghost predicate Ended(w: World, first: nat, r: Ending)
      reads this
    {
      && first <= ended && Begun() <= first + ATTEMPTS && !r.NotAccepted?
      && (forall k :: first <= k < ended - 1 ==>
           var c := w.course(k);
           c.Ends? && c.answer.Errs? && c.answer.retryable)
      && (r.Got? ==> ended > first && w.course(ended - 1) == Ends(Succeeds(r.text, r.usage)) && Billed(w, 1))
      && (r.Threw? ==> ended > first && w.course(ended - 1) == Ends(r.answer) && !r.answer.Succeeds? && Billed(w, 1))
      && (r.Threw? && r.answer.Errs? && r.answer.retryable ==> ended == first + ATTEMPTS)
      && (r.Stopped? ==> Billed(w, 0) && StoppedAt(w))
      && (overtaken ==> r.Stopped?)
    }

    /** Where the deadline found the agent: in an invocation, before one, or in a backoff. */
    ghost predicate StoppedAt(w: World)
      reads this
    {
      if overtaken then w.course(ended).Overtaken? else w.aborted(ended) || (ended > 0 && w.wakes(ended - 1))
    }

    /**
     withRetry, raced against the deadline: at most four invocations, the earlier ones failing retryably. Its
     onRetry callback bills a retried attempt; the last attempt's report, if it ends the call, is left for the
     caller to bill, and that of an overtaken one is not seen.
     */
    method WithRetry(w: World) returns (r: Ending)
      requires Billed(w, 0) && !overtaken
      modifies this
      ensures Ended(w, old(ended), r)
    {
      hide Add, Sum, Reported;
      var i, done := 0, false;
      r := Stopped;
      while !done
        invariant !done ==> i < ATTEMPTS && ended == old(ended) + i && !overtaken && Billed(w, 0)
        invariant !done ==>
                    forall k :: old(ended) <= k < ended ==>
                      var c := w.course(k);
                      c.Ends? && c.answer.Errs? && c.answer.retryable
        invariant done ==> Ended(w, old(ended), r)
        decreases !done, ATTEMPTS - i
      {
        if w.aborted(ended) {
          r, done := Stopped, true;
        } else if w.course(ended).Overtaken? {
          r, done, overtaken := Stopped, true, true;
        } else {
          var a := w.course(ended).answer;
          ReportsSnoc(w, 0, ended);
          ended := ended + 1;
          if a.Succeeds? {
            r, done := Got(a.text, a.usage), true;
          } else if !a.Errs? || !a.retryable || i == ATTEMPTS - 1 {
            r, done := Threw(a), true;
          } else {
            Bill(a);
            if w.wakes(ended - 1) { r, done := Stopped, true; }
            i := i + 1;
          }
        }
      }
    }

    /** Add an attempt's reported usage, if it reported any. */
    method Bill(a: Answer)
      modifies this`attemptUsage
      ensures attemptUsage == Add(old(attemptUsage), Reported(a))
    {
      hide Add;
      match a
      case Succeeds(_, usage) => attemptUsage := Add(attemptUsage, usage);
      case Errs(_, _, usage) =>
        if usage.Just? {
          attemptUsage := Add(attemptUsage, usage.value);
        } else {
          AddIsCommutativeMonoid(attemptUsage, EMPTY, EMPTY);
        }
      case Throws(_) => AddIsCommutativeMonoid(attemptUsage, EMPTY, EMPTY);
    }

    /**
     The agent's body: preparation, which may fail; one turn, a corrective one if its answer misses the schema,
     and collection. However it ends, the entry it writes bills the reports of the invocations that ended, each
     once; what is missing from all it began is the report of the invocation the deadline overtook, if any.
     */
    method Run(w: World, prepares: bool, fits: string -> bool, structured: bool, collects: bool) returns (r: Ending)
      requires ended == 0 && !overtaken && attemptUsage == EMPTY
      modifies this
      ensures attemptUsage == Sum(Reports(w, 0, ended)) && Begun() <= 2 * ATTEMPTS
      ensures forall k :: 0 <= k < ended ==> w.course(k).Ends?
      ensures Sum(Reports(w, 0, Begun())) ==
                if overtaken then Add(attemptUsage, Reported(w.course(ended).answer)) else attemptUsage
      ensures r.Stopped? ==> StoppedAt(w)
      ensures overtaken ==> r.Stopped?
      ensures !prepares ==> Begun() == 0 && r.NotAccepted?
      ensures prepares && !r.Stopped? ==> ended > 0
      ensures r.Got? ==> fits(r.text) && collects && ended > 0 && w.course(ended - 1) == Ends(Succeeds(r.text, r.usage))
      ensures r.Threw? ==>
                && ended > 0 && w.course(ended - 1) == Ends(r.answer) && !r.answer.Succeeds?
                && (r.answer.Errs? && r.answer.retryable ==> ended >= ATTEMPTS)
      ensures r.NotAccepted? && prepares ==>
                && ended > 0 && w.course(ended - 1).answer.Succeeds?
                && var text := w.course(ended - 1).answer.text;
                   if fits(text) then !collects
                   else structured ==> exists k :: 0 <= k < ended - 1 && w.course(k).answer.Succeeds?
      ensures !structured ==> Begun() <= ATTEMPTS
    {
      hide Add, Sum, Reported;
      NothingReported(w);
      if !prepares {
        ReportsSnoc(w, 0, ended);
        return NotAccepted("could not prepare");
      }
      r := WithRetry(w);
      if r.Got? {
        Settle(w);
        if !fits(r.text) && structured {
          r := WithRetry(w);
          if r.Got? { Settle(w); }
        }
        if r.Got? && !fits(r.text) { r := NotAccepted("result does not match"); }
        if r.Got? && !collects { r := NotAccepted("could not collect"); }
      }
      if r.Threw? { Settle(w); }
      ReportsSnoc(w, 0, ended);
    }

    /** Bill the last invocation. */
    method Settle(w: World)
      requires Billed(w, 1)
      modifies this`attemptUsage
      ensures Billed(w, 0)
    {
      hide Add, Sum, Reported;
      ReportsSnoc(w, 0, ended - 1);
      Bill(w.course(ended - 1).answer);
    }
  }

  lemma NothingReported(w: World)
    ensures Sum(Reports(w, 0, 0)) == EMPTY
  {
    assert Reports(w, 0, 0) == [];
  }

  /** A usage changes no total it is added to exactly when it reports nothing and no counter the total lacks. */
  lemma AddsNothingExactly(a: Usage, u: Usage)
    ensures Add(a, u) == a <==>
              && u.inputTokens == 0 && u.outputTokens == 0 && u.costUsd == 0.0
              && forall p :: p in [(a.cacheRead, u.cacheRead), (a.cacheCreation, u.cacheCreation),
                (a.reasoning, u.reasoning)] ==>
                   p.1.Nothing? || (p.0.Just? && p.1.value == 0)
  {
    var ps := [(a.cacheRead, u.cacheRead), (a.cacheCreation, u.cacheCreation), (a.reasoning, u.reasoning)];
    assert ps[0] in ps && ps[1] in ps && ps[2] in ps;
  }

  /** Ctrl-C during the only invocation: its report, when it comes, is billed nowhere. */
  method LateReportIsDropped(text: string, usage: Usage) returns (run: AgentRun, ghost w: World)
    ensures fresh(run) && run.Begun() == 1 && Sum(Reports(w, 0, run.Begun())) == usage && run.attemptUsage == EMPTY
  {
    hide Add, Sum;
    var world := World(_ => Overtaken(Succeeds(text, usage)), _ => false, _ => false);
    run := new AgentRun();
    var r := run.Run(world, true, _ => true, false, true);
    w := world;
    assert !world.course(0).Ends? && r.Stopped? && run.overtaken;
    NothingReported(world);
    AddIsCommutativeMonoid(usage, usage, usage);
  }
}
