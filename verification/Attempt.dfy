/**
 One attempt at a run (src/runtime/primitives.ts, src/runtime/run.ts): the tree of branches together
 with what the Runtime updates in place (display indices, call count, usage total) and the journal it
 appends to. An attempt starts from the loaded journal and may stop after any step.
 */
module Attempt {
  import opened Options
  import opened Usage
  import opened Keys
  import opened Engine
  import opened Journal
  import opened Positions
  import Confluence

  /** `entropy` and `clock` are randomSeed() and Date.now() when the attempt starts. */
  datatype Config<!S> = Config(
    prog: Program<S>,
    body: S,
    draw: (int, Path, nat) -> int,
    worker: Key -> Outcome,
    maxFanout: nat,
    maxAgents: nat,
    entropy: int,
    clock: int)

  function Seed<S>(cfg: Config<S>, journal: seq<Entry>): int {
    var m := Load(journal).meta;
    if m.Just? && m.value.Meta? then m.value.seed else cfg.entropy
  }

  function BaseTime<S>(cfg: Config<S>, journal: seq<Entry>): int {
    var m := Load(journal).meta;
    if m.Just? && m.value.Meta? then m.value.createdAt else cfg.clock
  }

  function EnvOf<S>(cfg: Config<S>, journal: seq<Entry>): Env<S> {
    Env(cfg.prog, BaseTime(cfg, journal), Seed(cfg, journal), cfg.draw, cfg.maxFanout, Recordings(journal), cfg.worker)
  }

  function Root<S>(cfg: Config<S>): Branch<S> { Run(cfg.body, NewCtx([])) }

  datatype State<S> = State(
    root: Branch<S>,
    issued: map<Key, nat>,
    started: set<Key>,
    settled: set<Key>,
    cut: set<Key>,
    display: nat,
    total: Usage,
    replayed: seq<Usage>,
    log: seq<Entry>,
    work: Work)

  /** The scheduler's choice: move a branch, or (Ctrl-C) cut off a running agent that billed something. */
  datatype Choice = Step(addr: seq<nat>) | Cut(key: Key, billed: Usage)

  /** Math.max(0, ...indices). */
  ghost function HighestIndex(indices: map<Key, nat>): (m: nat)
    ensures forall k :: k in indices ==> indices[k] <= m
    ensures m == 0 || exists k :: k in indices && indices[k] == m
    decreases |indices|
  {
    if indices == map[] then 0
    else
      var k :| k in indices;
      var rest := indices - {k};
      assert forall j :: j in indices ==> j == k || j in rest;
      assert |rest| < |indices| by { assert rest.Keys == indices.Keys - {k}; }
      var m := HighestIndex(rest);
      if m < indices[k] then indices[k] else m
  }

  ghost function Opening<S>(cfg: Config<S>, journal: seq<Entry>): seq<Entry> {
    if Load(journal).meta.Just? then [] else [Meta(Seed(cfg, journal), BaseTime(cfg, journal))]
  }

  ghost function Init<S>(cfg: Config<S>, journal: seq<Entry>): State<S> {
    State(Root(cfg), map[], {}, {}, {}, HighestIndex(Load(journal).indexByKey), EMPTY, [], Opening(cfg, journal),
      NO_WORK)
  }

  /** The display index of a newly issued key: the journaled one, else the next fresh one. */
  ghost function IndexFor<S>(journal: seq<Entry>, s: State<S>, k: Key): nat {
    if k in Load(journal).indexByKey then Load(journal).indexByKey[k] else s.display + 1
  }

  ghost function IssuedIndex<S>(s: State<S>, k: Key): nat { if k in s.issued then s.issued[k] else 0 }

  /** Why a step aborts the run instead: a repeated explicit key, or the lifetime call cap. */
  ghost predicate Aborts<S>(cfg: Config<S>, s: State<S>, tag: Label) {
    tag.Issued? && ((tag.key.Explicit? && tag.key in s.issued) || s.work.calls + 1 > cfg.maxAgents)
  }

  /** Runtime bookkeeping for one step of one branch. */
  ghost function Record<S>(e: Env<S>, journal: seq<Entry>, s: State<S>, tag: Label): State<S> {
    var t := s.(work := Join(s.work, WorkOf(e, tag)));
    match tag
    case Issued(k, _) =>
      t.(issued := s.issued[k := IndexFor(journal, s, k)],
         display := if k in Load(journal).indexByKey then s.display else s.display + 1)
    case Started(k) => t.(started := s.started + {k}, log := s.log + [StartEntry(k, IssuedIndex(s, k))])
    case Settled(k, _) =>
      var o := Effective(e, k);
      var u := t.(settled := s.settled + {k}, total := Add(s.total, o.usage));
      if k in e.recorded then u.(replayed := s.replayed + [o.usage])
      else u.(log := s.log + [ResultEntry(k, IssuedIndex(s, k), o.Journaled(), if o.Returned? then o.value
        else Null, o.usage)])
    case _ => t
  }

  ghost function Advance<S>(cfg: Config<S>, journal: seq<Entry>, s: State<S>, c: Choice): Option<State<S>> {
    match c
    case Step(addr) =>
      var e := EnvOf(cfg, journal);
      var m := StepAt(e, s.root, addr);
      if m.Stuck? || Aborts(cfg, s, m.tag) then Nothing
      // An agent that was cut off never answers.
      else if m.tag.Settled? && m.tag.key !in e.recorded && m.tag.key in s.cut then Nothing
      else Just(Record(e, journal, s, m.tag).(root := m.branch))
    case Cut(k, usage) =>
      if k !in s.started - s.settled - s.cut then Nothing
      else Just(s.(cut := s.cut + {k}, total := Add(s.total, usage),
                   log := s.log + [ResultEntry(k, IssuedIndex(s, k), Interrupted, Null, usage)]))
  }

  ghost function Exec<S>(cfg: Config<S>, journal: seq<Entry>, sched: seq<Choice>): Option<State<S>> {
    if sched == [] then Just(Init(cfg, journal))
    else
      var n := |sched| - 1;
      var s := Exec(cfg, journal, sched[..n]);
      if s.Nothing? then Nothing else Advance(cfg, journal, s.value, sched[n])
  }

  /* ----- confluence ----- */

  lemma {:induction false} RemainingBackward<S>(cfg: Config<S>, journal: seq<Entry>, sched: seq<Choice>, n: nat)
    requires var s := Exec(cfg, journal, sched); s.Just? && Eval(EnvOf(cfg, journal), n, s.value.root).Just?
    ensures var s, e := Exec(cfg, journal, sched).value, EnvOf(cfg, journal);
            Eval(e, n + |sched|, Root(cfg)) == More(s.work, Eval(e, n, s.root))
  {
    hide Act, Join, WorkOf, Effective, EnvOf, Init, Eval, StepAt;
    var s, e := Exec(cfg, journal, sched).value, EnvOf(cfg, journal);
    var rest := Eval(e, n, s.root).value.work;
    if sched == [] {
      InitIsIdle(cfg, journal);
      JoinLaws(rest, NO_WORK, NO_WORK);
    } else {
      var k := |sched| - 1;
      var before := Exec(cfg, journal, sched[..k]).value;
      match sched[k]
      case Step(addr) =>
        Confluence.Backward(e, n, before.root, addr);
        RemainingBackward(cfg, journal, sched[..k], n + 1);
        JoinLaws(before.work, WorkOf(e, StepAt(e, before.root, addr).tag), rest);
      case Cut(_, _) =>
        RemainingBackward(cfg, journal, sched[..k], n);
        Confluence.EvalMono(e, n + k, n + k + 1, Root(cfg));
    }
  }

  lemma InitIsIdle<S>(cfg: Config<S>, journal: seq<Entry>)
    ensures var s := Init(cfg, journal);
              s.root == Root(cfg) && s.work == NO_WORK && s.total == EMPTY && s.replayed == []
  {}

  /**
   Confluence: a run that reaches the end of its root body, under any schedule, has computed what the
   sequential evaluation computes: the same result, and the same calls, answers, times, random draws
   and usage.
   */
  lemma EveryScheduleIsSequential<S>(cfg: Config<S>, journal: seq<Entry>, sched: seq<Choice>) returns (n: nat)
    requires var s := Exec(cfg, journal, sched); s.Just? && s.value.root.Done?
    ensures var s := Exec(cfg, journal, sched).value;
            Eval(EnvOf(cfg, journal), n, Root(cfg)) == Just(Out(s.root.result, s.work))
  {
    var s := Exec(cfg, journal, sched).value;
    RemainingBackward(cfg, journal, sched, 0);
    JoinLaws(s.work, NO_WORK, NO_WORK);
    n := |sched|;
  }

  /** Two completed runs of one attempt agree, whatever their schedules. */
  lemma SchedulesAgree<S>(cfg: Config<S>, journal: seq<Entry>, a: seq<Choice>, b: seq<Choice>)
    requires var s := Exec(cfg, journal, a); s.Just? && s.value.root.Done?
    requires var s := Exec(cfg, journal, b); s.Just? && s.value.root.Done?
    ensures Exec(cfg, journal, a).value.root == Exec(cfg, journal, b).value.root
    ensures Exec(cfg, journal, a).value.work == Exec(cfg, journal, b).value.work
  {
    hide Exec, Eval;
    var e := EnvOf(cfg, journal);
    var m := EveryScheduleIsSequential(cfg, journal, a);
    var n := EveryScheduleIsSequential(cfg, journal, b);
    Confluence.EvalMono(e, m, m + n, Root(cfg));
    Confluence.EvalMono(e, n, m + n, Root(cfg));
  }

  lemma {:induction false} RemainingForward<S>(cfg: Config<S>, journal: seq<Entry>, sched: seq<Choice>, n: nat)
    requires Eval(EnvOf(cfg, journal), n, Root(cfg)).Just? && Exec(cfg, journal, sched).Just?
    ensures var s, e := Exec(cfg, journal, sched).value, EnvOf(cfg, journal);
            Eval(e, n, s.root).Just? && Eval(e, n, Root(cfg)) == More(s.work, Eval(e, n, s.root))
  {
    hide Act, Join, WorkOf, Effective, EnvOf, Init, Eval, StepAt;
    var s, e := Exec(cfg, journal, sched).value, EnvOf(cfg, journal);
    if sched == [] {
      InitIsIdle(cfg, journal);
      JoinLaws(Eval(e, n, s.root).value.work, NO_WORK, NO_WORK);
    } else {
      var k := |sched| - 1;
      var before := Exec(cfg, journal, sched[..k]).value;
      RemainingForward(cfg, journal, sched[..k], n);
      match sched[k]
      case Step(addr) =>
        Confluence.Forward(e, n, before.root, addr);
        JoinLaws(before.work, WorkOf(e, StepAt(e, before.root, addr).tag), Eval(e, n, s.root).value.work);
      case Cut(_, _) =>
    }
  }
}
