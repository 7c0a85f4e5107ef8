/**
 Resuming a run: what stays the same from one attempt to the next, and why replaying a journal gives
 the value the uninterrupted run would have given.
 */
module Resume {
  import opened Options
  import opened Usage
  import opened Keys
  import opened Engine
  import opened Journal
  import opened Attempt
  import opened AttemptSafety
  import Confluence

  /* ----- usage ----- */

  /** What the result entries of a log billed. */
  function Billed(log: seq<Entry>): Usage {
    if log == [] then EMPTY
    else
      var n := |log| - 1;
      if log[n].ResultEntry? then Add(Billed(log[..n]), log[n].usage) else Billed(log[..n])
  }

  lemma BilledStep(log: seq<Entry>, e: Entry)
    ensures Billed(log + [e]) == if e.ResultEntry? then Add(Billed(log), e.usage) else Billed(log)
  {
    assert (log + [e])[..|log|] == log;
  }

  lemma SumStep(us: seq<Usage>, u: Usage)
    ensures Sum(us + [u]) == Add(Sum(us), u)
  {
    assert (us + [u])[..|us|] == us;
  }

  /**
   The run total is, at every moment, what the replayed results had billed plus what the result
   entries written so far bill: each entry once, failures and interruptions included.
   */
  lemma {:induction false} UsageConserved<S>(cfg: Config<S>, journal: seq<Entry>, sched: seq<Choice>)
    requires Exec(cfg, journal, sched).Just?
    ensures var s := Exec(cfg, journal, sched).value; s.total == Add(Sum(s.replayed), Billed(s.log))
  {
    if sched == [] {
      OpeningBillsNothing(cfg, journal);
    } else {
      var n := |sched| - 1;
      UsageConserved(cfg, journal, sched[..n]);
      StepBills(cfg, journal, Exec(cfg, journal, sched[..n]).value, sched[n]);
    }
  }

  lemma OpeningBillsNothing<S>(cfg: Config<S>, journal: seq<Entry>)
    ensures var s := Init(cfg, journal); s.total == Add(Sum(s.replayed), Billed(s.log))
  {
    hide EnvOf, Load, Seed, BaseTime, Billed, Add, HighestIndex;
    var s := Init(cfg, journal);
    MetaBillsNothing(s.log);
    AddIsCommutativeMonoid(EMPTY, EMPTY, EMPTY);
  }

  lemma MetaBillsNothing(log: seq<Entry>)
    requires |log| <= 1 && forall i :: 0 <= i < |log| ==> log[i].Meta?
    ensures Billed(log) == EMPTY && Sum([]) == EMPTY
  {
    if log != [] { assert log[..0] == []; }
  }

  lemma StepBills<S>(cfg: Config<S>, journal: seq<Entry>, s: State<S>, c: Choice)
    requires Advance(cfg, journal, s, c).Just? && s.total == Add(Sum(s.replayed), Billed(s.log))
    ensures var t := Advance(cfg, journal, s, c).value; t.total == Add(Sum(t.replayed), Billed(t.log))
  {
    hide Act, StepAt, EnvOf, WorkOf, Join, IndexFor, Effective, Add, Sum, Billed;
    var t := Advance(cfg, journal, s, c).value;
    if t.log != s.log {
      var e := t.log[|s.log|];
      BilledStep(s.log, e);
      if e.ResultEntry? { AddIsCommutativeMonoid(Sum(s.replayed), Billed(s.log), e.usage); }
    } else if t.replayed != s.replayed {
      var u := t.replayed[|s.replayed|];
      SumStep(s.replayed, u);
      AddIsCommutativeMonoid(Sum(s.replayed), Billed(s.log), u);
      AddIsCommutativeMonoid(Sum(s.replayed), u, Billed(s.log));
      AddIsCommutativeMonoid(Billed(s.log), u, u);
    }
  }

  /** Without interruptions the total is the work done: it does not depend on the schedule. */
  lemma {:induction false} TotalIsWork<S>(cfg: Config<S>, journal: seq<Entry>, sched: seq<Choice>)
    requires Exec(cfg, journal, sched).Just? && forall i :: 0 <= i < |sched| ==> sched[i].Step?
    ensures var s := Exec(cfg, journal, sched).value; s.total == s.work.usage && s.work.steps == |sched| && s.cut == {}
  {
    hide Advance, Init, EnvOf;
    if sched == [] {
      InitIsIdle(cfg, journal);
      StartsUncut(cfg, journal);
    } else {
      var n := |sched| - 1;
      TotalIsWork(cfg, journal, sched[..n]);
      StepTotals(cfg, journal, Exec(cfg, journal, sched[..n]).value, sched[n]);
    }
  }

  lemma StepTotals<S>(cfg: Config<S>, journal: seq<Entry>, s: State<S>, c: Choice)
    requires c.Step? && Advance(cfg, journal, s, c).Just? && s.total == s.work.usage
    ensures var t := Advance(cfg, journal, s, c).value;
            t.total == t.work.usage && t.work.steps == s.work.steps + 1 && t.cut == s.cut
  {
    hide Act, StepAt, EnvOf, IndexFor, Effective, Add, Aborts;
    AddIsCommutativeMonoid(s.total, s.total, s.total);
  }

  lemma StartsUncut<S>(cfg: Config<S>, journal: seq<Entry>)
    ensures Init(cfg, journal).cut == {} && Init(cfg, journal).issued == map[]
  {}

  /* ----- the journal across attempts ----- */

  lemma AttemptKeepsIndices<S>(cfg: Config<S>, journal: seq<Entry>, s: State<S>)
    requires OneIndex(journal) && Safe(cfg, journal, s)
    ensures OneIndex(journal + s.log)
  {
    hide Unrepeated, Tracked, AskedOnce, EnvOf, Load;
    var all := journal + s.log;
    var indices := Load(journal).indexByKey;
    ConsistentIsInjective(journal);
    forall i | 0 <= i < |journal| && !journal[i].Meta?
      ensures journal[i].key in indices && indices[journal[i].key] == journal[i].index
    {
      IndexKept(journal, i);
    }
    forall i, j | 0 <= i < |journal| && 0 <= j < |s.log| && !journal[i].Meta? && !s.log[j].Meta?
      ensures journal[i].key == s.log[j].key <==> journal[i].index == s.log[j].index
    {
      assert s.log[j].index == s.issued[s.log[j].key];
      assert indices[journal[i].key] <= HighestIndex(indices);
    }
    LogOneIndex(EnvOf(cfg, journal).recorded.Keys, s.log, s.issued, s.settled + s.cut, indices, s.display);
    OneIndexConcat(journal, s.log);
  }

  lemma LogOneIndex(recorded: set<Key>, log: seq<Entry>, issued: map<Key, nat>, finished: set<Key>,
      indices: map<Key, nat>, display: nat)
    requires Logged(recorded, log, issued, finished) && Indexed(indices, issued, display)
    ensures OneIndex(log)
  {}

  lemma OneIndexConcat(a: seq<Entry>, b: seq<Entry>)
    requires OneIndex(a) && OneIndex(b)
    requires forall i, j :: 0 <= i < |a| && 0 <= j < |b| && !a[i].Meta? && !b[j].Meta? ==>
               (a[i].key == b[j].key <==> a[i].index == b[j].index)
    ensures OneIndex(a + b)
  {
    var all := a + b;
    forall i, j | 0 <= i < |all| && 0 <= j < |all| && !all[i].Meta? && !all[j].Meta?
      ensures all[i].key == all[j].key <==> all[i].index == all[j].index
    {
      if i < |a| && j < |a| { assert all[i] == a[i] && all[j] == a[j]; }
      else if i < |a| { assert all[i] == a[i] && all[j] == b[j - |a|]; }
      else if j < |a| { assert all[i] == b[i - |a|] && all[j] == a[j]; }
      else { assert all[i] == b[i - |a|] && all[j] == b[j - |a|]; }
    }
  }

  lemma AttemptKeepsSuccesses<S>(cfg: Config<S>, journal: seq<Entry>, s: State<S>)
    requires Consistent(journal) && Safe(cfg, journal, s)
    ensures SuccessIsFinal(journal + s.log)
  {
    hide Unrepeated, Tracked, AskedOnce, Indexed, Load;
    var all := journal + s.log;
    forall i, j | 0 <= i < j < |all| && all[i].ResultEntry? && all[j].ResultEntry? && all[i].status.Completed?
      ensures all[i].key != all[j].key
    {
      if i < |journal| <= j {
        ResultKept(journal, i);
        assert all[j] == s.log[j - |journal|];
      } else if |journal| <= i {
        assert all[i] == s.log[i - |journal|] && all[j] == s.log[j - |journal|];
      }
    }
  }

  /**
   One attempt, stopped anywhere, leaves the journal consistent: successes it replayed are never
   journaled again, and every key keeps the index it first got.
   */
  lemma AttemptKeepsJournal<S>(cfg: Config<S>, journal: seq<Entry>, sched: seq<Choice>)
    requires Consistent(journal) && Exec(cfg, journal, sched).Just?
    ensures Consistent(journal + Exec(cfg, journal, sched).value.log)
  {
    hide Exec;
    Reachable(cfg, journal, sched);
    AttemptKeepsIndices(cfg, journal, Exec(cfg, journal, sched).value);
    AttemptKeepsSuccesses(cfg, journal, Exec(cfg, journal, sched).value);
  }

  /** Within an attempt, distinct keys have distinct display indices; a journaled key has its journaled one. */
  lemma IndicesIdentifyKeys<S>(cfg: Config<S>, journal: seq<Entry>, sched: seq<Choice>)
    requires OneIndex(journal) && Exec(cfg, journal, sched).Just?
    ensures var issued := Exec(cfg, journal, sched).value.issued;
            && (forall k, l :: k in issued && l in issued && issued[k] == issued[l] ==> k == l)
            && (forall k :: k in issued && k in Load(journal).indexByKey ==> issued[k] == Load(journal).indexByKey[k])
            && (forall k, l ::
                 k in issued && l in Load(journal).indexByKey && issued[k] == Load(journal).indexByKey[l] ==> k == l)
  {
    hide Exec, Load, Unrepeated, Tracked, AskedOnce, Logged;
    Reachable(cfg, journal, sched);
    ConsistentIsInjective(journal);
    var indices := Load(journal).indexByKey;
    assert forall l :: l in indices ==> indices[l] <= HighestIndex(indices);
  }

  /** A run's life: attempts, each resuming the journal the earlier ones left. */
  datatype Try<!S> = Try(cfg: Config<S>, sched: seq<Choice>)

  ghost function JournalAfter<S>(tries: seq<Try<S>>): Option<seq<Entry>> {
    if tries == [] then Just([])
    else
      var n := |tries| - 1;
      var j := JournalAfter(tries[..n]);
      if j.Nothing? then Nothing
      else
        var s := Exec(tries[n].cfg, j.value, tries[n].sched);
        if s.Nothing? then Nothing else Just(j.value + s.value.log)
  }

  /**
   Over any number of attempts, with any workers and schedules, a key once recorded as completed keeps
   that result, and a journaled key keeps its display index.
   */
  lemma {:induction false} JournalIsStable<S>(tries: seq<Try<S>>, n: nat)
    requires n <= |tries| && JournalAfter(tries).Just?
    ensures JournalAfter(tries[..n]).Just?
    ensures var early, late := JournalAfter(tries[..n]).value, JournalAfter(tries).value;
            && Consistent(late)
            && early <= late
            && (forall k :: k in Recordings(early) ==>
              k in Recordings(late) && Recordings(late)[k] == Recordings(early)[k])
            && (forall k :: k in Load(early).indexByKey ==>
                 k in Load(late).indexByKey && Load(late).indexByKey[k] == Load(early).indexByKey[k])
  {
    hide Exec, Recordings, Load, Consistent;
    JournalGrows(tries, n);
    var early, late := JournalAfter(tries[..n]).value, JournalAfter(tries).value;
    assert late == early + late[|early|..];
    Stable(early, late[|early|..]);
  }

  lemma {:induction false} JournalGrows<S>(tries: seq<Try<S>>, n: nat)
    requires n <= |tries| && JournalAfter(tries).Just?
    ensures JournalAfter(tries[..n]).Just? && JournalAfter(tries[..n]).value <= JournalAfter(tries).value
    ensures Consistent(JournalAfter(tries).value)
  {
    hide Exec, Consistent;
    if tries == [] {
      NoEntries();
    } else {
      var m := |tries| - 1;
      var before := JournalAfter(tries[..m]).value;
      if n <= m {
        assert tries[..m][..n] == tries[..n];
        JournalGrows(tries[..m], n);
      } else {
        assert tries[..n] == tries;
        JournalGrows(tries[..m], m);
      }
      AttemptKeepsJournal(tries[m].cfg, before, tries[m].sched);
    }
  }

  lemma NoEntries()
    ensures Consistent([])
  {}

  /* ----- replay ----- */

  /** The worker would answer every recorded call with what is recorded. */
  ghost predicate Extends(worker: Key -> Outcome, recorded: map<Key, Recorded>) {
    forall k :: k in recorded ==> worker(k) == Returned(Completed, recorded[k].value, recorded[k].usage)
  }

  /** Same result, calls, answers, times, draws and usage; only the number of steps may differ. */
  ghost predicate SameOut(a: Option<Out>, b: Option<Out>) {
    && a.Just? == b.Just?
    && (a.Just? ==> a.value.result == b.value.result && SameWork(a.value.work, b.value.work))
  }

  ghost predicate SameWork(a: Work, b: Work) { a.events == b.events && a.usage == b.usage && a.calls == b.calls }

  /** Two environments that differ only in what is recorded, and agree on every answer. */
  ghost predicate Alike<S>(e: Env<S>, f: Env<S>) {
    && e.prog == f.prog && e.base == f.base && e.seed == f.seed && e.draw == f.draw && e.maxFanout == f.maxFanout
    && forall k :: Effective(e, k) == Effective(f, k)
  }

  lemma MoreAlike(v: Work, w: Work, a: Option<Out>, b: Option<Out>)
    requires SameWork(v, w) && SameOut(a, b)
    ensures SameOut(More(v, a), More(w, b))
  {}

  lemma {:induction false} EvalAlike<S>(e: Env<S>, f: Env<S>, n: nat, b: Branch<S>)
    requires Alike(e, f)
    ensures SameOut(Eval(e, n, b), Eval(f, n, b))
    decreases n, 0, 0
  {
    hide Act, Effective, SameOut, SameWork, More, CallWork, WorkOf, Alike;
    if b.Done? {
      OutIsLikeItself(Eval(e, n, b));
    } else if n == 0 {
      OutIsLikeItself(Nothing);
    } else {
      match b
      case Run(body, ctx) =>
        ActAlike(e, f, body, ctx);
        var m := Act(e, body, ctx);
        EvalAlike(e, f, n - 1, m.branch);
        MoreAlike(WorkOf(e, m.tag), WorkOf(f, m.tag), Eval(e, n - 1, m.branch), Eval(f, n - 1, m.branch));
      case Waiting(_, _, key, phase) =>
        CallAlike(e, f, b);
        EvalAlike(e, f, n - 1, Answered(e, b));
        MoreAlike(CallWork(e, key, phase), CallWork(f, key, phase), Eval(e, n - 1, Answered(e, b)),
          Eval(f, n - 1, Answered(f, b)));
      case Fan(_, _, _, lanes) =>
        EvalLanesAlike(e, f, n - 1, lanes);
        var r, q := EvalLanes(e, n - 1, lanes), EvalLanes(f, n - 1, lanes);
        if r.Just? {
          TagAlike(e, f, Internal);
          JoinAlike(e, f, b, r.value.values);
          var x, y := Eval(e, n - 1, Joined(e, b, r.value.values)), Eval(f, n - 1, Joined(f, b, r.value.values));
          EvalAlike(e, f, n - 1, Joined(e, b, r.value.values));
          MoreAlike(WorkOf(e, Internal), WorkOf(f, Internal), x, y);
          MoreAlike(r.value.work, q.value.work, More(WorkOf(e, Internal), x), More(WorkOf(f, Internal), y));
        } else {
          OutIsLikeItself(Nothing);
        }
    }
  }

  lemma OutIsLikeItself(a: Option<Out>)
    ensures SameOut(a, a)
  {}

  lemma ActAlike<S>(e: Env<S>, f: Env<S>, body: S, ctx: Ctx)
    requires Alike(e, f)
    ensures Act(e, body, ctx) == Act(f, body, ctx) &&
              SameWork(WorkOf(e, Act(e, body, ctx).tag), WorkOf(f, Act(e, body, ctx).tag))
  {
    TagAlike(e, f, Act(e, body, ctx).tag);
  }

  lemma JoinAlike<S>(e: Env<S>, f: Env<S>, b: Branch<S>, values: seq<Value>)
    requires Alike(e, f) && b.Fan?
    ensures Joined(e, b, values) == Joined(f, b, values)
  {}

  lemma TagAlike<S>(e: Env<S>, f: Env<S>, tag: Label)
    requires Alike(e, f)
    ensures WorkOf(e, tag) == WorkOf(f, tag) && SameWork(WorkOf(e, tag), WorkOf(f, tag))
  {}

  lemma CallAlike<S>(e: Env<S>, f: Env<S>, b: Branch<S>)
    requires Alike(e, f) && b.Waiting?
    ensures Answered(e, b) == Answered(f, b) && SameWork(CallWork(e, b.key, b.phase), CallWork(f, b.key, b.phase))
  {
    AddIsCommutativeMonoid(Effective(e, b.key).usage, EMPTY, EMPTY);
  }

  ghost predicate SameLane(a: Option<LaneOut>, b: Option<LaneOut>) {
    a.Just? == b.Just? && (a.Just? ==> a.value.value == b.value.value && SameWork(a.value.work, b.value.work))
  }

  lemma LaneMoreAlike(v: Work, w: Work, a: Option<LaneOut>, b: Option<LaneOut>)
    requires SameWork(v, w) && SameLane(a, b)
    ensures SameLane(LaneMore(v, a), LaneMore(w, b))
  {}

  lemma {:induction false} EvalLaneAlike<S>(e: Env<S>, f: Env<S>, n: nat, lane: Lane<S>)
    requires Alike(e, f)
    ensures SameLane(EvalLane(e, n, lane), EvalLane(f, n, lane))
    decreases n, 1, 0
  {
    hide Act, Effective, SameWork, LaneMore, WorkOf, Alike, Join;
    if lane.Finished? {
      TagAlike(e, f, Internal);
      LaneIsLikeItself(EvalLane(e, n, lane));
    } else if n > 0 {
      TagAlike(e, f, Internal);
      match lane
      case Between(prev, plan) =>
        EvalLaneAlike(e, f, n - 1, Proceed(prev, plan));
        LaneMoreAlike(WorkOf(e, Internal), WorkOf(f, Internal), EvalLane(e, n - 1, Proceed(prev, plan)),
          EvalLane(f, n - 1, Proceed(prev, plan)));
      case Inside(b, plan) =>
        EvalAlike(e, f, n - 1, b);
        var r, q := Eval(e, n - 1, b), Eval(f, n - 1, b);
        if r.Just? {
          var x, y := EvalLane(e, n - 1, Leave(r.value.result, plan)), EvalLane(f, n - 1, Leave(r.value.result, plan));
          EvalLaneAlike(e, f, n - 1, Leave(r.value.result, plan));
          LaneMoreAlike(WorkOf(e, Internal), WorkOf(f, Internal), x, y);
          LaneMoreAlike(r.value.work, q.value.work, LaneMore(WorkOf(e, Internal), x), LaneMore(WorkOf(f, Internal), y));
        }
    }
  }

  lemma LaneIsLikeItself(a: Option<LaneOut>)
    ensures SameLane(a, a)
  {}

  lemma {:induction false} EvalLanesAlike<S>(e: Env<S>, f: Env<S>, n: nat, lanes: seq<Lane<S>>)
    requires Alike(e, f)
    ensures var a, b := EvalLanes(e, n, lanes), EvalLanes(f, n, lanes);
            a.Just? == b.Just? && (a.Just? ==> a.value.values == b.value.values && SameWork(a.value.work, b.value.work))
    decreases n, 2, |lanes|
  {
    hide Act, Effective;
    if lanes != [] {
      EvalLaneAlike(e, f, n, lanes[0]);
      EvalLanesAlike(e, f, n, lanes[1..]);
    }
  }

  /** The uninterrupted run with the same seed and base time: nothing recorded, every call to the oracle. */
  function Uninterrupted<S>(cfg: Config<S>, journal: seq<Entry>, oracle: Key -> Outcome): Env<S> {
    EnvOf(cfg, journal).(recorded := map[], worker := oracle)
  }

  /**
   Replay: a resumed run that completes, under any schedule, has the result, calls, answers, times, draws
   and usage of the uninterrupted sequential run under any oracle that extends the journal and answers
   the other calls as the worker did.
   */
  lemma ReplayIsTransparent<S>(cfg: Config<S>, journal: seq<Entry>, sched: seq<Choice>, oracle: Key -> Outcome)
    returns (n: nat)
    requires Extends(oracle, Recordings(journal)) && forall k :: k !in Recordings(journal) ==>
               oracle(k) == cfg.worker(k)
    requires var s := Exec(cfg, journal, sched); s.Just? && s.value.root.Done?
    ensures var s, alone := Exec(cfg, journal, sched).value, Eval(Uninterrupted(cfg, journal, oracle), n, Root(cfg));
            alone.Just? && alone.value.result == s.root.result && SameWork(alone.value.work, s.work)
  {
    n := EveryScheduleIsSequential(cfg, journal, sched);
    OracleIsAlike(cfg, journal, oracle);
    hide Exec, Eval, EnvOf, Alike;
    EvalAlike(EnvOf(cfg, journal), Uninterrupted(cfg, journal, oracle), n, Root(cfg));
  }

  lemma OracleIsAlike<S>(cfg: Config<S>, journal: seq<Entry>, oracle: Key -> Outcome)
    requires Extends(oracle, Recordings(journal)) && forall k :: k !in Recordings(journal) ==>
               oracle(k) == cfg.worker(k)
    ensures Alike(EnvOf(cfg, journal), Uninterrupted(cfg, journal, oracle))
  {}

  /** The worker runs only for keys with no completed entry; recorded keys answer with what is recorded. */
  lemma WorkerOnlyForUnrecorded<S>(cfg: Config<S>, journal: seq<Entry>, sched: seq<Choice>)
    requires OneIndex(journal) && Exec(cfg, journal, sched).Just?
    ensures var s := Exec(cfg, journal, sched).value;
            && s.started !! Recordings(journal).Keys
            && (forall i :: 0 <= i < |s.log| && !s.log[i].Meta? ==> s.log[i].key !in Recordings(journal))
            && (forall k, r :: Answer(k, r) in s.work.events && k in Recordings(journal) ==>
              r == Val(Recordings(journal)[k].value))
  {
    hide Exec, Recordings;
    Reachable(cfg, journal, sched);
    AnswersAreEffective(cfg, journal, sched);
  }

  lemma {:induction false} AnswersAreEffective<S>(cfg: Config<S>, journal: seq<Entry>, sched: seq<Choice>)
    requires Exec(cfg, journal, sched).Just?
    ensures forall k, r :: Answer(k, r) in Exec(cfg, journal, sched).value.work.events ==>
              r == Effective(EnvOf(cfg, journal), k).Reply()
  {
    hide Advance, EnvOf, Effective, Init;
    if sched == [] {
      InitIsIdle(cfg, journal);
    } else {
      var n := |sched| - 1;
      AnswersAreEffective(cfg, journal, sched[..n]);
      StepAnswers(cfg, journal, Exec(cfg, journal, sched[..n]).value, sched[n]);
    }
  }

  lemma StepAnswers<S>(cfg: Config<S>, journal: seq<Entry>, s: State<S>, c: Choice)
    requires Advance(cfg, journal, s, c).Just?
    ensures forall k, r :: Answer(k, r) in Advance(cfg, journal, s, c).value.work.events ==>
              Answer(k, r) in s.work.events || r == Effective(EnvOf(cfg, journal), k).Reply()
  {
    hide Act, StepAt, EnvOf, IndexFor, Add, Effective, Aborts;
  }
}
