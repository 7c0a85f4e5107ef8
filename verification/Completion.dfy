/**
 When runs complete. If the sequential evaluation ends, within the call cap and without repeating an
 explicit key, then so does every schedule, in exactly as many steps; and interrupting and resuming a
 run, any number of times, does not change what it returns.
 */
module Completion {
  import opened Options
  import opened Usage
  import opened Keys
  import opened Engine
  import opened Journal
  import opened Attempt
  import opened AttemptSafety
  import opened Resume
  import Confluence

  /* ----- some branch can always move ----- */

  lemma {:induction false} Enabled<S>(e: Env<S>, n: nat, b: Branch<S>) returns (addr: seq<nat>)
    requires Eval(e, n, b).Just? && !b.Done?
    ensures StepAt(e, b, addr).Move?
    decreases b
  {
    hide Act, Effective, WorkOf, Join;
    addr := [];
    if b.Fan? && !AllFinished(b.lanes) {
      var i :| 0 <= i < |b.lanes| && !b.lanes[i].Finished?;
      EachLaneEnds(e, n - 1, b.lanes, i);
      var rest := LaneEnabled(e, n - 1, b.lanes[i]);
      addr := [i] + rest;
      assert addr[1..] == rest;
    }
  }

  lemma {:induction false} LaneEnabled<S>(e: Env<S>, n: nat, lane: Lane<S>) returns (addr: seq<nat>)
    requires EvalLane(e, n, lane).Just? && !lane.Finished?
    ensures LaneStepAt(e, lane, addr).LaneMove?
    decreases lane
  {
    hide Act, Effective, WorkOf, Join;
    addr := [];
    if lane.Inside? && !lane.branch.Done? { addr := Enabled(e, n - 1, lane.branch); }
  }

  lemma {:induction false} EachLaneEnds<S>(e: Env<S>, n: nat, lanes: seq<Lane<S>>, i: nat)
    requires EvalLanes(e, n, lanes).Just? && i < |lanes|
    ensures EvalLane(e, n, lanes[i]).Just?
    decreases |lanes|
  {
    if i > 0 { EachLaneEnds(e, n, lanes[1..], i - 1); }
  }

  /* ----- every schedule completes ----- */

  /** No explicit key is asked for twice. */
  ghost predicate NamesDiffer(events: multiset<Event>) {
    forall k: Key, c: Call, d: Call :: k.Explicit? && Asked(k, c) in events && Asked(k, d) in events ==>
      c == d && events[Asked(k, c)] == 1
  }

  ghost predicate Admissible<S>(cfg: Config<S>, w: Work) { w.calls <= cfg.maxAgents && NamesDiffer(w.events) }

  ghost predicate AllSteps(sched: seq<Choice>) { forall i :: 0 <= i < |sched| ==> sched[i].Step? }

  ghost predicate IssuedWasAsked<S>(cfg: Config<S>, s: State<S>) {
    && s.work.calls <= cfg.maxAgents
    && forall k :: k in s.issued ==> exists c :: Asked(k, c) in s.work.events
  }

  lemma {:induction false} AskedForAll<S>(cfg: Config<S>, journal: seq<Entry>, sched: seq<Choice>)
    requires Exec(cfg, journal, sched).Just?
    ensures IssuedWasAsked(cfg, Exec(cfg, journal, sched).value)
  {
    hide Advance, Init, IssuedWasAsked;
    if sched == [] {
      InitAsked(cfg, journal);
    } else {
      var n := |sched| - 1;
      AskedForAll(cfg, journal, sched[..n]);
      StepAsked(cfg, journal, Exec(cfg, journal, sched[..n]).value, sched[n]);
    }
  }

  lemma InitAsked<S>(cfg: Config<S>, journal: seq<Entry>)
    ensures IssuedWasAsked(cfg, Init(cfg, journal))
  {
    InitIsIdle(cfg, journal);
    StartsUncut(cfg, journal);
  }

  lemma StepAsked<S>(cfg: Config<S>, journal: seq<Entry>, s: State<S>, c: Choice)
    requires Advance(cfg, journal, s, c).Just? && IssuedWasAsked(cfg, s)
    ensures IssuedWasAsked(cfg, Advance(cfg, journal, s, c).value)
  {
    hide Act, StepAt, EnvOf, IndexFor, Add, Effective;
    var t := Advance(cfg, journal, s, c).value;
    forall k | k in t.issued ensures exists d :: Asked(k, d) in t.work.events {
      if k in s.issued {
        var d :| Asked(k, d) in s.work.events;
        assert Asked(k, d) in t.work.events;
      } else {
        var tag := StepAt(EnvOf(cfg, journal), s.root, c.addr).tag;
        assert Asked(k, tag.call) in t.work.events;
      }
    }
  }

  /** A step that does not abort is one the bookkeeping accepts. */
  lemma StepAccepted<S>(cfg: Config<S>, journal: seq<Entry>, s: State<S>, addr: seq<nat>, out: Work, rest: Work)
    requires Admissible(cfg, out) && IssuedWasAsked(cfg, s) && s.cut == {}
    requires var m := StepAt(EnvOf(cfg, journal), s.root, addr);
             m.Move? && out == Join(s.work, Join(WorkOf(EnvOf(cfg, journal), m.tag), rest))
    ensures Advance(cfg, journal, s, Step(addr)).Just?
  {
    hide Act, StepAt, EnvOf, IndexFor, Add, Effective, Record;
    var tag := StepAt(EnvOf(cfg, journal), s.root, addr).tag;
    if tag.Issued? && tag.key.Explicit? { NewName(out.events, s.work.events, rest.events, tag.key, tag.call); }
  }

  lemma NewName(all: multiset<Event>, before: multiset<Event>, rest: multiset<Event>, k: Key, c: Call)
    requires NamesDiffer(all) && k.Explicit? && all == before + (multiset{Asked(k, c)} + rest)
    ensures forall d :: Asked(k, d) !in before
  {
    forall d ensures Asked(k, d) !in before {
      assert Asked(k, c) in all && (Asked(k, d) in before ==> Asked(k, d) in all);
    }
  }

  /**
   Every schedule completes: if the sequential evaluation ends in `out`, within the cap and without
   repeated names, then any run of steps can be extended until the root body ends, takes exactly
   `out.work.steps` steps, and ends in `out`.
   */
  lemma EveryScheduleCompletes<S>(cfg: Config<S>, journal: seq<Entry>, sched: seq<Choice>, n: nat)
    returns (addr: seq<nat>)
    requires var out := Eval(EnvOf(cfg, journal), n, Root(cfg)); out.Just? && Admissible(cfg, out.value.work)
    requires Exec(cfg, journal, sched).Just? && AllSteps(sched)
    ensures var out, s := Eval(EnvOf(cfg, journal), n, Root(cfg)).value, Exec(cfg, journal, sched).value;
            && |sched| <= out.work.steps
            && (s.root.Done? ==> Out(s.root.result, s.work) == out && |sched| == out.work.steps)
            && (!s.root.Done? ==> |sched| < out.work.steps && Advance(cfg, journal, s, Step(addr)).Just?)
  {
    hide Exec, Eval, EnvOf, Advance, StepAt, Admissible, Join, WorkOf, IssuedWasAsked;
    var e, s := EnvOf(cfg, journal), Exec(cfg, journal, sched).value;
    RemainingForward(cfg, journal, sched, n);
    TotalIsWork(cfg, journal, sched);
    AskedForAll(cfg, journal, sched);
    addr := [];
    if s.root.Done? {
      DoneIsIdle(e, n, s.root);
      JoinLaws(s.work, NO_WORK, NO_WORK);
    } else {
      addr := Enabled(e, n, s.root);
      Confluence.Forward(e, n, s.root, addr);
      var m := StepAt(e, s.root, addr);
      var rest := Eval(e, n, m.branch).value.work;
      StepTakesOne(e, m.tag, s.work, rest);
      StepAccepted(cfg, journal, s, addr, Eval(e, n, Root(cfg)).value.work, rest);
    }
  }

  lemma DoneIsIdle<S>(e: Env<S>, n: nat, b: Branch<S>)
    requires b.Done?
    ensures Eval(e, n, b) == Just(Out(b.result, NO_WORK))
  {}

  lemma StepTakesOne<S>(e: Env<S>, tag: Label, before: Work, rest: Work)
    ensures Join(before, Join(WorkOf(e, tag), rest)).steps > before.steps
  {}

  /** Conversely, a run that completes without interruption was within the cap and repeated no name. */
  lemma CompletedIsAdmissible<S>(cfg: Config<S>, journal: seq<Entry>, sched: seq<Choice>)
    requires OneIndex(journal) && Exec(cfg, journal, sched).Just?
    ensures Admissible(cfg, Exec(cfg, journal, sched).value.work)
  {
    hide Exec;
    Reachable(cfg, journal, sched);
    AskedForAll(cfg, journal, sched);
  }

  /* ----- crashes do not show ----- */

  /** Same workflow and limits; each attempt has its own worker, and reads its own clock and entropy. */
  ghost predicate SameRun<S>(cfg: Config<S>, first: Config<S>) {
    cfg == first.(worker := cfg.worker, entropy := cfg.entropy, clock := cfg.clock)
  }

  lemma StartsWithMeta<S>(cfg: Config<S>, journal: seq<Entry>)
    ensures Init(cfg, journal).log == Opening(cfg, journal)
  {}

  lemma StepLogsKeys<S>(cfg: Config<S>, journal: seq<Entry>, s: State<S>, c: Choice)
    requires Advance(cfg, journal, s, c).Just?
    ensures var t := Advance(cfg, journal, s, c).value;
            t.log == s.log || (|t.log| == |s.log| + 1 && t.log[..|s.log|] == s.log && !t.log[|s.log|].Meta?)
  {
    hide Act, StepAt, IndexFor, Add, Aborts, WorkOf, Join, Recordings, BaseTime, Seed, Effective;
  }

  /** The log an attempt appends: its opening, then entries of keys. */
  lemma {:induction false} LogShape<S>(cfg: Config<S>, journal: seq<Entry>, sched: seq<Choice>)
    requires Exec(cfg, journal, sched).Just?
    ensures var log, open := Exec(cfg, journal, sched).value.log, Opening(cfg, journal);
            open <= log && forall i :: |open| <= i < |log| ==> !log[i].Meta?
  {
    hide Advance, Init, Opening;
    if sched == [] {
      StartsWithMeta(cfg, journal);
    } else {
      var n := |sched| - 1;
      LogShape(cfg, journal, sched[..n]);
      StepLogsKeys(cfg, journal, Exec(cfg, journal, sched[..n]).value, sched[n]);
    }
  }

  lemma {:induction false} NoMeta(es: seq<Entry>, more: seq<Entry>)
    requires forall i :: 0 <= i < |more| ==> !more[i].Meta?
    ensures Load(es + more).meta == Load(es).meta
  {
    if more == [] {
      assert es + more == es;
    } else {
      var n := |more| - 1;
      assert (es + more)[..|es + more| - 1] == es + more[..n];
      NoMeta(es, more[..n]);
    }
  }

  lemma {:induction false} MetaIsMeta(es: seq<Entry>)
    ensures var m := Load(es).meta; m.Just? ==> m.value.Meta?
  {
    if es != [] { MetaIsMeta(es[..|es| - 1]); }
  }

  /** The first attempt journals its seed and base time, once and first of all; later ones use them. */
  lemma SeedIsKept<S>(cfg: Config<S>, next: Config<S>, journal: seq<Entry>, sched: seq<Choice>)
    requires Exec(cfg, journal, sched).Just?
    ensures var j := journal + Exec(cfg, journal, sched).value.log;
            && Load(j).meta.Just?
            && Seed(next, j) == Seed(cfg, journal) && BaseTime(next, j) == BaseTime(cfg, journal)
    ensures var log := Exec(cfg, journal, sched).value.log;
            && (Load(journal).meta.Nothing? ==> log != [] && log[0] == Meta(cfg.entropy, cfg.clock))
            && forall i :: 0 <= i < |log| && log[i].Meta? ==> i == 0 && Load(journal).meta.Nothing?
  {
    hide Exec;
    LogShape(cfg, journal, sched);
    var log, open := Exec(cfg, journal, sched).value.log, Opening(cfg, journal);
    assert journal + log == (journal + open) + log[|open|..];
    NoMeta(journal + open, log[|open|..]);
    MetaIsMeta(journal);
    if open == [] {
      assert journal + open == journal;
    } else {
      assert (journal + open)[..|journal|] == journal;
    }
  }

  /** After some attempts of one run, any further attempt reads the seed and clock of the first. */
  lemma {:induction false} JournalFits<S>(tries: seq<Try<S>>, next: Config<S>)
    requires JournalAfter(tries).Just?
    ensures var j := JournalAfter(tries).value;
            var first := if tries == [] then next else tries[0].cfg;
            Seed(next, j) == first.entropy && BaseTime(next, j) == first.clock
  {
    hide Exec, Load, Seed, BaseTime;
    if tries == [] {
      FreshJournal(next);
    } else {
      var n := |tries| - 1;
      var j := JournalAfter(tries[..n]).value;
      JournalFits(tries[..n], tries[n].cfg);
      assert n > 0 ==> tries[..n][0] == tries[0];
      SeedIsKept(tries[n].cfg, next, j, tries[n].sched);
    }
  }

  lemma FreshJournal<S>(cfg: Config<S>)
    ensures Seed(cfg, []) == cfg.entropy && BaseTime(cfg, []) == cfg.clock
  {}

  /** What an uninterrupted run would have been told: a call's recorded success, or else the last attempt's answer. */
  function FinalAnswers(recorded: map<Key, Recorded>, worker: Key -> Outcome): Key -> Outcome {
    k => if k in recorded then Returned(Completed, recorded[k].value, recorded[k].usage) else worker(k)
  }

  /**
   Crash transparency: a run interrupted any number of times, anywhere, and resumed each time from its
   journal, returns what one uninterrupted sequential run with the first attempt's seed and clock returns
   when every call gets its final answer. Workers may differ from attempt to attempt: a call that failed in
   one may succeed in the next.
   */
  lemma CrashesDoNotShow<S>(tries: seq<Try<S>>, last: Try<S>) returns (n: nat)
    requires JournalAfter(tries).Just?
    requires tries != [] ==> SameRun(last.cfg, tries[0].cfg)
    requires var s := Exec(last.cfg, JournalAfter(tries).value, last.sched); s.Just? && s.value.root.Done?
    ensures var j := JournalAfter(tries).value;
            var first := if tries == [] then last.cfg else tries[0].cfg;
            var s := Exec(last.cfg, j, last.sched).value;
            var alone := Eval(EnvOf(first.(worker := FinalAnswers(Recordings(j), last.cfg.worker)), []), n,
              Root(first));
            alone.Just? && alone.value.result == s.root.result && SameWork(alone.value.work, s.work)
  {
    hide Exec, Recordings, Seed, BaseTime, Eval;
    var j := JournalAfter(tries).value;
    var oracle := FinalAnswers(Recordings(j), last.cfg.worker);
    JournalFits(tries, last.cfg);
    n := ReplayIsTransparent(last.cfg, j, last.sched, oracle);
    SameEnv(last.cfg, if tries == [] then last.cfg else tries[0].cfg, j, oracle);
  }

  lemma SameEnv<S>(cfg: Config<S>, first: Config<S>, j: seq<Entry>, oracle: Key -> Outcome)
    requires SameRun(cfg, first) && Seed(cfg, j) == first.entropy && BaseTime(cfg, j) == first.clock
    ensures Uninterrupted(cfg, j, oracle) == EnvOf(first.(worker := oracle), []) && Root(cfg) == Root(first)
  {
    assert Recordings([]) == map[];
    FreshJournal(first.(worker := oracle));
  }
}
