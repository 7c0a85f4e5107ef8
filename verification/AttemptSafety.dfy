/**
 What every reachable state of an attempt satisfies: keys are issued once, the journal stays
 consistent, indices identify keys, and the usage total is the sum of what was billed.
 */
module AttemptSafety {
  import opened Options
  import opened Usage
  import opened Keys
  import opened Engine
  import opened Journal
  import opened Positions
  import opened Attempt

  /** Issued positions are behind the counters of every branch that could have issued them. */
  ghost predicate Unrepeated<S>(s: State<S>) {
    Placed(s.root) && forall k :: k in s.issued && k.Chain? ==> !Owns(s.root, k)
  }

  /** Each issued key is queued, running or settled; only unrecorded ones run, and only those are cut off. */
  ghost predicate Balanced(recorded: set<Key>, pending: multiset<Slot>, issued: set<Key>, started: set<Key>,
      settled: set<Key>, cut: set<Key>) {
    && started + settled <= issued && cut <= started - settled
    && started !! recorded && settled <= started + recorded
    && (forall k :: pending[Slot(k, Queued)] == if k in issued - started - settled then 1 else 0)
    && (forall k :: pending[Slot(k, Running)] == if k in started - settled then 1 else 0)
  }

  /** The tree and the bookkeeping agree on which calls are queued and which are running. */
  ghost predicate Tracked<S>(recorded: map<Key, Recorded>, s: State<S>) {
    Balanced(recorded.Keys, Pending(s.root), s.issued.Keys, s.started, s.settled, s.cut)
  }

  /** Each key has been asked for once, by one call. */
  ghost predicate AskedOnce<S>(s: State<S>) {
    && (forall k, c :: Asked(k, c) in s.work.events ==> k in s.issued && s.work.events[Asked(k, c)] == 1)
    && (forall k, c, d :: Asked(k, c) in s.work.events && Asked(k, d) in s.work.events ==> c == d)
  }

  /** Journaled keys keep their index; new ones get fresh indices past every journaled one. */
  ghost predicate Indexed(indices: map<Key, nat>, issued: map<Key, nat>, display: nat) {
    && HighestIndex(indices) <= display
    && (forall k :: k in issued && k in indices ==> issued[k] == indices[k])
    && (forall k :: k in issued && k !in indices ==> HighestIndex(indices) < issued[k] <= display)
    && (forall k, l :: k in issued && l in issued && issued[k] == issued[l] ==> k == l)
  }

  ghost predicate Injective(indices: map<Key, nat>) {
    forall k, l :: k in indices && l in indices && indices[k] == indices[l] ==> k == l
  }

  /** Entries carry their key's index; no replayed key is journaled again, and no key finishes twice. */
  ghost predicate Logged(recorded: set<Key>, log: seq<Entry>, issued: map<Key, nat>, finished: set<Key>) {
    && (forall i :: 0 <= i < |log| && !log[i].Meta? ==>
         log[i].key in issued && log[i].index == issued[log[i].key] && log[i].key !in recorded)
    && (forall i :: 0 <= i < |log| && log[i].ResultEntry? ==> log[i].key in finished)
    && (forall i, j :: 0 <= i < j < |log| && log[i].ResultEntry? && log[j].ResultEntry? ==> log[i].key != log[j].key)
  }

  /** An issued key was not issued before. */
  lemma IssuedIsFresh<S>(cfg: Config<S>, e: Env<S>, s: State<S>, addr: seq<nat>)
    requires Unrepeated(s) && StepAt(e, s.root, addr).Move?
    requires var tag := StepAt(e, s.root, addr).tag; tag.Issued? && !Aborts(cfg, s, tag)
    ensures StepAt(e, s.root, addr).tag.key !in s.issued
  {
    hide Act, Placed, Owns, StepAt;
    StepNarrows(e, s.root, addr);
  }

  lemma StepUnrepeated<S>(cfg: Config<S>, journal: seq<Entry>, s: State<S>, c: Choice)
    requires Unrepeated(s) && Advance(cfg, journal, s, c).Just?
    ensures Unrepeated(Advance(cfg, journal, s, c).value)
  {
    hide Act, Placed, Owns, StepAt, EnvOf, WorkOf, Join, IndexFor, Effective;
    if c.Step? { StepNarrows(EnvOf(cfg, journal), s.root, c.addr); }
  }

  lemma BalancedIssue(recorded: set<Key>, p: multiset<Slot>, issued: set<Key>, started: set<Key>, settled: set<Key>,
      cut: set<Key>, k: Key)
    requires Balanced(recorded, p, issued, started, settled, cut) && k !in issued
    ensures Balanced(recorded, p + multiset{Slot(k, Queued)}, issued + {k}, started, settled, cut)
  {}

  lemma BalancedStart(recorded: set<Key>, p: multiset<Slot>, issued: set<Key>, started: set<Key>, settled: set<Key>,
      cut: set<Key>, k: Key)
    requires Balanced(recorded, p, issued, started, settled, cut) && Slot(k, Queued) in p && k !in recorded
    ensures Balanced(recorded, p - multiset{Slot(k, Queued)} + multiset{Slot(k, Running)}, issued, started + {k},
              settled, cut)
    ensures k in issued && k !in started + settled
  {
    assert p[Slot(k, Queued)] > 0;
  }

  lemma BalancedSettle(recorded: set<Key>, p: multiset<Slot>, issued: set<Key>, started: set<Key>, settled: set<Key>,
      cut: set<Key>, k: Key, phase: Phase)
    requires Balanced(recorded, p, issued, started, settled, cut) && Slot(k, phase) in p
    requires k !in cut && (phase.Queued? ==> k in recorded)
    ensures Balanced(recorded, p - multiset{Slot(k, phase)}, issued, started, settled + {k}, cut)
    ensures k in issued && k !in settled
    ensures k !in recorded ==> k in started
  {
    assert p[Slot(k, phase)] > 0 && (phase == Queued || phase == Running);
  }

  lemma StepTracked<S>(cfg: Config<S>, journal: seq<Entry>, s: State<S>, c: Choice)
    requires Unrepeated(s) && Tracked(EnvOf(cfg, journal).recorded, s) && Advance(cfg, journal, s, c).Just?
    ensures Tracked(EnvOf(cfg, journal).recorded, Advance(cfg, journal, s, c).value)
  {
    hide Act, Placed, Owns, StepAt, EnvOf, WorkOf, Join, IndexFor, Effective, Pending, Unrepeated, Add, Balanced;
    var e := EnvOf(cfg, journal);
    var t := Advance(cfg, journal, s, c).value;
    match c
    case Cut(k, _) => BalancedCut(e.recorded.Keys, Pending(s.root), s.issued.Keys, s.started, s.settled, s.cut, k);
    case Step(addr) =>
      var m := StepAt(e, s.root, addr);
      StepPending(e, s.root, addr);
      match m.tag {
        case Issued(k, _) =>
          IssuedIsFresh(cfg, e, s, addr);
          BalancedIssue(e.recorded.Keys, Pending(s.root), s.issued.Keys, s.started, s.settled, s.cut, k);
          assert t.issued.Keys == s.issued.Keys + {k};
        case Started(k) => BalancedStart(e.recorded.Keys, Pending(s.root), s.issued.Keys, s.started, s.settled, s.cut,
          k);
        case Settled(k, phase) =>
          NotCut(e.recorded.Keys, Pending(s.root), s.issued.Keys, s.started, s.settled, s.cut, k);
          BalancedSettle(e.recorded.Keys, Pending(s.root), s.issued.Keys, s.started, s.settled, s.cut, k, phase);
        case _ =>
      }
  }

  lemma BalancedCut(recorded: set<Key>, p: multiset<Slot>, issued: set<Key>, started: set<Key>, settled: set<Key>,
      cut: set<Key>, k: Key)
    requires Balanced(recorded, p, issued, started, settled, cut) && k in started - settled - cut
    ensures Balanced(recorded, p, issued, started, settled, cut + {k})
    ensures k in issued && k !in recorded
  {}

  lemma NotCut(recorded: set<Key>, p: multiset<Slot>, issued: set<Key>, started: set<Key>, settled: set<Key>,
      cut: set<Key>, k: Key)
    requires Balanced(recorded, p, issued, started, settled, cut)
    ensures k in recorded ==> k !in cut
  {}

  /* ----- calls, indices and the journal ----- */

  lemma StepAskedOnce<S>(cfg: Config<S>, journal: seq<Entry>, s: State<S>, c: Choice)
    requires Unrepeated(s) && AskedOnce(s) && Advance(cfg, journal, s, c).Just?
    ensures AskedOnce(Advance(cfg, journal, s, c).value)
  {
    hide Act, Placed, Owns, StepAt, EnvOf, IndexFor, Effective, Pending, Unrepeated, Add;
    if c.Step? {
      var e := EnvOf(cfg, journal);
      var tag := StepAt(e, s.root, c.addr).tag;
      var t := Advance(cfg, journal, s, c).value;
      assert t.work.events == s.work.events + WorkOf(e, tag).events;
      if tag.Issued? {
        IssuedIsFresh(cfg, e, s, c.addr);
        assert Asked(tag.key, tag.call) !in s.work.events;
      }
    }
  }

  lemma IndexIssue(indices: map<Key, nat>, issued: map<Key, nat>, display: nat, k: Key)
    requires Injective(indices) && Indexed(indices, issued, display) && k !in issued
    ensures k in indices ==> Indexed(indices, issued[k := indices[k]], display)
    ensures k !in indices ==> Indexed(indices, issued[k := display + 1], display + 1)
  {}

  lemma StepIndexed<S>(cfg: Config<S>, journal: seq<Entry>, s: State<S>, c: Choice)
    requires Injective(Load(journal).indexByKey)
    requires Unrepeated(s) && Indexed(Load(journal).indexByKey, s.issued, s.display) &&
               Advance(cfg, journal, s, c).Just?
    ensures var t := Advance(cfg, journal, s, c).value; Indexed(Load(journal).indexByKey, t.issued, t.display)
  {
    hide Act, Placed, Owns, StepAt, EnvOf, Effective, Pending, Unrepeated, Add, WorkOf, Join, Load, Indexed, Injective;
    if c.Step? {
      var e := EnvOf(cfg, journal);
      var tag := StepAt(e, s.root, c.addr).tag;
      if tag.Issued? {
        IssuedIsFresh(cfg, e, s, c.addr);
        IndexIssue(Load(journal).indexByKey, s.issued, s.display, tag.key);
      }
    }
  }

  lemma LogEntry(recorded: set<Key>, log: seq<Entry>, issued: map<Key, nat>, finished: set<Key>, e: Entry)
    requires Logged(recorded, log, issued, finished)
    requires !e.Meta? && e.key in issued && e.index == issued[e.key] && e.key !in recorded
    ensures e.StartEntry? ==> Logged(recorded, log + [e], issued, finished)
    ensures e.ResultEntry? && e.key !in finished ==> Logged(recorded, log + [e], issued, finished + {e.key})
  {}

  lemma LogGrows(recorded: set<Key>, log: seq<Entry>, issued: map<Key, nat>, finished: set<Key>, k: Key, i: nat)
    requires Logged(recorded, log, issued, finished)
    ensures k !in issued ==> Logged(recorded, log, issued[k := i], finished)
    ensures Logged(recorded, log, issued, finished + {k})
  {}

  lemma StepLogged<S>(cfg: Config<S>, journal: seq<Entry>, s: State<S>, c: Choice)
    requires Unrepeated(s) && Tracked(EnvOf(cfg, journal).recorded, s) && Advance(cfg, journal, s, c).Just?
    requires Logged(EnvOf(cfg, journal).recorded.Keys, s.log, s.issued, s.settled + s.cut)
    ensures var t := Advance(cfg, journal, s, c).value;
            Logged(EnvOf(cfg, journal).recorded.Keys, t.log, t.issued, t.settled + t.cut)
  {
    hide Act, Placed, Owns, StepAt, EnvOf, WorkOf, Join, IndexFor, Effective, Pending, Unrepeated, Add, Balanced,
      Logged;
    var e := EnvOf(cfg, journal);
    var r := e.recorded.Keys;
    var t := Advance(cfg, journal, s, c).value;
    match c
    case Cut(k, usage) =>
      BalancedCut(r, Pending(s.root), s.issued.Keys, s.started, s.settled, s.cut, k);
      LogEntry(r, s.log, s.issued, s.settled + s.cut, ResultEntry(k, s.issued[k], Interrupted, Null, usage));
      assert t.settled + t.cut == (s.settled + s.cut) + {k};
    case Step(addr) =>
      StepPending(e, s.root, addr);
      match StepAt(e, s.root, addr).tag {
        case Issued(k, _) =>
          IssuedIsFresh(cfg, e, s, addr);
          LogGrows(r, s.log, s.issued, s.settled + s.cut, k, IndexFor(journal, s, k));
        case Started(k) =>
          BalancedStart(r, Pending(s.root), s.issued.Keys, s.started, s.settled, s.cut, k);
          LogEntry(r, s.log, s.issued, s.settled + s.cut, StartEntry(k, s.issued[k]));
        case Settled(k, phase) =>
          NotCut(r, Pending(s.root), s.issued.Keys, s.started, s.settled, s.cut, k);
          BalancedSettle(r, Pending(s.root), s.issued.Keys, s.started, s.settled, s.cut, k, phase);
          assert t.settled + t.cut == (s.settled + s.cut) + {k};
          if k in r { LogGrows(r, s.log, s.issued, s.settled + s.cut, k, 0); }
          else { LogEntry(r, s.log, s.issued, s.settled + s.cut, t.log[|s.log|]); }
        case _ =>
      }
  }

  /* ----- every reachable state ----- */

  ghost predicate Safe<S>(cfg: Config<S>, journal: seq<Entry>, s: State<S>) {
    && Unrepeated(s) && Tracked(EnvOf(cfg, journal).recorded, s) && AskedOnce(s)
    && Indexed(Load(journal).indexByKey, s.issued, s.display)
    && Logged(EnvOf(cfg, journal).recorded.Keys, s.log, s.issued, s.settled + s.cut)
  }

  lemma ConsistentIsInjective(journal: seq<Entry>)
    requires OneIndex(journal)
    ensures Injective(Load(journal).indexByKey)
  {
    var indices := Load(journal).indexByKey;
    forall k, l | k in indices && l in indices && indices[k] == indices[l] ensures k == l {
      var i := IndexSource(journal, k);
      var j := IndexSource(journal, l);
    }
  }

  lemma {:induction false} Reachable<S>(cfg: Config<S>, journal: seq<Entry>, sched: seq<Choice>)
    requires OneIndex(journal) && Exec(cfg, journal, sched).Just?
    ensures Safe(cfg, journal, Exec(cfg, journal, sched).value)
  {
    hide Unrepeated, Tracked, AskedOnce, Indexed, Logged, EnvOf, Advance, Init;
    if sched == [] {
      InitIsSafe(cfg, journal);
    } else {
      var n := |sched| - 1;
      Reachable(cfg, journal, sched[..n]);
      var s := Exec(cfg, journal, sched[..n]).value;
      ConsistentIsInjective(journal);
      StepUnrepeated(cfg, journal, s, sched[n]);
      StepTracked(cfg, journal, s, sched[n]);
      StepAskedOnce(cfg, journal, s, sched[n]);
      StepIndexed(cfg, journal, s, sched[n]);
      StepLogged(cfg, journal, s, sched[n]);
    }
  }

  lemma InitIsSafe<S>(cfg: Config<S>, journal: seq<Entry>)
    ensures Safe(cfg, journal, Init(cfg, journal))
  {
    hide EnvOf, Load, Seed, BaseTime;
  }
}
