/**
 Which calls a journal makes final (src/runtime/primitives.ts): exactly those that the worker answered as
 completed. A call that failed, was rejected or was cut off is not, so the next attempt runs it again.
 */
module Recording {
  import opened Options
  import opened Usage
  import opened Keys
  import opened Engine
  import opened Journal
  import opened Positions
  import opened Attempt
  import opened AttemptSafety
  import opened Resume

  /** A call the worker answered, and whether it counts as done. */
  predicate Completes(worker: Key -> Outcome, k: Key) { worker(k).Returned? && worker(k).status.Completed? }

  /** What a result entry says is what happened to its call. */
  ghost predicate Says(worker: Key -> Outcome, settled: set<Key>, cut: set<Key>, e: Entry) {
    e.ResultEntry? ==>
      if e.key in cut then e.status.Interrupted? && e.value.Null?
      else
        && e.key in settled
        && match worker(e.key)
           case Returned(status, value, usage) => e.status == status && e.value == value && e.usage == usage
           case Rejected(_, interrupted, usage) =>
             e.status == (if interrupted then Interrupted else Failed) && e.value.Null? && e.usage == usage
  }

  ghost predicate LogSays<S>(cfg: Config<S>, recorded: set<Key>, s: State<S>) {
    && (forall i :: 0 <= i < |s.log| ==> Says(cfg.worker, s.settled, s.cut, s.log[i]))
    && (forall k :: k in s.settled && k !in recorded ==>
         exists i :: 0 <= i < |s.log| && s.log[i].ResultEntry? && s.log[i].key == k)
  }

  lemma StepSays<S>(cfg: Config<S>, journal: seq<Entry>, s: State<S>, c: Choice)
    requires Tracked(EnvOf(cfg, journal).recorded, s) && LogSays(cfg, EnvOf(cfg, journal).recorded.Keys, s)
    requires Advance(cfg, journal, s, c).Just?
    ensures LogSays(cfg, EnvOf(cfg, journal).recorded.Keys, Advance(cfg, journal, s, c).value)
  {
    hide Act, StepAt, IndexFor, Add, Aborts, WorkOf, Join, Recordings, BaseTime, Seed, Pending;
    var t := Advance(cfg, journal, s, c).value;
    assert s.cut !! s.settled;
    forall k | k in t.settled && k !in EnvOf(cfg, journal).recorded
      ensures exists i :: 0 <= i < |t.log| && t.log[i].ResultEntry? && t.log[i].key == k {
      if k in s.settled {
        var i :| 0 <= i < |s.log| && s.log[i].ResultEntry? && s.log[i].key == k;
        assert t.log[i] == s.log[i];
      } else {
        assert t.log[|s.log|].key == k;
      }
    }
  }

  lemma {:induction false} AlwaysSays<S>(cfg: Config<S>, journal: seq<Entry>, sched: seq<Choice>)
    requires OneIndex(journal) && Exec(cfg, journal, sched).Just?
    ensures LogSays(cfg, EnvOf(cfg, journal).recorded.Keys, Exec(cfg, journal, sched).value)
  {
    hide Advance, Init, LogSays, EnvOf, Unrepeated, Tracked, AskedOnce, Indexed, Logged;
    if sched == [] {
      StartSays(cfg, journal);
    } else {
      var n := |sched| - 1;
      AlwaysSays(cfg, journal, sched[..n]);
      Reachable(cfg, journal, sched[..n]);
      StepSays(cfg, journal, Exec(cfg, journal, sched[..n]).value, sched[n]);
    }
  }

  lemma StartSays<S>(cfg: Config<S>, journal: seq<Entry>)
    ensures LogSays(cfg, EnvOf(cfg, journal).recorded.Keys, Init(cfg, journal))
  {
    hide EnvOf, Load, Seed, BaseTime;
  }

  /** The log has one start of each call that was started, and of no other. */
  ghost predicate StartsOnce(log: seq<Entry>, started: set<Key>) {
    && (forall k :: k in started ==> exists i :: 0 <= i < |log| && log[i].StartEntry? && log[i].key == k)
    && (forall i :: 0 <= i < |log| && log[i].StartEntry? ==> log[i].key in started)
    && (forall i, j :: 0 <= i < j < |log| && log[i].StartEntry? && log[j].StartEntry? ==> log[i].key != log[j].key)
  }

  lemma LogsStart(log: seq<Entry>, started: set<Key>, e: Entry)
    requires StartsOnce(log, started) && (e.StartEntry? ==> e.key !in started)
    ensures StartsOnce(log + [e], if e.StartEntry? then started + {e.key} else started)
  {
    var all := log + [e];
    forall k | k in started || (e.StartEntry? && k == e.key)
      ensures exists i :: 0 <= i < |all| && all[i].StartEntry? && all[i].key == k {
      if k in started {
        var i :| 0 <= i < |log| && log[i].StartEntry? && log[i].key == k;
        assert all[i] == log[i];
      } else {
        assert all[|log|] == e;
      }
    }
  }

  /** A call that is started had not been. */
  lemma FreshStart<S>(e: Env<S>, s: State<S>, addr: seq<nat>)
    requires Tracked(e.recorded, s) && StepAt(e, s.root, addr).Move? && StepAt(e, s.root, addr).tag.Started?
    ensures StepAt(e, s.root, addr).tag.key !in s.started
  {
    hide StepAt, Pending;
    StepPending(e, s.root, addr);
    assert Slot(StepAt(e, s.root, addr).tag.key, Queued) in Pending(s.root);
  }

  lemma StepStartsOnce<S>(cfg: Config<S>, journal: seq<Entry>, s: State<S>, c: Choice)
    requires Tracked(EnvOf(cfg, journal).recorded, s) && StartsOnce(s.log, s.started)
    requires Advance(cfg, journal, s, c).Just?
    ensures var t := Advance(cfg, journal, s, c).value; StartsOnce(t.log, t.started)
  {
    hide Act, StepAt, IndexFor, Add, Aborts, WorkOf, Join, Recordings, BaseTime, Seed, StartsOnce, Tracked;
    var e, t := EnvOf(cfg, journal), Advance(cfg, journal, s, c).value;
    if t.log != s.log {
      if c.Step? && StepAt(e, s.root, c.addr).tag.Started? { FreshStart(e, s, c.addr); }
      LogsStart(s.log, s.started, t.log[|s.log|]);
    }
  }

  lemma {:induction false} AlwaysStartsOnce<S>(cfg: Config<S>, journal: seq<Entry>, sched: seq<Choice>)
    requires OneIndex(journal) && Exec(cfg, journal, sched).Just?
    ensures StartsOnce(Exec(cfg, journal, sched).value.log, Exec(cfg, journal, sched).value.started)
  {
    hide Advance, Init, StartsOnce, EnvOf, Unrepeated, Tracked, AskedOnce, Indexed, Logged;
    if sched == [] {
      NoneStarted(cfg, journal);
    } else {
      var n := |sched| - 1;
      AlwaysStartsOnce(cfg, journal, sched[..n]);
      Reachable(cfg, journal, sched[..n]);
      StepStartsOnce(cfg, journal, Exec(cfg, journal, sched[..n]).value, sched[n]);
    }
  }

  lemma NoneStarted<S>(cfg: Config<S>, journal: seq<Entry>)
    ensures StartsOnce(Init(cfg, journal).log, Init(cfg, journal).started)
  {
    hide EnvOf, Load, Seed, BaseTime;
  }

  predicate StartOf(e: Entry, k: Key) { e.StartEntry? && e.key == k }

  /**
   Each call an attempt starts is journaled as started, once and under the index it was issued with, and no other
   is.
   */
  lemma StartsAreJournaled<S>(cfg: Config<S>, journal: seq<Entry>, sched: seq<Choice>, k: Key)
    requires OneIndex(journal) && Exec(cfg, journal, sched).Just?
    ensures var s := Exec(cfg, journal, sched).value;
            && (k in s.started <==> exists i :: 0 <= i < |s.log| && StartOf(s.log[i], k))
            && (forall i, j :: 0 <= i < j < |s.log| && StartOf(s.log[i], k) ==> !StartOf(s.log[j], k))
            && (forall i :: 0 <= i < |s.log| && StartOf(s.log[i], k) ==>
                 k in s.issued && s.log[i].index == s.issued[k])
  {
    hide Exec, Load, Unrepeated, Tracked, AskedOnce, Indexed, EnvOf;
    AlwaysStartsOnce(cfg, journal, sched);
    Reachable(cfg, journal, sched);
    var s := Exec(cfg, journal, sched).value;
    if k in s.started {
      var i :| 0 <= i < |s.log| && s.log[i].StartEntry? && s.log[i].key == k;
      assert StartOf(s.log[i], k);
    }
  }

  lemma ExecSnoc<S>(cfg: Config<S>, journal: seq<Entry>, sched: seq<Choice>, c: Choice)
    ensures Exec(cfg, journal, sched + [c]) ==
            if Exec(cfg, journal, sched).Nothing? then Nothing
              else Advance(cfg, journal, Exec(cfg, journal, sched).value, c)
  {
    assert (sched + [c])[..|sched|] == sched;
  }

  lemma AdvanceGrows<S>(cfg: Config<S>, journal: seq<Entry>, s: State<S>, c: Choice)
    requires Advance(cfg, journal, s, c).Just?
    ensures var t := Advance(cfg, journal, s, c).value; s.log <= t.log && s.cut <= t.cut
  {
    hide Act, StepAt, IndexFor, Add, Aborts, WorkOf, Join, EnvOf;
  }

  /** Ctrl-C can reach every running call; its entry has what it had billed, and it never answers after that. */
  lemma {:induction false} CutNeverAnswers<S>(cfg: Config<S>, journal: seq<Entry>, sched: seq<Choice>, k: Key,
      billed: Usage, more: seq<Choice>)
    requires OneIndex(journal) && Exec(cfg, journal, sched).Just?
    requires var s := Exec(cfg, journal, sched).value; k in s.started && k !in s.settled && k !in s.cut
    ensures Exec(cfg, journal, sched + [Cut(k, billed)]).Just?
    ensures Exec(cfg, journal, sched + [Cut(k, billed)] + more).Just? ==>
              var s, t := Exec(cfg, journal, sched).value, Exec(cfg, journal, sched + [Cut(k, billed)] + more).value;
              && k in t.cut && k !in t.settled && s.log < t.log && t.log[|s.log|].ResultEntry?
              && t.log[|s.log|] == ResultEntry(k, t.log[|s.log|].index, Interrupted, Null, billed)
    decreases |more|
  {
    hide Exec, EnvOf, Unrepeated, Tracked, AskedOnce, Indexed, Logged;
    var cut := sched + [Cut(k, billed)];
    ExecSnoc(cfg, journal, sched, Cut(k, billed));
    if more == [] {
      assert cut + more == cut;
    } else {
      var n := |more| - 1;
      assert cut + more == cut + more[..n] + [more[n]];
      ExecSnoc(cfg, journal, cut + more[..n], more[n]);
      CutNeverAnswers(cfg, journal, sched, k, billed, more[..n]);
      hide Advance;
      if Exec(cfg, journal, cut + more).Just? {
        AdvanceGrows(cfg, journal, Exec(cfg, journal, cut + more[..n]).value, more[n]);
      }
    }
    if Exec(cfg, journal, cut + more).Just? {
      Reachable(cfg, journal, cut + more);
      CutIsUnsettled(cfg, journal, Exec(cfg, journal, cut + more).value);
    }
  }

  /**
   Every result that an attempt appends says what happened to its call: the worker's status, answer and usage; failed,
   or interrupted, with the usage billed until then, if the worker threw; interrupted if the call was cut off.
   */
  lemma EntriesSayWhatHappened<S>(cfg: Config<S>, journal: seq<Entry>, sched: seq<Choice>, i: nat)
    requires OneIndex(journal) && Exec(cfg, journal, sched).Just?
    requires i < |Exec(cfg, journal, sched).value.log| && Exec(cfg, journal, sched).value.log[i].ResultEntry?
    ensures var s := Exec(cfg, journal, sched).value;
            var e := s.log[i];
            if e.key in s.settled then
              match cfg.worker(e.key)
              case Returned(status, value, usage) => e == ResultEntry(e.key, e.index, status, value, usage)
              case Rejected(_, interrupted, usage) =>
                e == ResultEntry(e.key, e.index, if interrupted then Interrupted else Failed, Null, usage)
            else e.key in s.cut && e.status.Interrupted? && e.value.Null?
  {
    hide Exec, Load, Unrepeated, Tracked, AskedOnce, Indexed;
    AlwaysSays(cfg, journal, sched);
    Reachable(cfg, journal, sched);
    CutIsUnsettled(cfg, journal, Exec(cfg, journal, sched).value);
  }

  /**
   Stopped anywhere, an attempt has made a call final that was not before exactly when it settled there and the
   worker answered it as completed; and then the journal has that answer and its usage.
   */
  lemma RecordedExactly<S>(cfg: Config<S>, journal: seq<Entry>, sched: seq<Choice>, k: Key)
    requires OneIndex(journal) && Exec(cfg, journal, sched).Just? && k !in Recordings(journal)
    ensures var s := Exec(cfg, journal, sched).value;
            var now := Recordings(journal + s.log);
            && (k in now <==> k in s.settled && cfg.worker(k).Returned? && cfg.worker(k).status.Completed?)
            && (k in now ==> cfg.worker(k) == Returned(Completed, now[k].value, now[k].usage))
  {
    hide Exec, Load, Unrepeated, Tracked, AskedOnce, Indexed;
    AlwaysSays(cfg, journal, sched);
    Reachable(cfg, journal, sched);
    var s := Exec(cfg, journal, sched).value;
    CutIsUnsettled(cfg, journal, s);
    var all := journal + s.log;
    if k in Recordings(all) {
      var i := ResultSource(all, k);
      if i < |journal| {
        assert all[i] == journal[i];
        assert forall j | i < j < |journal| :: journal[j] == all[j];
        ResultKept(journal, i);
        assert false;
      }
      assert all[i] == s.log[i - |journal|];
    }
    if k in s.settled && Completes(cfg.worker, k) {
      var i :| 0 <= i < |s.log| && s.log[i].ResultEntry? && s.log[i].key == k;
      assert all[|journal| + i] == s.log[i];
      forall j | |journal| + i < j < |all| && all[j].ResultEntry? ensures all[j].key != k {
        assert all[j] == s.log[j - |journal|];
      }
      ResultKept(all, |journal| + i);
    }
  }

  lemma CutIsUnsettled<S>(cfg: Config<S>, journal: seq<Entry>, s: State<S>)
    requires Safe(cfg, journal, s)
    ensures s.cut !! s.settled && forall k :: k in s.settled && k !in EnvOf(cfg, journal).recorded ==> k in s.started
    ensures EnvOf(cfg, journal).recorded == Recordings(journal)
  {
    hide Unrepeated, AskedOnce, Indexed, Logged, Pending, Load;
  }

  /** Attempt `i` of a run made the call final. */
  ghost predicate MadeFinal<S>(tries: seq<Try<S>>, i: nat, k: Key)
    requires i < |tries| && JournalAfter(tries[..i]).Just?
  {
    var s := Exec(tries[i].cfg, JournalAfter(tries[..i]).value, tries[i].sched);
    && s.Just? && k in s.value.settled && k !in Recordings(JournalAfter(tries[..i]).value)
    && tries[i].cfg.worker(k).Returned? && tries[i].cfg.worker(k).status.Completed?
  }

  lemma {:induction false} JournalsBefore<S>(tries: seq<Try<S>>, n: nat)
    requires n <= |tries| && JournalAfter(tries).Just?
    ensures JournalAfter(tries[..n]).Just? && Consistent(JournalAfter(tries[..n]).value)
  {
    JournalGrows(tries, n);
    JournalGrows(tries[..n], n);
  }

  /**
   Over any number of attempts, with any workers and schedules, the calls that are final are exactly those that
   some attempt settled, before they were, with an answer its worker gave as completed.
   */
  lemma {:induction false} FinalExactly<S>(tries: seq<Try<S>>, k: Key)
    requires JournalAfter(tries).Just?
    ensures forall i :: 0 <= i < |tries| ==> JournalAfter(tries[..i]).Just?
    ensures k in Recordings(JournalAfter(tries).value) <==> exists i :: 0 <= i < |tries| && MadeFinal(tries, i, k)
  {
    hide Exec, Recordings, Load, Consistent, MadeFinal;
    forall i | 0 <= i < |tries| ensures JournalAfter(tries[..i]).Just? { JournalsBefore(tries, i); }
    if tries == [] {
      NothingRecorded();
    } else {
      var n := |tries| - 1;
      var j := JournalAfter(tries[..n]).value;
      JournalsBefore(tries, n);
      FinalExactly(tries[..n], k);
      forall i | 0 <= i < n ensures MadeFinal(tries, i, k) <==> MadeFinal(tries[..n], i, k) {
        MadeFinalEarlier(tries, n, i, k);
      }
      LastMadeFinal(tries, k);
    }
  }

  lemma NothingRecorded()
    ensures Recordings([]) == map[]
  {}

  lemma MadeFinalEarlier<S>(tries: seq<Try<S>>, n: nat, i: nat, k: Key)
    requires i < n <= |tries| && JournalAfter(tries[..i]).Just?
    ensures tries[..n][..i] == tries[..i] && (MadeFinal(tries, i, k) <==> MadeFinal(tries[..n], i, k))
  {
    assert tries[..n][..i] == tries[..i];
  }

  lemma LastMadeFinal<S>(tries: seq<Try<S>>, k: Key)
    requires tries != [] && JournalAfter(tries).Just?
    requires var n := |tries| - 1; JournalAfter(tries[..n]).Just? && Consistent(JournalAfter(tries[..n]).value)
    ensures var n := |tries| - 1;
            k in Recordings(JournalAfter(tries).value) <==>
              k in Recordings(JournalAfter(tries[..n]).value) || MadeFinal(tries, n, k)
  {
    hide Exec, Recordings, Load;
    var n := |tries| - 1;
    var j := JournalAfter(tries[..n]).value;
    JournalIsStable(tries, n);
    if k !in Recordings(j) { RecordedExactly(tries[n].cfg, j, tries[n].sched, k); }
  }

  /**
   A call that no attempt made final runs again: if a further attempt settles it, its worker was started on it,
   and what its worker gives is what the body gets.
   */
  lemma FailuresRunAgain<S>(cfg: Config<S>, journal: seq<Entry>, sched: seq<Choice>, k: Key)
    requires OneIndex(journal) && Exec(cfg, journal, sched).Just?
    requires k in Exec(cfg, journal, sched).value.settled && k !in Recordings(journal)
    ensures var s := Exec(cfg, journal, sched).value;
            && k in s.started
            && forall r :: Answer(k, r) in s.work.events ==>
                 match cfg.worker(k)
                 case Returned(_, v, _) => r == Val(v)
                 case Rejected(error, _, _) => r == Err(error)
  {
    hide Exec, Recordings;
    Reachable(cfg, journal, sched);
    CutIsUnsettled(cfg, journal, Exec(cfg, journal, sched).value);
    AnswersAreEffective(cfg, journal, sched);
  }
}
