/**
 When published work can disappear. The publish compares the branch with the tip recorded at prepare,
 but nothing makes the published head descend from that tip: an agent starts from the run's HEAD. A
 resumed agent reuses the branch of its failed predecessor, and two agents may name one branch in
 turn; the second publish then drops the first agent's commits.
 */
module RemoteLoss {
  import opened Options
  import opened Commits
  import opened Remote
  import opened RemoteSafety

  /**
   A publish keeps every commit of its branch exactly when the branch is new or its tip is an ancestor of the
   head.
   */
  lemma PublishKeepsBranch(s: State, name: string)
    requires Next(s, At(name, OfRun(Publish))).Just?
    ensures var a, t := s.attempts[name], Next(s, At(name, OfRun(Publish))).value;
            && a.side.Fetched? && Tip(t, a.target) == Just(a.side.head)
            && (Reachable(Tip(s, a.target)) <= Reachable(Tip(t, a.target)) <==>
              FastForward(Tip(s, a.target), a.side.head))
  {
    hide Act;
    var a := s.attempts[name];
    ActTarget(a, Tip(s, a.target), a.target in s.checkedOut, OfRun(Publish));
    UpdateKeepsHistory(Tip(s, a.target), a.side.head);
    JustReaches(a.side.head);
  }

  /**
   A sweep of an attempt whose worktree is gone keeps an earlier salvage exactly when the internal branch
   contains it.
   */
  lemma SalvageKeepsSalvage(a: Attempt)
    requires a.helper == Sweeping(true) && a.dir.Nothing? && NeedsSalvage(a)
    ensures var b := HelperAct(a, SweepSalvages).value;
            Reachable(a.salvage) <= Reachable(b.salvage) <==> FastForward(a.salvage, a.branch.value)
  {
    UpdateKeepsHistory(a.salvage, a.branch.value);
    JustReaches(a.branch.value);
  }

  /* ----- several steps of one attempt ----- */

  function With(s: State, name: string, a: Attempt): State { s.(attempts := s.attempts[name := a]) }

  /** Several steps of one attempt while nothing else moves. */
  function Play(a: Attempt, tip: Option<Commit>, moves: seq<Move>): Option<Attempt>
    decreases |moves|
  {
    if moves == [] then Just(a)
    else
      var b := Act(a, tip, false, moves[0]);
      if b.Nothing? then Nothing else Play(b.value, tip, moves[1..])
  }

  lemma PlayOne(a: Attempt, tip: Option<Commit>, m: Move, rest: seq<Move>, b: Attempt)
    requires Act(a, tip, false, m) == Just(b)
    ensures Play(a, tip, [m] + rest) == Play(b, tip, rest)
  {
    assert ([m] + rest)[1..] == rest;
  }

  lemma Snoc(head: Commit, steps: seq<Step>, x: Step)
    requires Exec(head, steps).Just?
    ensures Exec(head, steps + [x]) == Next(Exec(head, steps).value, x)
  {
    assert (steps + [x])[..|steps|] == steps;
  }

  lemma {:induction false} PlayIsExec(head: Commit, steps: seq<Step>, s: State, name: string, a: Attempt,
      moves: seq<Move>, b: Attempt) returns (more: seq<Step>)
    requires Exec(head, steps) == Just(With(s, name, a)) && a.target !in s.checkedOut
    requires Play(a, Tip(s, a.target), moves) == Just(b) && OfRun(Publish) !in moves
    ensures Exec(head, more) == Just(With(s, name, b))
    decreases |moves|
  {
    hide Act;
    more := steps;
    if moves != [] {
      var c := Act(a, Tip(s, a.target), false, moves[0]).value;
      ActTarget(a, Tip(s, a.target), false, moves[0]);
      assert moves[0] in moves;
      Snoc(head, steps, At(name, moves[0]));
      assert s.attempts[name := a][name := c] == s.attempts[name := c];
      more := PlayIsExec(head, steps + [At(name, moves[0])], s, name, c, moves[1..], b);
    }
  }

  /* ----- one undisturbed agent, start to end ----- */

  const TURN: seq<Move> := [OnMachine(AddWorktree)] + ([OfRun(PrepareReplied)] + [OfRun(StartRun)])

  const COLLECT: seq<Move> :=
    [OfRun(TurnsEnd(true))]
      + ([OnMachine(CollectBegins)]
      + ([OnMachine(CollectSnapshots(false))] + ([OnMachine(CollectEnds(true))] + [OfRun(Fetch)])))

  const CLEAN: seq<Move> :=
    [OfRun(DropIncoming)] + ([OfRun(JournalSuccess)]
      + ([OfRun(CleanupBegins)] + ([OnMachine(RemoveWorktree)] + [OnMachine(RemoveRefs)])))

  function Started(base: Commit, target: string, tip: Option<Commit>): Attempt {
    New(base, target, tip).(dir := Just(Checkout(base, Nothing)), branch := Just(base), helper := Free, side := Working,
      running := true)
  }

  function Left(base: Commit, target: string, tip: Option<Commit>, w: Checkout): Attempt {
    Started(base, target, tip).(dir := Just(w), last := w)
  }

  /** The agent's work fetched, and ready to publish. */
  function Ready(base: Commit, target: string, tip: Option<Commit>, w: Checkout): Attempt {
    var c := Just(Sealed(w));
    Left(base, target, tip, w).(running := false, dir := Just(Checkout(Sealed(w), Nothing)), out := c,
      side := Fetched(true, Sealed(w)), incoming := c)
  }

  /** The attempt after it was published, journaled and cleaned up. */
  function Done(base: Commit, target: string, tip: Option<Commit>, w: Checkout): Attempt {
    Ready(base, target, tip, w).(dir := Nothing, branch := Nothing, out := Nothing, baseFile := false,
      incoming := Nothing,
      side := Collected(false, Just(Sealed(w))), verdict := Succeeded(Just(Sealed(w))),
        swap := Just(Swap(tip, Sealed(w))))
  }

  lemma TurnPlays(base: Commit, target: string, tip: Option<Commit>)
    ensures Play(New(base, target, tip), tip, TURN) == Just(Started(base, target, tip)) && OfRun(Publish) !in TURN
  {
    hide Play;
    var a0 := New(base, target, tip);
    var a1 := a0.(dir := Just(Checkout(base, Nothing)), branch := Just(base), helper := Free);
    var a2 := a1.(side := Working);
    PlayOne(a0, tip, OnMachine(AddWorktree), [OfRun(PrepareReplied)] + [OfRun(StartRun)], a1);
    PlayOne(a1, tip, OfRun(PrepareReplied), [OfRun(StartRun)], a2);
    PlayLast(a2, tip, OfRun(StartRun), Started(base, target, tip));
  }

  lemma PlayLast(a: Attempt, tip: Option<Commit>, m: Move, b: Attempt)
    requires Act(a, tip, false, m) == Just(b)
    ensures Play(a, tip, [m]) == Just(b)
  {
    assert [m][1..] == [];
  }

  lemma CollectPlays(base: Commit, target: string, tip: Option<Commit>, now: Option<Commit>, w: Checkout)
    requires Sealed(w) !in History(base)
    ensures Play(Left(base, target, tip, w), now, COLLECT) == Just(Ready(base, target, tip, w)) &&
              OfRun(Publish) !in COLLECT
  {
    hide Play, History, Sealed;
    var c := Sealed(w);
    var a0 := Left(base, target, tip, w);
    var a1 := a0.(side := Asking(true));
    var a2 := a1.(running := false, helper := Collecting(false));
    var a3 := a2.(dir := Just(Checkout(c, Nothing)), helper := Collecting(true));
    var a4 := a3.(out := Just(c), helper := Free, side := Received(true, c));
    var r4 := [OfRun(Fetch)];
    var r3 := [OnMachine(CollectEnds(true))] + r4;
    var r2 := [OnMachine(CollectSnapshots(false))] + r3;
    var r1 := [OnMachine(CollectBegins)] + r2;
    PlayOne(a0, now, OfRun(TurnsEnd(true)), r1, a1);
    PlayOne(a1, now, OnMachine(CollectBegins), r2, a2);
    PlayOne(a2, now, OnMachine(CollectSnapshots(false)), r3, a3);
    PlayOne(a3, now, OnMachine(CollectEnds(true)), r4, a4);
    PlayLast(a4, now, OfRun(Fetch), Ready(base, target, tip, w));
  }

  lemma CleanPlays(base: Commit, target: string, tip: Option<Commit>, now: Option<Commit>, w: Checkout)
    ensures Play(Ready(base, target, tip, w).(side := Published(true, Sealed(w)), swap := Just(Swap(tip, Sealed(w)))),
              now, CLEAN)
            == Just(Done(base, target, tip, w))
    ensures OfRun(Publish) !in CLEAN
  {
    hide Play, History, Sealed;
    var c := Sealed(w);
    var a0 := Ready(base, target, tip, w).(side := Published(true, c), swap := Just(Swap(tip, c)));
    var a1 := a0.(incoming := Nothing, side := Collected(true, Just(c)));
    var a2 := a1.(verdict := Succeeded(Just(c)), side := Collected(false, Just(c)));
    var a3 := a2.(helper := Removing(false));
    var a4 := a3.(dir := Nothing, helper := Removing(true));
    var r4 := [OnMachine(RemoveRefs)];
    var r3 := [OnMachine(RemoveWorktree)] + r4;
    var r2 := [OfRun(CleanupBegins)] + r3;
    var r1 := [OfRun(JournalSuccess)] + r2;
    PlayOne(a0, now, OfRun(DropIncoming), r1, a1);
    PlayOne(a1, now, OfRun(JournalSuccess), r2, a2);
    PlayOne(a2, now, OfRun(CleanupBegins), r3, a3);
    PlayOne(a3, now, OnMachine(RemoveWorktree), r4, a4);
    PlayLast(a4, now, OnMachine(RemoveRefs), Done(base, target, tip, w));
  }

  lemma PublishPlays(head: Commit, steps: seq<Step>, s: State, name: string, base: Commit, target: string, w: Checkout)
    requires target !in s.checkedOut && Exec(head, steps) == Just(With(s, name, Ready(base, target, Tip(s, target), w)))
    ensures Exec(head, steps + [At(name, OfRun(Publish))]) ==
            Just(With(s.(branches := s.branches[target := Sealed(w)]), name,
              Ready(base, target, Tip(s, target), w).(side := Published(true, Sealed(w)),
                swap := Just(Swap(Tip(s, target), Sealed(w))))))
  {
    Snoc(head, steps, At(name, OfRun(Publish)));
    hide Exec, History, Sealed;
    var a := Ready(base, target, Tip(s, target), w);
    var b := a.(side := Published(true, Sealed(w)), swap := Just(Swap(Tip(s, target), Sealed(w))));
    assert s.attempts[name := a][name := b] == s.attempts[name := b];
  }

  /** An undisturbed agent succeeds, and its branch ends at what it left. */
  lemma SoloRun(head: Commit, steps: seq<Step>, s: State, name: string, target: string, w: Checkout)
    returns (more: seq<Step>)
    requires Exec(head, steps) == Just(s) && name !in s.attempts && target !in s.checkedOut
    requires Sealed(w) !in History(s.head)
    ensures Exec(head, more) ==
            Just(With(s.(branches := s.branches[target := Sealed(w)]), name, Done(s.head, target, Tip(s, target), w)))
  {
    hide Exec, History, Sealed, Play, Act, TURN, COLLECT, CLEAN;
    var tip, c := Tip(s, target), Sealed(w);
    Snoc(head, steps, Prepare(name, target));
    TurnPlays(s.head, target, tip);
    more := PlayIsExec(head, steps + [Prepare(name, target)], s, name, New(s.head, target, tip), TURN,
      Started(s.head, target, tip));
    EditPlays(s.head, target, tip, w);
    more := PlayIsExec(head, more, s, name, Started(s.head, target, tip), [OnMachine(Edit(w, Just(s.head)))],
      Left(s.head, target, tip, w));
    CollectPlays(s.head, target, tip, tip, w);
    more := PlayIsExec(head, more, s, name, Left(s.head, target, tip, w), COLLECT, Ready(s.head, target, tip, w));
    PublishPlays(head, more, s, name, s.head, target, w);
    CleanPlays(s.head, target, tip, Just(c), w);
    var t := s.(branches := s.branches[target := c]);
    assert Tip(t, target) == Just(c);
    more := PlayIsExec(head, more + [At(name, OfRun(Publish))], t, name,
      Ready(s.head, target, tip, w).(side := Published(true, c), swap := Just(Swap(tip, c))), CLEAN,
        Done(s.head, target, tip, w));
  }

  lemma EditPlays(base: Commit, target: string, tip: Option<Commit>, w: Checkout)
    ensures Play(Started(base, target, tip), tip, [OnMachine(Edit(w, Just(base)))]) == Just(Left(base, target, tip, w))
  {
    PlayLast(Started(base, target, tip), tip, OnMachine(Edit(w, Just(base))), Left(base, target, tip, w));
  }

  /* ----- one undisturbed agent that fails ----- */

  /**
   Work that was fetched can be published exactly when the branch is not checked out, still stands where prepare
   found it, and the collection is not that of a success that lost its race against the deadline.
   */
  lemma PublishesExactly(s: State, name: string)
    requires name in s.attempts && s.attempts[name].owned && s.attempts[name].side.Fetched?
    ensures var a := s.attempts[name];
            Next(s, At(name, OfRun(Publish))).Just? <==>
              a.target !in s.checkedOut && Tip(s, a.target) == a.expected && !(a.side.ok && a.aborted)
  {}

  const COLLECT_FAILED: seq<Move> :=
    [OfRun(TurnsEnd(false))]
      + ([OnMachine(CollectBegins)]
      + ([OnMachine(CollectSnapshots(false))] + ([OnMachine(CollectEnds(true))] + [OfRun(Fetch)])))

  const CLEAN_FAILED: seq<Move> :=
    [OfRun(DropIncoming)] + ([OfRun(CleanupBegins)] + ([OnMachine(RemoveWorktree)] + [OnMachine(RemoveRefs)]))

  function ReadyFailed(base: Commit, target: string, tip: Option<Commit>, w: Checkout): Attempt {
    Ready(base, target, tip, w).(side := Fetched(false, Sealed(w)), verdict := Failed)
  }

  function PublishedFailed(base: Commit, target: string, tip: Option<Commit>, w: Checkout): Attempt {
    ReadyFailed(base, target, tip, w).(side := Published(false, Sealed(w)), swap := Just(Swap(tip, Sealed(w))))
  }

  function DoneFailed(base: Commit, target: string, tip: Option<Commit>, w: Checkout): Attempt {
    Done(base, target, tip, w).(verdict := Failed)
  }

  lemma CollectFailedPlays(base: Commit, target: string, tip: Option<Commit>, now: Option<Commit>, w: Checkout)
    requires Sealed(w) !in History(base)
    ensures Play(Left(base, target, tip, w), now, COLLECT_FAILED) == Just(ReadyFailed(base, target, tip, w))
    ensures OfRun(Publish) !in COLLECT_FAILED
  {
    hide Play, History, Sealed;
    var c := Sealed(w);
    var a0 := Left(base, target, tip, w);
    var a1 := a0.(side := Asking(false), verdict := Failed);
    var a2 := a1.(running := false, helper := Collecting(false));
    var a3 := a2.(dir := Just(Checkout(c, Nothing)), helper := Collecting(true));
    var a4 := a3.(out := Just(c), helper := Free, side := Received(false, c));
    var r4 := [OfRun(Fetch)];
    var r3 := [OnMachine(CollectEnds(true))] + r4;
    var r2 := [OnMachine(CollectSnapshots(false))] + r3;
    var r1 := [OnMachine(CollectBegins)] + r2;
    PlayOne(a0, now, OfRun(TurnsEnd(false)), r1, a1);
    PlayOne(a1, now, OnMachine(CollectBegins), r2, a2);
    PlayOne(a2, now, OnMachine(CollectSnapshots(false)), r3, a3);
    PlayOne(a3, now, OnMachine(CollectEnds(true)), r4, a4);
    PlayLast(a4, now, OfRun(Fetch), ReadyFailed(base, target, tip, w));
  }

  lemma CleanFailedPlays(base: Commit, target: string, tip: Option<Commit>, now: Option<Commit>, w: Checkout)
    ensures Play(PublishedFailed(base, target, tip, w), now, CLEAN_FAILED) == Just(DoneFailed(base, target, tip, w))
    ensures OfRun(Publish) !in CLEAN_FAILED
  {
    hide Play, History, Sealed;
    var a0 := PublishedFailed(base, target, tip, w);
    var a1 := a0.(incoming := Nothing, side := Collected(false, Just(Sealed(w))));
    var a2 := a1.(helper := Removing(false));
    var a3 := a2.(dir := Nothing, helper := Removing(true));
    var r3 := [OnMachine(RemoveRefs)];
    var r2 := [OnMachine(RemoveWorktree)] + r3;
    var r1 := [OfRun(CleanupBegins)] + r2;
    PlayOne(a0, now, OfRun(DropIncoming), r1, a1);
    PlayOne(a1, now, OfRun(CleanupBegins), r2, a2);
    PlayOne(a2, now, OnMachine(RemoveWorktree), r3, a3);
    PlayLast(a3, now, OnMachine(RemoveRefs), DoneFailed(base, target, tip, w));
  }

  lemma PublishFailedPlays(head: Commit, steps: seq<Step>, s: State, name: string, base: Commit, target: string,
      w: Checkout)
    requires target !in s.checkedOut
    requires Exec(head, steps) == Just(With(s, name, ReadyFailed(base, target, Tip(s, target), w)))
    ensures Exec(head, steps + [At(name, OfRun(Publish))]) ==
              Just(With(s.(branches := s.branches[target := Sealed(w)]), name,
                PublishedFailed(base, target, Tip(s, target), w)))
  {
    Snoc(head, steps, At(name, OfRun(Publish)));
    hide Exec, History, Sealed;
    var a, b := ReadyFailed(base, target, Tip(s, target), w), PublishedFailed(base, target, Tip(s, target), w);
    assert s.attempts[name := a][name := b] == s.attempts[name := b];
  }

  /** An undisturbed agent that fails hands back its work all the same: its branch ends at what it left. */
  lemma SoloFailure(head: Commit, steps: seq<Step>, s: State, name: string, target: string, w: Checkout)
    returns (more: seq<Step>)
    requires Exec(head, steps) == Just(s) && name !in s.attempts && target !in s.checkedOut
    requires Sealed(w) !in History(s.head)
    ensures Exec(head, more).Just?
    ensures var t := Exec(head, more).value;
            && Tip(t, target) == Just(Sealed(w)) && (forall b :: b != target ==> Tip(t, b) == Tip(s, b))
            && name in t.attempts
            && var a := t.attempts[name];
               a.verdict.Failed? && a.last == w && a.dir.Nothing? && a.branch.Nothing? && a.helper.Free?
  {
    hide Exec, History, Sealed, Play, Act, TURN, COLLECT_FAILED, CLEAN_FAILED;
    var tip, c := Tip(s, target), Sealed(w);
    Snoc(head, steps, Prepare(name, target));
    TurnPlays(s.head, target, tip);
    var started, left := Started(s.head, target, tip), Left(s.head, target, tip, w);
    more := PlayIsExec(head, steps + [Prepare(name, target)], s, name, New(s.head, target, tip), TURN, started);
    EditPlays(s.head, target, tip, w);
    more := PlayIsExec(head, more, s, name, started, [OnMachine(Edit(w, Just(s.head)))], left);
    CollectFailedPlays(s.head, target, tip, tip, w);
    more := PlayIsExec(head, more, s, name, left, COLLECT_FAILED, ReadyFailed(s.head, target, tip, w));
    PublishFailedPlays(head, more, s, name, s.head, target, w);
    CleanFailedPlays(s.head, target, tip, Just(c), w);
    var t := s.(branches := s.branches[target := c]);
    assert Tip(t, target) == Just(c);
    more := PlayIsExec(head, more + [At(name, OfRun(Publish))], t, name, PublishedFailed(s.head, target, tip, w),
      CLEAN_FAILED, DoneFailed(s.head, target, tip, w));
  }

  /* ----- two successes, one branch ----- */

  const BASE: Commit := Commit("base", [])

  const FIRST: Commit := Commit("first", [BASE])

  const SECOND: Commit := Commit("second", [BASE])

  /** Both agents succeed and are journaled as such, and the first one's commit is nowhere any more. */
  lemma SecondPublishDropsFirst() returns (steps: seq<Step>)
    ensures Exec(BASE, steps).Just?
    ensures var s := Exec(BASE, steps).value;
            && "one" in s.attempts && s.attempts["one"].verdict == Succeeded(Just(FIRST))
            && "two" in s.attempts && s.attempts["two"].verdict == Succeeded(Just(SECOND))
            && !Held(s.attempts["one"], Tip(s, s.attempts["one"].target))
            && forall b: string :: FIRST !in Reachable(Tip(s, b))
  {
    Histories();
    hide Exec, History;
    var s0 := Init(BASE);
    InitIsExec();
    steps := SoloRun(BASE, [], s0, "one", "work", Checkout(FIRST, Nothing));
    var s1 := Exec(BASE, steps).value;
    steps := SoloRun(BASE, steps, s1, "two", "work", Checkout(SECOND, Nothing));
    assert "one" != "two";
  }

  /* ----- two sweeps of one attempt ----- */

  const LEFT: Checkout := Checkout(SECOND, Nothing)

  const SWEEP: seq<Move> :=
    [OnMachine(SweepBegins)]
      + ([OnMachine(SweepSnapshots(false))]
      + ([OnMachine(SweepSalvages)] + ([OnMachine(RemoveWorktree)] + [OnMachine(HelperDies)])))

  const SWEEP_AGAIN: seq<Move> := [OnMachine(SweepBegins)] + [OnMachine(SweepSalvages)]

  /** The agent left a detached head, its internal branch elsewhere, and its run died. */
  function Abandoned(): Attempt {
    Started(BASE, "work", Nothing).(dir := Just(LEFT), last := LEFT, branch := Just(FIRST), owned := false)
  }

  /** Swept once, up to the deletion of the worktree: its head is salvaged, but it is still listed. */
  function SweptOnce(): Attempt { Abandoned().(running := false, dir := Nothing, salvage := Just(SECOND)) }

  function SweptTwice(): Attempt { SweptOnce().(salvage := Just(FIRST), helper := Removing(false)) }

  lemma SweepPlays()
    ensures Play(Abandoned(), Nothing, SWEEP) == Just(SweptOnce()) && OfRun(Publish) !in SWEEP
  {
    hide Play;
    Histories();
    var a0 := Abandoned();
    var a1 := a0.(running := false, helper := Sweeping(false));
    var a2 := a1.(helper := Sweeping(true));
    var a3 := a2.(salvage := Just(SECOND), helper := Removing(false));
    var a4 := a3.(dir := Nothing, helper := Removing(true));
    var r4 := [OnMachine(HelperDies)];
    var r3 := [OnMachine(RemoveWorktree)] + r4;
    var r2 := [OnMachine(SweepSalvages)] + r3;
    var r1 := [OnMachine(SweepSnapshots(false))] + r2;
    PlayOne(a0, Nothing, OnMachine(SweepBegins), r1, a1);
    PlayOne(a1, Nothing, OnMachine(SweepSnapshots(false)), r2, a2);
    PlayOne(a2, Nothing, OnMachine(SweepSalvages), r3, a3);
    PlayOne(a3, Nothing, OnMachine(RemoveWorktree), r4, a4);
    PlayLast(a4, Nothing, OnMachine(HelperDies), SweptOnce());
  }

  lemma SweepAgainPlays()
    ensures Play(SweptOnce(), Nothing, SWEEP_AGAIN) == Just(SweptTwice()) && OfRun(Publish) !in SWEEP_AGAIN
  {
    hide Play;
    Histories();
    var b := SweptOnce().(helper := Sweeping(true));
    PlayOne(SweptOnce(), Nothing, OnMachine(SweepBegins), [OnMachine(SweepSalvages)], b);
    PlayLast(b, Nothing, OnMachine(SweepSalvages), SweptTwice());
  }

  lemma AbandonPlays()
    ensures Play(Started(BASE, "work", Nothing), Nothing, [OnMachine(Edit(LEFT, Just(FIRST)))] + [OfRun(RunEnds)]) ==
              Just(Abandoned())
  {
    hide Play;
    var a := Started(BASE, "work", Nothing).(dir := Just(LEFT), last := LEFT, branch := Just(FIRST));
    PlayOne(Started(BASE, "work", Nothing), Nothing, OnMachine(Edit(LEFT, Just(FIRST))), [OfRun(RunEnds)], a);
    PlayLast(a, Nothing, OfRun(RunEnds), Abandoned());
  }

  /**
   A sweep that dies between deleting a worktree and pruning it leaves the attempt listed. If the next prepare is
   not the newest, so that it does not prune either, its sweep finds the directory gone, salvages the internal
   branch instead, and what the agent left is nowhere.
   */
  lemma SecondSweepDropsFirst() returns (steps: seq<Step>)
    ensures Exec(BASE, steps).Just?
    ensures var s := Exec(BASE, steps).value;
            && "one" in s.attempts && s.attempts["one"].last == LEFT && s.attempts["one"].salvage == Just(FIRST)
            && !Held(s.attempts["one"], Tip(s, s.attempts["one"].target))
  {
    hide Exec, Play, Act, SWEEP, SWEEP_AGAIN, TURN;
    var s0 := Init(BASE);
    InitIsExec();
    Snoc(BASE, [], Prepare("one", "work"));
    TurnPlays(BASE, "work", Nothing);
    steps := PlayIsExec(BASE, [] + [Prepare("one", "work")], s0, "one", New(BASE, "work", Nothing), TURN,
      Started(BASE, "work", Nothing));
    AbandonPlays();
    var leaves := [OnMachine(Edit(LEFT, Just(FIRST)))] + [OfRun(RunEnds)];
    steps := PlayIsExec(BASE, steps, s0, "one", Started(BASE, "work", Nothing), leaves, Abandoned());
    SweepPlays();
    steps := PlayIsExec(BASE, steps, s0, "one", Abandoned(), SWEEP, SweptOnce());
    SweepAgainPlays();
    steps := PlayIsExec(BASE, steps, s0, "one", SweptOnce(), SWEEP_AGAIN, SweptTwice());
    Histories();
  }

  lemma InitIsExec()
    ensures Exec(BASE, []) == Just(Init(BASE))
  {}

  lemma Histories()
    ensures History(BASE) == {BASE} && History(FIRST) == {FIRST, BASE} && History(SECOND) == {SECOND, BASE}
    ensures FIRST != SECOND && FIRST != BASE && SECOND != BASE
  {
    assert FIRST.parents[0] == BASE && SECOND.parents[0] == BASE;
    assert FIRST.files[0] == 'f' && SECOND.files[0] == 's';
  }
}
