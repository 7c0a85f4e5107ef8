/**
 How remote attempts end. Whatever died on the way, an attempt whose turns are over can be brought to its end: its
 work is handed over exactly if its branch is free and unmoved, and otherwise its worktree stays; and an attempt
 whose run is gone can be swept, its work salvaged first.
 */
module RemoteEnds {
  import opened Options
  import opened Commits
  import opened Remote
  import opened RemoteSafety

  /** An attempt and the tip of its branch. */
  datatype World = World(a: Attempt, tip: Option<Commit>)

  /** Several steps of one attempt, while nothing else moves. */
  function Runs(w: World, checkedOut: bool, moves: seq<Move>): Option<World>
    decreases |moves|
  {
    if moves == [] then Just(w)
    else
      var b := Act(w.a, w.tip, checkedOut, moves[0]);
      if b.Nothing? then Nothing
      else
        Runs(World(b.value, if moves[0] == OfRun(Publish) then Just(b.value.side.head) else w.tip), checkedOut,
          moves[1..])
  }

  lemma {:induction false} RunsConcat(w: World, checkedOut: bool, ms: seq<Move>, ns: seq<Move>)
    requires Runs(w, checkedOut, ms).Just?
    ensures Runs(w, checkedOut, ms + ns) == Runs(Runs(w, checkedOut, ms).value, checkedOut, ns)
    decreases |ms|
  {
    hide HelperAct;
    if ms == [] {
      assert ms + ns == ns;
    } else {
      assert (ms + ns)[1..] == ms[1..] + ns;
      var b := Act(w.a, w.tip, checkedOut, ms[0]).value;
      RunsConcat(World(b, if ms[0] == OfRun(Publish) then Just(b.side.head) else w.tip), checkedOut, ms[1..], ns);
    }
  }

  lemma RunsOne(w: World, checkedOut: bool, m: Move, b: Attempt)
    requires Act(w.a, w.tip, checkedOut, m) == Just(b) && m != OfRun(Publish)
    ensures Runs(w, checkedOut, [m]) == Just(World(b, w.tip))
  {
    assert [m][1..] == [];
  }

  /** Extends a play by a step other than a publish. */
  lemma Then(w: World, checkedOut: bool, ms: seq<Move>, a: Attempt, m: Move, b: Attempt)
    requires Runs(w, checkedOut, ms) == Just(World(a, w.tip))
    requires Act(a, w.tip, checkedOut, m) == Just(b) && m != OfRun(Publish)
    ensures Runs(w, checkedOut, ms + [m]) == Just(World(b, w.tip))
  {
    hide Act;
    RunsConcat(w, checkedOut, ms, [m]);
    RunsOne(World(a, w.tip), checkedOut, m, b);
  }

  /** Such steps are steps of any run that has come to such a state. */
  lemma {:induction false} RunsIsExec(head: Commit, steps: seq<Step>, name: string, moves: seq<Move>)
    returns (more: seq<Step>)
    requires Exec(head, steps).Just? && name in Exec(head, steps).value.attempts
    requires var s := Exec(head, steps).value;
             var a := s.attempts[name];
             Runs(World(a, Tip(s, a.target)), a.target in s.checkedOut, moves).Just?
    ensures Exec(head, more).Just? && name in Exec(head, more).value.attempts
    ensures var s, t := Exec(head, steps).value, Exec(head, more).value;
            var a := s.attempts[name];
            && Runs(World(a, Tip(s, a.target)), a.target in s.checkedOut, moves)
               == Just(World(t.attempts[name], Tip(t, a.target)))
            && t.attempts[name].target == a.target
            && (forall b :: b != a.target ==> Tip(t, b) == Tip(s, b))
            && (forall n :: n != name ==> (n in t.attempts <==> n in s.attempts))
            && (forall n :: n != name && n in s.attempts ==> t.attempts[n] == s.attempts[n])
    decreases |moves|
  {
    hide Exec, Act;
    more := steps;
    if moves != [] {
      var s := Exec(head, steps).value;
      var a := s.attempts[name];
      var b := Act(a, Tip(s, a.target), a.target in s.checkedOut, moves[0]).value;
      ActTarget(a, Tip(s, a.target), a.target in s.checkedOut, moves[0]);
      ExecSnoc(head, steps, At(name, moves[0]));
      more := RunsIsExec(head, steps + [At(name, moves[0])], name, moves[1..]);
    }
  }

  lemma ExecSnoc(head: Commit, steps: seq<Step>, x: Step)
    requires Exec(head, steps).Just?
    ensures Exec(head, steps + [x]) == Next(Exec(head, steps).value, x)
  {
    assert (steps + [x])[..|steps|] == steps;
  }

  /* ----- the end of an attempt whose run is alive ----- */

  /** The turns are over, and the collection has begun or ended. */
  predicate InCollection(a: Attempt) {
    a.side.Asking? || a.side.Received? || a.side.Fetched? || a.side.Published? || a.side.Collected?
  }

  /** Nothing of the attempt is left on the machine. */
  function Cleaned(a: Attempt): Attempt {
    a.(running := false, dir := Nothing, branch := Nothing, out := Nothing, baseFile := false, helper := Free)
  }

  lemma Cleanup(w: World, checkedOut: bool, ms: seq<Move>, a: Attempt) returns (moves: seq<Move>)
    requires Runs(w, checkedOut, ms) == Just(World(a, w.tip))
    requires a.owned && (a.side.Discarding? || (a.side.Collected? && !a.side.ok))
    ensures Runs(w, checkedOut, moves) == Just(World(Cleaned(a), w.tip))
  {
    hide Runs;
    var a1 := a.(helper := Free);
    var a2 := a1.(running := false, helper := Removing(false));
    var a3 := a2.(dir := Nothing, helper := Removing(true));
    Then(w, checkedOut, ms, a, OnMachine(HelperDies), a1);
    moves := ms + [OnMachine(HelperDies)];
    Then(w, checkedOut, moves, a1, OfRun(CleanupBegins), a2);
    moves := moves + [OfRun(CleanupBegins)];
    Then(w, checkedOut, moves, a2, OnMachine(RemoveWorktree), a3);
    moves := moves + [OnMachine(RemoveWorktree)];
    Then(w, checkedOut, moves, a3, OnMachine(RemoveRefs), Cleaned(a));
    moves := moves + [OnMachine(RemoveRefs)];
  }

  /** What a collected attempt becomes: journaled if it succeeded, and removed. */
  function Closed(a: Attempt, ok: bool, changed: Option<Commit>): Attempt {
    Cleaned(a).(side := Collected(false, changed), verdict := if ok then Succeeded(changed) else a.verdict)
  }

  lemma Close(w: World, checkedOut: bool, ms: seq<Move>, a: Attempt) returns (moves: seq<Move>)
    requires Runs(w, checkedOut, ms) == Just(World(a, w.tip)) && a.owned && a.side.Collected?
    ensures Runs(w, checkedOut, moves) == Just(World(Closed(a, a.side.ok, a.side.changed), w.tip))
  {
    hide Runs;
    if a.side.ok {
      var b := a.(verdict := Succeeded(a.side.changed), side := Collected(false, a.side.changed));
      Then(w, checkedOut, ms, a, OfRun(JournalSuccess), b);
      moves := Cleanup(w, checkedOut, ms + [OfRun(JournalSuccess)], b);
    } else {
      moves := Cleanup(w, checkedOut, ms, a);
    }
  }

  lemma CloseDropping(w: World, checkedOut: bool) returns (moves: seq<Move>)
    requires w.a.owned && w.a.side.Published?
    ensures Runs(w, checkedOut, moves) ==
            Just(World(Closed(w.a.(incoming := Nothing), w.a.side.ok, Just(w.a.side.head)), w.tip))
  {
    hide Runs;
    var a := w.a.(incoming := Nothing, side := Collected(w.a.side.ok, Just(w.a.side.head)));
    RunsOne(w, checkedOut, OfRun(DropIncoming), a);
    moves := Close(w, checkedOut, [OfRun(DropIncoming)], a);
  }

  /** May anything be published? The branch is not checked out and stands where prepare found it. */
  predicate Open(w: World, checkedOut: bool) { !checkedOut && w.tip == w.a.expected }

  /** A fetched head that may be published is, and the attempt is closed. */
  lemma Land(w: World, checkedOut: bool) returns (moves: seq<Move>)
    requires w.a.owned && w.a.side.Fetched? && Open(w, checkedOut) && !(w.a.side.ok && w.a.aborted)
    ensures var c := w.a.side.head;
            Runs(w, checkedOut, moves) ==
              Just(World(Closed(w.a.(incoming := Nothing, swap := Just(Swap(w.tip, c))), w.a.side.ok, Just(c)),
                Just(c)))
  {
    var c := w.a.side.head;
    var b := World(w.a.(side := Published(w.a.side.ok, c), swap := Just(Swap(w.tip, c))), Just(c));
    assert [OfRun(Publish)][1..] == [];
    assert Runs(w, checkedOut, [OfRun(Publish)]) == Just(b);
    hide Runs;
    var rest := CloseDropping(b, checkedOut);
    RunsConcat(w, checkedOut, [OfRun(Publish)], rest);
    moves := [OfRun(Publish)] + rest;
  }

  /** The worktree as the collection leaves it. */
  function Snapped(a: Attempt, onBranch: bool): Attempt
    requires a.dir.Just?
  {
    var c := Sealed(a.dir.value);
    a.(running := false, dir := Just(Checkout(c, Nothing)),
       branch := if onBranch && a.branch.Just? then Just(c) else a.branch)
  }

  /** A collection up to its snapshot. The agent may have been stopped before, and HEAD be on the internal branch. */
  lemma Snap(w: World, checkedOut: bool, onBranch: bool) returns (moves: seq<Move>)
    requires w.a.owned && w.a.side.Asking? && w.a.dir.Just?
    ensures Runs(w, checkedOut, moves) == Just(World(Snapped(w.a, onBranch).(helper := Collecting(true)), w.tip))
  {
    hide Runs, History, Sealed;
    var a1 := w.a.(helper := Free);
    var a2 := a1.(running := false);
    var a3 := a2.(helper := Collecting(false));
    RunsOne(w, checkedOut, OnMachine(HelperDies), a1);
    moves := [OnMachine(HelperDies)];
    Then(w, checkedOut, moves, a1, OnMachine(StopRun), a2);
    moves := moves + [OnMachine(StopRun)];
    Then(w, checkedOut, moves, a2, OnMachine(CollectBegins), a3);
    moves := moves + [OnMachine(CollectBegins)];
    Then(w, checkedOut, moves, a3, OnMachine(CollectSnapshots(onBranch)),
      Snapped(w.a, onBranch).(helper := Collecting(true)));
    moves := moves + [OnMachine(CollectSnapshots(onBranch))];
  }

  /** The collection of a worktree that holds something: its head is fetched. */
  lemma Collect(w: World, checkedOut: bool) returns (moves: seq<Move>)
    requires w.a.owned && w.a.side.Asking? && w.a.dir.Just?
    ensures var c := Sealed(w.a.dir.value);
            var a := Snapped(w.a, false).(helper := Free);
            Runs(w, checkedOut, moves) == Just(World(
              if c in History(w.a.base) then a.(side := Collected(w.a.side.ok, Nothing))
              else a.(out := Just(c), incoming := Just(c), side := Fetched(w.a.side.ok, c)), w.tip))
  {
    hide Runs, History, Sealed;
    var c := Sealed(w.a.dir.value);
    moves := Snap(w, checkedOut, false);
    var a3 := Snapped(w.a, false).(helper := Collecting(true));
    var done := a3.(helper := Free);
    if c in History(w.a.base) {
      Then(w, checkedOut, moves, a3, OnMachine(CollectEnds(true)), done.(side := Collected(w.a.side.ok, Nothing)));
      moves := moves + [OnMachine(CollectEnds(true))];
    } else {
      var a4 := done.(out := Just(c), side := Received(w.a.side.ok, c));
      Then(w, checkedOut, moves, a3, OnMachine(CollectEnds(true)), a4);
      moves := moves + [OnMachine(CollectEnds(true))];
      Then(w, checkedOut, moves, a4, OfRun(Fetch), a4.(incoming := Just(c), side := Fetched(w.a.side.ok, c)));
      moves := moves + [OfRun(Fetch)];
    }
  }

  /* ----- which way a collection ends ----- */

  /** Nothing of the attempt is left on the machine but what was salvaged. */
  predicate Gone(a: Attempt) {
    a.dir.Nothing? && a.branch.Nothing? && a.out.Nothing? && !a.baseFile && a.helper.Free? && !a.running
  }

  /** Is something left to publish? Not if the head went through already, or holds nothing beyond the base. */
  predicate Publishes(a: Attempt) {
    a.side.Received? || a.side.Fetched? || (a.side.Asking? && Sealed(a.last) !in History(a.base))
  }

  /** The head that a finished attempt is journaled with, if it has one. */
  function JournaledHead(a: Attempt): Option<Commit> {
    if a.side.Published? then Just(a.side.head)
    else if a.side.Collected? then a.side.changed
    else if Publishes(a) then Just(Sealed(a.last)) else Nothing
  }

  /** What becomes of a collection. */
  predicate EndsAs(w: World, checkedOut: bool, v: World)
    requires InCollection(w.a)
  {
    && v.a.last == w.a.last && v.a.salvage == w.a.salvage
    && if !Publishes(w.a) then
        Gone(v.a) && v.tip == w.tip && v.a.verdict == if w.a.side.ok then Succeeded(JournaledHead(w.a)) else w.a.verdict
      else if Open(w, checkedOut) then
        Gone(v.a) && v.tip == Just(Sealed(w.a.last)) && v.a.swap == Just(Swap(w.tip, Sealed(w.a.last)))
        && v.a.verdict ==
           if !w.a.side.ok then w.a.verdict else if w.a.aborted then Failed else Succeeded(JournaledHead(w.a))
      else
        && v.a.side.Ended? && !v.a.owned && InWorktree(v.a) && v.tip == w.tip
        && v.a.verdict == if w.a.side.ok then Failed else w.a.verdict
  }

  /** The work of an attempt in collection, if its worktree is there. */
  predicate Ready(a: Attempt) {
    && a.owned && InCollection(a) && InWorktree(a)
    && (a.side.Received? || a.side.Fetched? ==> a.side.head == Sealed(a.last) && Sealed(a.last) !in History(a.base))
  }

  lemma Append(w: World, checkedOut: bool, ms: seq<Move>, v: World, ns: seq<Move>, x: World)
    requires Runs(w, checkedOut, ms) == Just(v) && Runs(v, checkedOut, ns) == Just(x)
    ensures Runs(w, checkedOut, ms + ns) == Just(x)
  {
    RunsConcat(w, checkedOut, ms, ns);
  }

  lemma FetchedFailureEnds(w: World, checkedOut: bool) returns (moves: seq<Move>)
    requires Ready(w.a) && w.a.side.Fetched? && !w.a.side.ok
    ensures Runs(w, checkedOut, moves).Just? && EndsAs(w, checkedOut, Runs(w, checkedOut, moves).value)
  {
    if Open(w, checkedOut) {
      moves := Land(w, checkedOut);
    } else {
      moves := GiveUp(w, checkedOut);
    }
    hide Runs, Sealed, History;
  }

  lemma GiveUp(w: World, checkedOut: bool) returns (moves: seq<Move>)
    requires w.a.owned && w.a.side.Fetched? && !w.a.side.ok
    ensures Runs(w, checkedOut, moves) == Just(World(w.a.(side := Ended, owned := false), w.tip))
  {
    RunsOne(w, checkedOut, OfRun(CollectFails), w.a.(side := Ended, owned := false));
    moves := [OfRun(CollectFails)];
  }

  lemma SealedWorktree(a: Attempt, onBranch: bool)
    requires InWorktree(a)
    ensures Sealed(a.dir.value) == Sealed(a.last) && InWorktree(Snapped(a, onBranch))
  {
    SealKeepsHead(a.last);
  }

  lemma AskedFailureEnds(w: World, checkedOut: bool) returns (moves: seq<Move>)
    requires Ready(w.a) && w.a.side.Asking? && !w.a.side.ok
    ensures Runs(w, checkedOut, moves).Just? && EndsAs(w, checkedOut, Runs(w, checkedOut, moves).value)
  {
    hide Runs, Sealed, History;
    SealedWorktree(w.a, false);
    var first := Collect(w, checkedOut);
    var v := Runs(w, checkedOut, first).value;
    if v.a.side.Collected? {
      moves := Close(w, checkedOut, first, v.a);
    } else {
      var rest := FetchedFailureEnds(v, checkedOut);
      Append(w, checkedOut, first, v, rest, Runs(v, checkedOut, rest).value);
      moves := first + rest;
    }
  }

  lemma FetchedEnds(w: World, checkedOut: bool) returns (moves: seq<Move>)
    requires Ready(w.a) && w.a.side.Fetched?
    ensures Runs(w, checkedOut, moves).Just? && EndsAs(w, checkedOut, Runs(w, checkedOut, moves).value)
  {
    hide Runs, Sealed, History;
    if !w.a.side.ok {
      moves := FetchedFailureEnds(w, checkedOut);
    } else if Open(w, checkedOut) && !w.a.aborted {
      moves := Land(w, checkedOut);
    } else {
      var v := World(w.a.(side := Asking(false), verdict := Failed), w.tip);
      RunsOne(w, checkedOut, OfRun(CollectFails), v.a);
      var rest := AskedFailureEnds(v, checkedOut);
      Append(w, checkedOut, [OfRun(CollectFails)], v, rest, Runs(v, checkedOut, rest).value);
      moves := [OfRun(CollectFails)] + rest;
    }
  }

  lemma CollectionEnds(w: World, checkedOut: bool) returns (moves: seq<Move>)
    requires Ready(w.a)
    ensures Runs(w, checkedOut, moves).Just? && EndsAs(w, checkedOut, Runs(w, checkedOut, moves).value)
  {
    hide Runs, Sealed, History;
    match w.a.side
    case Fetched(_, _) => moves := FetchedEnds(w, checkedOut);
    case Published(_, _) => moves := CloseDropping(w, checkedOut);
    case Collected(_, _) =>
      RunsNothing(w, checkedOut);
      moves := Close(w, checkedOut, [], w.a);
    case Received(ok, c) =>
      var v := World(w.a.(incoming := Just(c), side := Fetched(ok, c)), w.tip);
      RunsOne(w, checkedOut, OfRun(Fetch), v.a);
      var rest := FetchedEnds(v, checkedOut);
      Append(w, checkedOut, [OfRun(Fetch)], v, rest, Runs(v, checkedOut, rest).value);
      moves := [OfRun(Fetch)] + rest;
    case Asking(_) =>
      SealedWorktree(w.a, false);
      var first := Collect(w, checkedOut);
      var v := Runs(w, checkedOut, first).value;
      if v.a.side.Collected? {
        moves := Close(w, checkedOut, first, v.a);
      } else {
        var rest := FetchedEnds(v, checkedOut);
        Append(w, checkedOut, first, v, rest, Runs(v, checkedOut, rest).value);
        moves := first + rest;
      }
  }

  lemma RunsNothing(w: World, checkedOut: bool)
    ensures Runs(w, checkedOut, []) == Just(w)
  {}

  /* ----- in any run ----- */

  /** A head that was handed over holds something beyond the base. */
  predicate Beyond(a: Attempt) {
    a.side.Received? || a.side.Fetched? ==> a.side.head !in History(a.base)
  }

  lemma ActBeyond(a: Attempt, tip: Option<Commit>, checkedOut: bool, m: Move)
    requires Beyond(a) && Act(a, tip, checkedOut, m).Just?
    ensures Beyond(Act(a, tip, checkedOut, m).value)
  {
    hide HelperAct, RunAct;
    match m
    case OnMachine(h) => HelperBeyond(a, h);
    case OfRun(r) => RunBeyond(a, tip, checkedOut, r);
  }

  lemma HelperBeyond(a: Attempt, m: HelperMove)
    requires Beyond(a) && HelperAct(a, m).Just?
    ensures Beyond(HelperAct(a, m).value)
  {
    hide History, Sealed, NeedsSalvage, SalvageHead;
  }

  lemma RunBeyond(a: Attempt, tip: Option<Commit>, checkedOut: bool, m: RunMove)
    requires Beyond(a) && RunAct(a, tip, checkedOut, m).Just?
    ensures Beyond(RunAct(a, tip, checkedOut, m).value)
  {
    hide History, Sealed, MayPublish;
  }

  lemma {:induction false} AlwaysBeyond(head: Commit, steps: seq<Step>)
    requires Exec(head, steps).Just?
    ensures forall n :: n in Exec(head, steps).value.attempts ==> Beyond(Exec(head, steps).value.attempts[n])
  {
    hide Beyond, Act;
    if steps != [] {
      var n := |steps| - 1;
      var s := Exec(head, steps[..n]).value;
      AlwaysBeyond(head, steps[..n]);
      match steps[n]
      case Prepare(_, target) => NewIsBeyond(s.head, target, Tip(s, target));
      case At(name, m) =>
        var a := s.attempts[name];
        ActBeyond(a, Tip(s, a.target), a.target in s.checkedOut, m);
      case _ =>
    }
  }

  lemma NewIsBeyond(base: Commit, target: string, tip: Option<Commit>)
    ensures Beyond(New(base, target, tip))
  {}

  function WorldOf(s: State, name: string): World
    requires name in s.attempts
  {
    World(s.attempts[name], Tip(s, s.attempts[name].target))
  }

  /**
   In any run, a collection whose run and worktree are still there can be brought to its end, wherever it stands and
   whatever the helper was doing. If something is left to publish and the branch is free, the branch ends at the
   agent's work, and only a success that lost its race against the deadline is journaled as failed; if the branch is
   not free, the worktree stays. Otherwise the attempt is journaled as what it is. No other branch moves.
   */
  lemma CollectionFinishes(head: Commit, steps: seq<Step>, name: string) returns (more: seq<Step>)
    requires Exec(head, steps).Just? && name in Exec(head, steps).value.attempts
    requires var a := Exec(head, steps).value.attempts[name]; a.owned && a.dir.Just? && InCollection(a)
    ensures Exec(head, more).Just? && name in Exec(head, more).value.attempts
    ensures var s, t := Exec(head, steps).value, Exec(head, more).value;
            var target := s.attempts[name].target;
            && EndsAs(WorldOf(s, name), target in s.checkedOut, WorldOf(t, name))
            && t.attempts[name].target == target
            && forall b :: b != target ==> Tip(t, b) == Tip(s, b)
  {
    hide Exec, Runs, Sealed, History, EndsAs;
    RemoteSafety.Reached(head, steps);
    AlwaysBeyond(head, steps);
    var s := Exec(head, steps).value;
    var w, out := WorldOf(s, name), s.attempts[name].target in s.checkedOut;
    var moves := CollectionEnds(w, out);
    more := RunsIsExec(head, steps, name, moves);
  }

  /** While its branch is held by someone, a finished agent's work is neither published nor removed. */
  lemma HeldBranchKeepsWorktree(head: Commit, steps: seq<Step>, name: string, names: set<string>)
    returns (more: seq<Step>)
    requires Exec(head, steps).Just? && name in Exec(head, steps).value.attempts
    requires var a := Exec(head, steps).value.attempts[name];
             a.owned && a.dir.Just? && InCollection(a) && Publishes(a) && a.target in names
    ensures Exec(head, more).Just? && name in Exec(head, more).value.attempts
    ensures var s, t := Exec(head, steps).value, Exec(head, more).value;
            (forall b :: Tip(t, b) == Tip(s, b)) && InWorktree(t.attempts[name]) && !t.attempts[name].owned
  {
    hide Exec, Sealed, History;
    ExecSnoc(head, steps, UserChecksOut(names));
    more := CollectionFinishes(head, steps + [UserChecksOut(names)], name);
  }

  /** And if someone moved its branch since it was prepared, to a place of their own, that place stands. */
  lemma MovedBranchStands(head: Commit, steps: seq<Step>, name: string, to: Commit) returns (more: seq<Step>)
    requires Exec(head, steps).Just? && name in Exec(head, steps).value.attempts
    requires var a := Exec(head, steps).value.attempts[name];
             a.owned && a.dir.Just? && InCollection(a) && Publishes(a) && a.expected != Just(to)
    ensures Exec(head, more).Just? && name in Exec(head, more).value.attempts
    ensures var s, t := Exec(head, steps).value, Exec(head, more).value;
            var target := s.attempts[name].target;
            && Tip(t, target) == Just(to) && (forall b :: b != target ==> Tip(t, b) == Tip(s, b))
            && InWorktree(t.attempts[name]) && !t.attempts[name].owned
  {
    hide Exec, Sealed, History;
    var move := UserMoves(Exec(head, steps).value.attempts[name].target, to);
    ExecSnoc(head, steps, move);
    more := CollectionFinishes(head, steps + [move], name);
  }

  /** A success that loses its race against the deadline is journaled as failed, and published all the same. */
  lemma LateSuccessFails(head: Commit, steps: seq<Step>, name: string) returns (more: seq<Step>)
    requires Exec(head, steps).Just? && name in Exec(head, steps).value.attempts
    requires var s := Exec(head, steps).value;
             var a := s.attempts[name];
             && a.owned && a.dir.Just? && InCollection(a) && Publishes(a) && a.side.ok
             && a.target !in s.checkedOut && Tip(s, a.target) == a.expected
    ensures Exec(head, more).Just? && name in Exec(head, more).value.attempts
    ensures var t := Exec(head, more).value;
            var a := t.attempts[name];
            a.verdict.Failed? && Tip(t, a.target) == Just(Sealed(a.last)) && a.dir.Nothing?
  {
    hide Exec, Sealed, History;
    ExecSnoc(head, steps, At(name, OfRun(Abort)));
    more := CollectionFinishes(head, steps + [At(name, OfRun(Abort))], name);
  }

  /** A collection whose reply is lost leaves the run asking, and the worktree as good as it was. */
  lemma LostReplyLeavesAsking(w: World, checkedOut: bool, onBranch: bool) returns (moves: seq<Move>)
    requires Ready(w.a) && w.a.side.Asking?
    ensures |moves| > 0 && moves[|moves| - 1] == OnMachine(CollectEnds(false))
    ensures Runs(w, checkedOut, moves).Just?
    ensures var v := Runs(w, checkedOut, moves).value;
            v.tip == w.tip && v.a.side == w.a.side && v.a.helper.Free? && Ready(v.a) && v.a.last == w.a.last
  {
    hide Runs, History, Sealed;
    SealedWorktree(w.a, onBranch);
    var c := Sealed(w.a.dir.value);
    var a := Snapped(w.a, onBranch).(helper := Collecting(true));
    moves := Snap(w, checkedOut, onBranch);
    Then(w, checkedOut, moves, a, OnMachine(CollectEnds(false)),
      a.(helper := Free, out := if c in History(w.a.base) then w.a.out else Just(c)));
    moves := moves + [OnMachine(CollectEnds(false))];
  }

  /** An attempt that could not be prepared is removed. */
  lemma FailedPrepareIsRemoved(head: Commit, steps: seq<Step>, name: string) returns (more: seq<Step>)
    requires Exec(head, steps).Just? && name in Exec(head, steps).value.attempts
    requires var a := Exec(head, steps).value.attempts[name]; a.owned && a.side.Preparing?
    ensures Exec(head, more).Just? && name in Exec(head, more).value.attempts
    ensures var s, t := Exec(head, steps).value, Exec(head, more).value;
            Gone(t.attempts[name]) && t.attempts[name].verdict == s.attempts[name].verdict
            && t.attempts[name].salvage == s.attempts[name].salvage && forall b :: Tip(t, b) == Tip(s, b)
  {
    hide Exec, Runs;
    var w := WorldOf(Exec(head, steps).value, name);
    var out := w.a.target in Exec(head, steps).value.checkedOut;
    RunsOne(w, out, OfRun(PrepareFails), w.a.(side := Discarding));
    var moves := Cleanup(w, out, [OfRun(PrepareFails)], w.a.(side := Discarding));
    more := RunsIsExec(head, steps, name, moves);
  }

  /** An agent starts from the commit that the run's HEAD is at when it is prepared, wherever it was before. */
  lemma AgentsStartFromHead(head: Commit, steps: seq<Step>, now: Commit, name: string, target: string)
    requires Exec(head, steps).Just? && name !in Exec(head, steps).value.attempts
    ensures var t := Exec(head, steps + [UserCommits(now)] + [Prepare(name, target)]);
            && t.Just? && name in t.value.attempts && t.value.attempts[name].base == now
            && t.value.attempts[name].expected == Tip(Exec(head, steps).value, target)
  {
    hide Exec;
    ExecSnoc(head, steps, UserCommits(now));
    ExecSnoc(head, steps + [UserCommits(now)], Prepare(name, target));
  }

  /* ----- the end of an attempt whose run is gone ----- */

  /** What a sweep records, given what it found. */
  function Salvaged(a: Attempt, found: Option<Commit>): Option<Commit> {
    if found.Just? && !(a.baseFile && found.value in History(a.base)) then found else a.salvage
  }

  function Swept(a: Attempt, found: Option<Commit>): Attempt { Cleaned(a).(salvage := Salvaged(a, found)) }

  lemma Remove(w: World, checkedOut: bool, ms: seq<Move>, a: Attempt) returns (moves: seq<Move>)
    requires Runs(w, checkedOut, ms) == Just(World(a, w.tip))
    requires a.helper == Removing(false)
    ensures Runs(w, checkedOut, moves) == Just(World(a.(dir := Nothing, helper := Removing(true)), w.tip))
  {
    hide Runs;
    Then(w, checkedOut, ms, a, OnMachine(RemoveWorktree), a.(dir := Nothing, helper := Removing(true)));
    moves := ms + [OnMachine(RemoveWorktree)];
  }

  /** A sweep up to the removal of the worktree; HEAD may be on the internal branch, which then follows it. */
  lemma SweepDirectory(w: World, checkedOut: bool, ms: seq<Move>, a: Attempt, onBranch: bool)
    returns (moves: seq<Move>)
    requires Runs(w, checkedOut, ms) == Just(World(a, w.tip)) && !a.owned && a.dir.Just?
    ensures var c := Sealed(a.dir.value);
            Runs(w, checkedOut, moves) == Just(World(a.(running := false, dir := Nothing, helper := Removing(true),
              branch := if onBranch && a.branch.Just? then Just(c) else a.branch,
              salvage := Salvaged(a, Just(c))), w.tip))
  {
    hide Runs, Sealed, History;
    var c := Sealed(a.dir.value);
    var a1 := a.(helper := Free);
    var a2 := a1.(running := false, helper := Sweeping(false));
    var a3 := a2.(dir := Just(Checkout(c, Nothing)), helper := Sweeping(true),
                  branch := if onBranch && a.branch.Just? then Just(c) else a.branch);
    var a4 := a3.(salvage := Salvaged(a, Just(c)), helper := Removing(false));
    Then(w, checkedOut, ms, a, OnMachine(HelperDies), a1);
    moves := ms + [OnMachine(HelperDies)];
    Then(w, checkedOut, moves, a1, OnMachine(SweepBegins), a2);
    moves := moves + [OnMachine(SweepBegins)];
    Then(w, checkedOut, moves, a2, OnMachine(SweepSnapshots(onBranch)), a3);
    moves := moves + [OnMachine(SweepSnapshots(onBranch))];
    Then(w, checkedOut, moves, a3, OnMachine(SweepSalvages), a4);
    moves := moves + [OnMachine(SweepSalvages)];
    moves := Remove(w, checkedOut, moves, a4);
  }

  /** A sweep that finds no worktree, to its end. */
  lemma SweepRest(w: World, checkedOut: bool, ms: seq<Move>, a: Attempt) returns (moves: seq<Move>)
    requires Runs(w, checkedOut, ms) == Just(World(a, w.tip)) && !a.owned && a.dir.Nothing?
    ensures Runs(w, checkedOut, moves) == Just(World(Swept(a, a.branch), w.tip))
  {
    hide Runs, Sealed, History;
    var a1 := a.(helper := Free);
    var a2 := a1.(running := false, helper := Sweeping(true));
    var a3 := a2.(salvage := Salvaged(a, a.branch), helper := Removing(false));
    Then(w, checkedOut, ms, a, OnMachine(HelperDies), a1);
    moves := ms + [OnMachine(HelperDies)];
    Then(w, checkedOut, moves, a1, OnMachine(SweepBegins), a2);
    moves := moves + [OnMachine(SweepBegins)];
    Then(w, checkedOut, moves, a2, OnMachine(SweepSalvages), a3);
    moves := moves + [OnMachine(SweepSalvages)];
    moves := Remove(w, checkedOut, moves, a3);
    Then(w, checkedOut, moves, a3.(helper := Removing(true)), OnMachine(RemoveRefs), Swept(a, a.branch));
    moves := moves + [OnMachine(RemoveRefs)];
  }

  lemma RunDies(w: World, checkedOut: bool) returns (moves: seq<Move>)
    ensures Runs(w, checkedOut, moves) == Just(World(w.a.(owned := false), w.tip))
  {
    if w.a.owned {
      RunsOne(w, checkedOut, OfRun(RunEnds), w.a.(owned := false));
      moves := [OfRun(RunEnds)];
    } else {
      RunsNothing(w, checkedOut);
      moves := [];
    }
  }

  /**
   The sweep of an attempt from wherever it was left, and the sweep after one that died having removed the
   worktree.
   */
  lemma Sweep(w: World, checkedOut: bool, dies: bool, onBranch: bool) returns (moves: seq<Move>)
    ensures Runs(w, checkedOut, moves) == Just(World(
              if w.a.dir.Nothing? then Swept(w.a, w.a.branch).(owned := false)
              else
                var c := Sealed(w.a.dir.value);
                var b := w.a.(salvage := Salvaged(w.a, Just(c)), owned := false);
                if dies then Swept(b, if onBranch && w.a.branch.Just? then Just(c) else w.a.branch) else Cleaned(b),
              w.tip))
  {
    hide Runs, Sealed, History;
    moves := RunDies(w, checkedOut);
    var a := w.a.(owned := false);
    if a.dir.Nothing? {
      moves := SweepRest(w, checkedOut, moves, a);
    } else {
      var c := Sealed(a.dir.value);
      moves := SweepDirectory(w, checkedOut, moves, a, onBranch);
      var b := a.(running := false, dir := Nothing, helper := Removing(true),
                  branch := if onBranch && a.branch.Just? then Just(c) else a.branch, salvage := Salvaged(a, Just(c)));
      if dies {
        moves := SweepRest(w, checkedOut, moves, b);
      } else {
        Then(w, checkedOut, moves, b, OnMachine(RemoveRefs), Cleaned(b));
        moves := moves + [OnMachine(RemoveRefs)];
      }
    }
  }

  /**
   In any run, an attempt can be swept once its run is gone, wherever that left it: nothing of it stays on the
   machine but what the agent left, which is its base's or salvaged, even if the sweep itself dies between removing
   the worktree and its refs and another one finishes, as long as the agent's HEAD was on the internal branch.
   */
  lemma DeadRunIsSwept(head: Commit, steps: seq<Step>, name: string, dies: bool) returns (more: seq<Step>)
    requires Exec(head, steps).Just? && name in Exec(head, steps).value.attempts
    requires Exec(head, steps).value.attempts[name].dir.Just?
    requires dies ==> Exec(head, steps).value.attempts[name].branch.Just?
    ensures Exec(head, more).Just? && name in Exec(head, more).value.attempts
    ensures var s, t := Exec(head, steps).value, Exec(head, more).value;
            var a, b := s.attempts[name], t.attempts[name];
            && Gone(b) && !b.owned && b.last == a.last && b.verdict == a.verdict && (forall o :: Tip(t, o) == Tip(s, o))
            && b.salvage == if a.baseFile && Sealed(a.last) in History(a.base) then a.salvage else Just(Sealed(a.last))
  {
    hide Exec, Runs, Sealed, History;
    RemoteSafety.Reached(head, steps);
    var s := Exec(head, steps).value;
    var w, out := WorldOf(s, name), s.attempts[name].target in s.checkedOut;
    SealedWorktree(w.a, false);
    var moves := Sweep(w, out, dies, true);
    more := RunsIsExec(head, steps, name, moves);
  }

  /** An agent that left nothing leaves nothing behind. */
  lemma IdleAgentLeavesNothing(head: Commit, steps: seq<Step>, name: string, target: string) returns (more: seq<Step>)
    requires Exec(head, steps).Just? && name !in Exec(head, steps).value.attempts
    ensures Exec(head, more).Just? && name in Exec(head, more).value.attempts
    ensures var a := Exec(head, more).value.attempts[name]; Gone(a) && a.salvage.Nothing?
  {
    hide Exec, Runs;
    ExecSnoc(head, steps, Prepare(name, target));
    ExecSnoc(head, steps + [Prepare(name, target)], At(name, OnMachine(AddWorktree)));
    more := DeadRunIsSwept(head, steps + [Prepare(name, target)] + [At(name, OnMachine(AddWorktree))], name, false);
  }

  /* ----- what comes before what ----- */

  /** A command that holds the lock goes on until it is done or its helper dies. */
  predicate GoesOn(h: Helper, k: Helper) {
    || k == h || k.Free?
    || (h == Collecting(false) && k == Collecting(true))
    || (h == Sweeping(false) && k == Sweeping(true))
    || (h == Sweeping(true) && k == Removing(false))
    || (h == Removing(false) && k == Removing(true))
  }

  /**
   A lock is held to the end of its command, and taken for a collection after the turns, for a sweep after the run,
   or for a cleanup after either. The agent edits its worktree only while it runs.
   */
  predicate CommandsInTime(a: Attempt, b: Attempt) {
    && (!a.helper.Free? ==> GoesOn(a.helper, b.helper))
    && (b.helper.Collecting? && !a.helper.Collecting? ==>
         a.dir.Just? && !b.running && !a.side.Preparing? && !a.side.Discarding? && !a.side.Working?)
    && (b.helper.Sweeping? && !a.helper.Sweeping? ==> !a.owned && !b.running)
    && (b.helper.Removing? && !a.helper.Removing? ==>
         a.helper == Sweeping(true) ||
           (a.owned && !b.running && (a.side.Discarding? || (a.side.Collected? && !a.side.ok))))
    && (b.running && !a.running ==> a.owned && a.side.Working? && a.dir.Just?)
    && (b.last != a.last ==> a.running && b.running && a.dir.Just? && b.dir == Just(b.last))
  }

  /** The run goes through its stages in order, and goes back once: from a collection that failed a success. */
  predicate StagesInOrder(a: Attempt, b: Attempt, tip: Option<Commit>, checkedOut: bool) {
    match b.side
    case Preparing => false
    case Working => a.side.Preparing? && a.dir.Just?
    case Discarding => a.side.Preparing?
    case Asking(ok) =>
      if a.side.Working? then b.verdict == if ok then Unwritten else Failed
      else (a.side.Asking? || a.side.Received? || a.side.Fetched?) && a.side.ok && !ok && b.verdict.Failed?
    case Received(ok, head) => a.side == Asking(ok) && a.dir.Just? && head == a.dir.value.head
    case Fetched(ok, head) => a.side == Received(ok, head) && b.incoming == Just(head)
    case Published(ok, head) => a.side == Fetched(ok, head) && tip == a.expected && !checkedOut
    case Collected(ok, changed) =>
      || (a.side == Asking(ok) && changed.Nothing? && a.dir.Just? && a.dir.value.head in History(a.base))
      || (a.side.Published? && a.side.ok == ok && changed == Just(a.side.head))
      || (a.side == Collected(true, changed) && !ok && b.verdict == Succeeded(changed))
    case Ended => (a.side.Asking? || a.side.Received? || a.side.Fetched?) && !a.side.ok && !b.owned
  }

  lemma HelperInOrder(a: Attempt, tip: Option<Commit>, checkedOut: bool, m: HelperMove)
    requires HelperAct(a, m).Just?
    ensures var b := HelperAct(a, m).value; b.side == a.side || (a.owned && StagesInOrder(a, b, tip, checkedOut))
  {
    hide History, Sealed, NeedsSalvage, SalvageHead;
  }

  lemma RunInOrder(a: Attempt, tip: Option<Commit>, checkedOut: bool, m: RunMove)
    requires RunAct(a, tip, checkedOut, m).Just?
    ensures var b := RunAct(a, tip, checkedOut, m).value;
            b.side == a.side || (a.owned && StagesInOrder(a, b, tip, checkedOut))
  {
    hide History;
  }

  lemma HelperInTime(a: Attempt, m: HelperMove)
    requires HelperAct(a, m).Just?
    ensures CommandsInTime(a, HelperAct(a, m).value)
  {
    hide History, Sealed, NeedsSalvage, SalvageHead;
  }

  lemma RunInTime(a: Attempt, tip: Option<Commit>, checkedOut: bool, m: RunMove)
    requires RunAct(a, tip, checkedOut, m).Just?
    ensures CommandsInTime(a, RunAct(a, tip, checkedOut, m).value)
  {
    hide History, MayPublish;
  }

  /** Every step of an attempt takes the stages of its run in order, and the commands on its machine in their time. */
  lemma StepsInOrder(a: Attempt, tip: Option<Commit>, checkedOut: bool, m: Move)
    requires Act(a, tip, checkedOut, m).Just?
    ensures var b := Act(a, tip, checkedOut, m).value;
            && (b.side == a.side || (a.owned && StagesInOrder(a, b, tip, checkedOut)))
            && CommandsInTime(a, b)
  {
    hide HelperAct, RunAct, StagesInOrder, CommandsInTime;
    match m
    case OnMachine(h) => HelperInOrder(a, tip, checkedOut, h); HelperInTime(a, h);
    case OfRun(r) => RunInOrder(a, tip, checkedOut, r); RunInTime(a, tip, checkedOut, r);
  }

  /** The internal refs of an attempt go after its worktree. */
  lemma RefsGoLast(head: Commit, steps: seq<Step>, name: string)
    requires Exec(head, steps).Just? && Exec(head, steps + [At(name, OnMachine(RemoveRefs))]).Just?
    ensures name in Exec(head, steps).value.attempts && Exec(head, steps).value.attempts[name].dir.Nothing?
  {
    hide Exec;
    ExecSnoc(head, steps, At(name, OnMachine(RemoveRefs)));
    RemovedIsGone(head, steps);
  }

  lemma {:induction false} RemovedIsGone(head: Commit, steps: seq<Step>)
    requires Exec(head, steps).Just?
    ensures var s := Exec(head, steps).value;
            forall n :: n in s.attempts && s.attempts[n].helper == Removing(true) ==> s.attempts[n].dir.Nothing?
  {
    hide Act;
    if steps != [] {
      var n := |steps| - 1;
      var s := Exec(head, steps[..n]).value;
      RemovedIsGone(head, steps[..n]);
      RemoteSafety.Reached(head, steps[..n]);
      if steps[n].At? {
        var a := s.attempts[steps[n].name];
        ActRemoves(a, Tip(s, a.target), a.target in s.checkedOut, steps[n].move);
      }
    }
  }

  lemma ActRemoves(a: Attempt, tip: Option<Commit>, checkedOut: bool, m: Move)
    requires Sound(a) && Act(a, tip, checkedOut, m).Just? && (a.helper == Removing(true) ==> a.dir.Nothing?)
    ensures var b := Act(a, tip, checkedOut, m).value; b.helper == Removing(true) ==> b.dir.Nothing?
  {
    hide HelperAct, RunAct, SideSound, VerdictSound, RefsSound;
    match m
    case OnMachine(h) => HelperRemoves(a, h);
    case OfRun(r) => RunRemoves(a, tip, checkedOut, r);
  }

  lemma HelperRemoves(a: Attempt, m: HelperMove)
    requires HelperSound(a) && HelperAct(a, m).Just? && (a.helper == Removing(true) ==> a.dir.Nothing?)
    ensures var b := HelperAct(a, m).value; b.helper == Removing(true) ==> b.dir.Nothing?
  {
    hide History, Sealed, NeedsSalvage, SalvageHead;
  }

  lemma RunRemoves(a: Attempt, tip: Option<Commit>, checkedOut: bool, m: RunMove)
    requires RunAct(a, tip, checkedOut, m).Just? && (a.helper == Removing(true) ==> a.dir.Nothing?)
    ensures var b := RunAct(a, tip, checkedOut, m).value; b.helper == Removing(true) ==> b.dir.Nothing?
  {
    hide History, MayPublish;
  }

  /** What is journaled stays: a success never becomes a failure, nor a failure a success. */
  lemma VerdictIsFinal(head: Commit, steps: seq<Step>, step: Step, name: string)
    requires Exec(head, steps + [step]).Just? && Exec(head, steps).Just? && name in Exec(head, steps).value.attempts
    requires !Exec(head, steps).value.attempts[name].verdict.Unwritten?
    ensures name in Exec(head, steps + [step]).value.attempts
    ensures Exec(head, steps + [step]).value.attempts[name].verdict == Exec(head, steps).value.attempts[name].verdict
  {
    hide Exec, Act, Sound;
    RemoteSafety.Reached(head, steps);
    ExecSnoc(head, steps, step);
    var s := Exec(head, steps).value;
    if step.At? && step.name == name {
      ActKeepsVerdict(s.attempts[name], Tip(s, s.attempts[name].target), s.attempts[name].target in s.checkedOut,
        step.move);
    }
  }

  lemma ActKeepsVerdict(a: Attempt, tip: Option<Commit>, checkedOut: bool, m: Move)
    requires Sound(a) && Act(a, tip, checkedOut, m).Just? && !a.verdict.Unwritten?
    ensures Act(a, tip, checkedOut, m).value.verdict == a.verdict
  {
    hide HelperAct, RunAct, SideSound, HelperSound, RefsSound, Settled;
    match m
    case OnMachine(h) => HelperKeepsVerdict(a, h);
    case OfRun(r) => RunKeepsVerdict(a, tip, checkedOut, r);
  }

  lemma HelperKeepsVerdict(a: Attempt, m: HelperMove)
    requires HelperAct(a, m).Just?
    ensures HelperAct(a, m).value.verdict == a.verdict
  {
    hide History, Sealed, NeedsSalvage, SalvageHead;
  }

  lemma RunKeepsVerdict(a: Attempt, tip: Option<Commit>, checkedOut: bool, m: RunMove)
    requires VerdictSound(a) && RunAct(a, tip, checkedOut, m).Just? && !a.verdict.Unwritten?
    ensures RunAct(a, tip, checkedOut, m).value.verdict == a.verdict
  {
    hide History, MayPublish, Settled;
  }
}
