/** No attempt's work is ever lost, success implies publication, and exactly which ref updates endanger that. */
module RemoteSafety {
  import opened Options
  import opened Commits
  import opened Remote

  /* ----- one step of one attempt, in any run ----- */

  lemma HelperStepVerdict(a: Attempt, m: HelperMove)
    requires Sound(a) && HelperAct(a, m).Just?
    ensures VerdictSound(HelperAct(a, m).value)
  {
    hide History, Sealed, NeedsSalvage, SalvageHead, RefsSound;
  }

  lemma HelperStepHelper(a: Attempt, m: HelperMove)
    requires Sound(a) && HelperAct(a, m).Just?
    ensures HelperSound(HelperAct(a, m).value)
  {
    SealKeepsHead(a.last);
    hide History, Sealed, NeedsSalvage, SalvageHead, VerdictSound, Settled;
  }

  lemma HelperStepRefs(a: Attempt, m: HelperMove)
    requires Sound(a) && HelperAct(a, m).Just?
    ensures RefsSound(HelperAct(a, m).value)
  {
    SealKeepsHead(a.last);
    hide History, Sealed, NeedsSalvage, SalvageHead, VerdictSound, Settled;
  }

  lemma HelperStepSide(a: Attempt, m: HelperMove)
    requires Sound(a) && HelperAct(a, m).Just?
    ensures SideSound(HelperAct(a, m).value)
  {
    hide History, Sealed, NeedsSalvage, SalvageHead, VerdictSound;
  }

  lemma RunStepVerdict(a: Attempt, tip: Option<Commit>, checkedOut: bool, m: RunMove)
    requires Sound(a) && RunAct(a, tip, checkedOut, m).Just?
    ensures VerdictSound(RunAct(a, tip, checkedOut, m).value)
  {
    hide History, Sealed, RefsSound;
  }

  lemma RunStepHelper(a: Attempt, tip: Option<Commit>, checkedOut: bool, m: RunMove)
    requires Sound(a) && RunAct(a, tip, checkedOut, m).Just?
    ensures HelperSound(RunAct(a, tip, checkedOut, m).value) && RefsSound(RunAct(a, tip, checkedOut, m).value)
  {
    hide History, Sealed, VerdictSound, Settled;
  }

  lemma RunStepSide(a: Attempt, tip: Option<Commit>, checkedOut: bool, m: RunMove)
    requires Sound(a) && RunAct(a, tip, checkedOut, m).Just?
    ensures SideSound(RunAct(a, tip, checkedOut, m).value)
  {
    hide History, Sealed, VerdictSound;
  }

  lemma ActKeepsSound(a: Attempt, tip: Option<Commit>, checkedOut: bool, m: Move)
    requires Sound(a) && Act(a, tip, checkedOut, m).Just?
    ensures Sound(Act(a, tip, checkedOut, m).value)
  {
    hide HelperAct, RunAct, SideSound, HelperSound, RefsSound, VerdictSound;
    match m
    case OnMachine(h) =>
      HelperStepVerdict(a, h);
      HelperStepHelper(a, h);
      HelperStepRefs(a, h);
      HelperStepSide(a, h);
    case OfRun(r) =>
      RunStepVerdict(a, tip, checkedOut, r);
      RunStepHelper(a, tip, checkedOut, r);
      RunStepSide(a, tip, checkedOut, r);
  }

  /* ----- keeping the work ----- */

  /** The branch's tip after an attempt's step. */
  function TipAfter(a: Attempt, tip: Option<Commit>, m: Move): Option<Commit> {
    if m == OfRun(Publish) && a.side.Fetched? then Just(a.side.head) else tip
  }

  lemma HistoryIsReflexive(c: Commit)
    ensures c in History(c)
  {}

  /** What is secured stays secured when refs only gain commits. */
  lemma RefsGrow(a: Attempt, b: Attempt, tip: Option<Commit>, to: Option<Commit>)
    requires a.last == b.last && a.base == b.base
    requires Reachable(a.salvage) <= Reachable(b.salvage) && Reachable(a.incoming) <= Reachable(b.incoming) &&
               Reachable(tip) <= Reachable(to)
    ensures Secured(a, tip) ==> Secured(b, to)
  {
    hide History, Reachable, Sealed;
  }

  lemma BranchGrows(a: Attempt, tip: Option<Commit>, to: Option<Commit>)
    requires Kept(a, tip) && Reachable(tip) <= Reachable(to)
    ensures Kept(a, to)
  {
    RefsGrow(a, a, tip, to);
    hide History, Reachable, Sealed, Secured;
  }

  /** A worktree goes only once its work is secured; a salvage secures it first. */
  lemma HelperKeepsWork(a: Attempt, tip: Option<Commit>, m: HelperMove)
    requires Sound(a) && Kept(a, tip) && HelperAct(a, m).Just? && !m.SweepSalvages?
    ensures Kept(HelperAct(a, m).value, tip)
  {
    var b := HelperAct(a, m).value;
    HelperStepRefs(a, m);
    hide History, Sealed, VerdictSound, Secured, Reachable, InWorktree, HelperSound;
    if b.last == a.last { RefsGrow(a, b, tip, tip); }
  }

  lemma SalvageKeepsWork(a: Attempt, tip: Option<Commit>)
    requires a.helper == Sweeping(true) && Sound(a) && Kept(a, tip)
    requires Forward(a, tip, OnMachine(SweepSalvages))
    ensures Kept(HelperAct(a, SweepSalvages).value, tip)
  {
    var b := HelperAct(a, SweepSalvages).value;
    HistoryIsReflexive(Sealed(a.last));
    if NeedsSalvage(a) && a.dir.Nothing? {
      UpdateKeepsHistory(a.salvage, SalvageHead(a).value);
      RefsGrow(a, b, tip, tip);
    } else if a.dir.Nothing? {
      RefsGrow(a, b, tip, tip);
    }
    hide History, Sealed, VerdictSound, FastForward, SideSound;
  }

  lemma RunKeepsWork(a: Attempt, tip: Option<Commit>, checkedOut: bool, m: RunMove)
    requires Sound(a) && Kept(a, tip) && RunAct(a, tip, checkedOut, m).Just?
    requires !m.Publish? && !m.Fetch? && !m.DropIncoming? && !m.CleanupBegins?
    ensures Kept(RunAct(a, tip, checkedOut, m).value, tip)
  {
    RefsGrow(a, RunAct(a, tip, checkedOut, m).value, tip, tip);
    hide History, Sealed, VerdictSound, HelperSound, Secured, Reachable, RefsSound;
  }

  /** The incoming ref goes only once the branch has the work. */
  lemma IncomingKeepsWork(a: Attempt, tip: Option<Commit>, checkedOut: bool, m: RunMove)
    requires Sound(a) && Kept(a, tip) && RunAct(a, tip, checkedOut, m).Just? && (m.Fetch? || m.DropIncoming?)
    ensures Kept(RunAct(a, tip, checkedOut, m).value, tip)
  {
    HistoryIsReflexive(Sealed(a.last));
    hide History, Sealed, VerdictSound, HelperSound;
  }

  /** Only collected work, or none, is cleaned up. */
  lemma CleanupKeepsWork(a: Attempt, tip: Option<Commit>, checkedOut: bool)
    requires Sound(a) && Kept(a, tip) && RunAct(a, tip, checkedOut, CleanupBegins).Just?
    ensures Kept(RunAct(a, tip, checkedOut, CleanupBegins).value, tip)
  {
    HistoryIsReflexive(a.base);
    assert Sealed(Checkout(a.base, Nothing)) == a.base;
    hide History, Sealed, VerdictSound, HelperSound;
  }

  lemma PublishKeepsWork(a: Attempt, tip: Option<Commit>, checkedOut: bool)
    requires Sound(a) && Kept(a, tip) && RunAct(a, tip, checkedOut, Publish).Just? && FastForward(tip, a.side.head)
    ensures Kept(RunAct(a, tip, checkedOut, Publish).value, Just(a.side.head))
  {
    UpdateKeepsHistory(tip, a.side.head);
    BranchGrows(a, tip, Just(a.side.head));
    HistoryIsReflexive(a.side.head);
    RefsGrow(a, RunAct(a, tip, checkedOut, Publish).value, Just(a.side.head), Just(a.side.head));
    hide History, FastForward, HelperSound, VerdictSound, Secured, Sealed;
  }

  lemma ActKeepsWork(a: Attempt, tip: Option<Commit>, checkedOut: bool, m: Move)
    requires Sound(a) && Kept(a, tip) && Act(a, tip, checkedOut, m).Just? && Forward(a, tip, m)
    ensures Kept(Act(a, tip, checkedOut, m).value, TipAfter(a, tip, m))
  {
    hide Sound, Kept, FastForward, NeedsSalvage, SalvageHead;
    match m
    case OnMachine(h) => if h.SweepSalvages? { SalvageKeepsWork(a, tip); } else { HelperKeepsWork(a, tip, h); }
    case OfRun(r) =>
      match r {
        case Publish => PublishKeepsWork(a, tip, checkedOut);
        case Fetch | DropIncoming => IncomingKeepsWork(a, tip, checkedOut, r);
        case CleanupBegins => CleanupKeepsWork(a, tip, checkedOut);
        case _ => RunKeepsWork(a, tip, checkedOut, r);
      }
  }

  /* ----- whole runs ----- */

  ghost predicate AllSound(s: State) { forall n :: n in s.attempts ==> Sound(s.attempts[n]) }

  ghost predicate AllKept(s: State) {
    forall n :: n in s.attempts ==> Kept(s.attempts[n], Tip(s, s.attempts[n].target))
  }

  lemma NewIsSound(base: Commit, target: string, tip: Option<Commit>)
    ensures Sound(New(base, target, tip)) && Kept(New(base, target, tip), tip)
  {}

  lemma NextKeepsSound(s: State, step: Step)
    requires AllSound(s) && Next(s, step).Just?
    ensures AllSound(Next(s, step).value)
  {
    hide Act, Sound;
    match step
    case Prepare(name, target) => NewIsSound(s.head, target, Tip(s, target));
    case At(name, m) =>
      var a := s.attempts[name];
      ActKeepsSound(a, Tip(s, a.target), a.target in s.checkedOut, m);
    case _ =>
  }

  lemma HelperTarget(a: Attempt, m: HelperMove)
    requires HelperAct(a, m).Just?
    ensures var b := HelperAct(a, m).value; b.target == a.target && b.expected == a.expected && b.base == a.base
  {
    hide NeedsSalvage, SalvageHead, Sealed, History;
  }

  lemma RunTarget(a: Attempt, tip: Option<Commit>, checkedOut: bool, m: RunMove)
    requires RunAct(a, tip, checkedOut, m).Just?
    ensures var b := RunAct(a, tip, checkedOut, m).value;
              b.target == a.target && b.expected == a.expected && b.base == a.base
    ensures m.Publish? ==>
              a.side.Fetched? && RunAct(a, tip, checkedOut, m).value.side == Published(a.side.ok, a.side.head)
  {}

  /** An attempt keeps its target, and a publish is of the fetched head. */
  lemma ActTarget(a: Attempt, tip: Option<Commit>, checkedOut: bool, m: Move)
    requires Act(a, tip, checkedOut, m).Just?
    ensures var b := Act(a, tip, checkedOut, m).value;
              b.target == a.target && b.expected == a.expected && b.base == a.base
    ensures m == OfRun(Publish) ==>
              a.side.Fetched? && Act(a, tip, checkedOut, m).value.side == Published(a.side.ok, a.side.head)
  {
    hide HelperAct, RunAct;
    match m
    case OnMachine(h) => HelperTarget(a, h);
    case OfRun(r) => RunTarget(a, tip, checkedOut, r);
  }

  lemma BranchMoves(s: State, branch: string, to: Commit)
    requires AllKept(s) && FastForward(Tip(s, branch), to)
    ensures AllKept(s.(branches := s.branches[branch := to]))
  {
    hide Kept, Reachable, FastForward;
    UpdateKeepsHistory(Tip(s, branch), to);
    var t := s.(branches := s.branches[branch := to]);
    assert Tip(t, branch) == Just(to) && History(to) == Reachable(Just(to)) by { JustReaches(to); }
    forall n | n in t.attempts ensures Kept(t.attempts[n], Tip(t, t.attempts[n].target)) {
      var target := s.attempts[n].target;
      if target == branch { BranchGrows(s.attempts[n], Tip(s, target), Tip(t, target)); }
      else { assert Tip(s, target) == Tip(t, target); }
    }
  }

  lemma JustReaches(c: Commit)
    ensures Reachable(Just(c)) == History(c)
  {}

  lemma NextKeepsWork(s: State, step: Step)
    requires AllSound(s) && AllKept(s) && Next(s, step).Just? && MovesForward(s, step)
    ensures AllKept(Next(s, step).value)
  {
    hide Act, Sound, Kept, Reachable, History, FastForward, AllKept;
    match step
    case Prepare(name, target) =>
      NewIsSound(s.head, target, Tip(s, target));
      AddKept(s, name, New(s.head, target, Tip(s, target)));
    case UserMoves(branch, to) => BranchMoves(s, branch, to);
    case At(name, m) =>
      var a := s.attempts[name];
      var tip := Tip(s, a.target);
      ActTarget(a, tip, a.target in s.checkedOut, m);
      var b := Act(a, tip, a.target in s.checkedOut, m).value;
      AttemptKept(s, name);
      ActKeepsWork(a, tip, a.target in s.checkedOut, m);
      if m == OfRun(Publish) { BranchMoves(s, a.target, a.side.head); }
      AddKept(if m == OfRun(Publish) then s.(branches := s.branches[a.target := a.side.head]) else s, name, b);
    case UserCommits(head) => AddNothing(s, Next(s, step).value);
    case UserChecksOut(names) => AddNothing(s, Next(s, step).value);
  }

  lemma AttemptKept(s: State, name: string)
    requires AllKept(s) && name in s.attempts
    ensures Kept(s.attempts[name], Tip(s, s.attempts[name].target))
  {}

  lemma AddKept(s: State, name: string, a: Attempt)
    requires AllKept(s) && Kept(a, Tip(s, a.target))
    ensures AllKept(s.(attempts := s.attempts[name := a]))
  {
    hide Kept;
    var t := s.(attempts := s.attempts[name := a]);
    assert forall b: string :: Tip(t, b) == Tip(s, b);
  }

  lemma AddNothing(s: State, t: State)
    requires AllKept(s) && s.attempts == t.attempts && s.branches == t.branches
    ensures AllKept(t)
  {
    hide Kept;
    assert forall b: string :: Tip(t, b) == Tip(s, b);
  }

  lemma {:induction false} Reached(head: Commit, steps: seq<Step>)
    requires Exec(head, steps).Just?
    ensures AllSound(Exec(head, steps).value)
  {
    hide Next, Sound;
    if steps != [] {
      var n := |steps| - 1;
      Reached(head, steps[..n]);
      NextKeepsSound(Exec(head, steps[..n]).value, steps[n]);
    }
  }

  /** No step of the run overwrites a ref with a commit that does not descend from the one it held. */
  predicate Careful(head: Commit, steps: seq<Step>)
    requires Exec(head, steps).Just?
  {
    steps == []
    || (var n := |steps| - 1;
        Careful(head, steps[..n]) && MovesForward(Exec(head, steps[..n]).value, steps[n]))
  }

  lemma {:induction false} CarefulKeepsAll(head: Commit, steps: seq<Step>)
    requires Exec(head, steps).Just? && Careful(head, steps)
    ensures AllKept(Exec(head, steps).value)
  {
    hide Next, Sound, Kept, MovesForward;
    if steps != [] {
      var n := |steps| - 1;
      CarefulKeepsAll(head, steps[..n]);
      Reached(head, steps[..n]);
      NextKeepsWork(Exec(head, steps[..n]).value, steps[n]);
    }
  }

  /**
   No work lost: whatever dies, and in whatever order prepares, agents, collections, publishes,
   cleanups and sweeps happen, everything every agent left, committed or not, still exists in its
   worktree, under its base, or behind its salvage ref, its incoming ref or its branch.
   */
  lemma NoWorkIsLost(head: Commit, steps: seq<Step>, name: string)
    requires Exec(head, steps).Just? && Careful(head, steps) && name in Exec(head, steps).value.attempts
    ensures var s := Exec(head, steps).value; Held(s.attempts[name], Tip(s, s.attempts[name].target))
  {
    hide Exec, Careful, Held;
    CarefulKeepsAll(head, steps);
  }

  /**
   Success implies publication, in every run: a success is journaled only when what the agent last
   left went onto its branch by a compare-and-swap from the tip recorded at prepare, or was nothing
   beyond its base.
   */
  lemma SuccessIsPublished(head: Commit, steps: seq<Step>, name: string)
    requires Exec(head, steps).Just? && name in Exec(head, steps).value.attempts
    requires Exec(head, steps).value.attempts[name].verdict.Succeeded?
    ensures var a := Exec(head, steps).value.attempts[name];
            !a.running
            && if a.verdict.head.Just? then a.verdict.head.value == Sealed(a.last) &&
              a.swap == Just(Swap(a.expected, Sealed(a.last)))
               else Sealed(a.last) in History(a.base)
  {
    hide Exec, Sealed, History;
    Reached(head, steps);
  }

  /** A collection that failed its agent never publishes as a success afterwards. */
  lemma FailureIsFinal(head: Commit, steps: seq<Step>, name: string)
    requires Exec(head, steps).Just? && name in Exec(head, steps).value.attempts
    requires Exec(head, steps).value.attempts[name].verdict.Failed?
    ensures var a := Exec(head, steps).value.attempts[name];
            (a.side.Fetched? || a.side.Published? || a.side.Collected? ==> !a.side.ok)
            && !a.side.Working?
  {
    hide Exec, Sealed, History;
    Reached(head, steps);
  }

  /* ----- what the history variables record ----- */

  lemma HelperSwap(a: Attempt, m: HelperMove)
    requires HelperAct(a, m).Just?
    ensures HelperAct(a, m).value.swap == a.swap
  {
    hide NeedsSalvage, SalvageHead, Sealed, History;
  }

  lemma ActSwap(a: Attempt, tip: Option<Commit>, checkedOut: bool, m: Move)
    requires Act(a, tip, checkedOut, m).Just?
    ensures var b := Act(a, tip, checkedOut, m).value;
            if m == OfRun(Publish) then !checkedOut && b.swap == Just(Swap(tip, a.side.head)) && tip == a.expected
              else b.swap == a.swap
  {
    hide HelperAct;
    if m.OnMachine? { HelperSwap(a, m.h); }
  }

  /**
   What an attempt compares with is its branch's tip, and what it starts from the run's HEAD, when it was
   prepared.
   */
  lemma {:induction false} RecordedAtPrepare(head: Commit, steps: seq<Step>, name: string) returns (i: nat)
    requires Exec(head, steps).Just? && name in Exec(head, steps).value.attempts
    ensures i < |steps| && Exec(head, steps[..i]).Just?
    ensures var a, s := Exec(head, steps).value.attempts[name], Exec(head, steps[..i]).value;
            steps[i] == Prepare(name, a.target) && name !in s.attempts && a.expected == Tip(s, a.target) &&
              a.base == s.head
  {
    hide Act;
    var n := |steps| - 1;
    var s := Exec(head, steps[..n]).value;
    if name in s.attempts {
      i := RecordedAtPrepare(head, steps[..n], name);
      assert steps[..n][..i] == steps[..i];
      if steps[n].At? && steps[n].name == name {
        var a := s.attempts[name];
        ActTarget(a, Tip(s, a.target), a.target in s.checkedOut, steps[n].move);
      }
    } else {
      i := n;
    }
  }

  /**
   A recorded swap took place: at that moment the branch was at the expected tip and not checked out, and went to
   the head.
   */
  lemma {:induction false} SwapTookPlace(head: Commit, steps: seq<Step>, name: string) returns (i: nat)
    requires Exec(head, steps).Just? && name in Exec(head, steps).value.attempts
    requires Exec(head, steps).value.attempts[name].swap.Just?
    ensures i < |steps| && Exec(head, steps[..i]).Just? && Exec(head, steps[..i + 1]).Just?
    ensures var a := Exec(head, steps).value.attempts[name];
            var s, t := Exec(head, steps[..i]).value, Exec(head, steps[..i + 1]).value;
            steps[i] == At(name, OfRun(Publish)) && a.target !in s.checkedOut
            && Tip(s, a.target) == a.swap.value.expected && Tip(t, a.target) == Just(a.swap.value.head)
  {
    hide Act;
    var n := |steps| - 1;
    var s := Exec(head, steps[..n]).value;
    assert steps[..n + 1] == steps;
    if steps[n].At? && steps[n].name == name {
      var a := s.attempts[name];
      ActTarget(a, Tip(s, a.target), a.target in s.checkedOut, steps[n].move);
      ActSwap(a, Tip(s, a.target), a.target in s.checkedOut, steps[n].move);
    }
    if steps[n] == At(name, OfRun(Publish)) {
      i := n;
    } else {
      i := SwapTookPlace(head, steps[..n], name);
      assert steps[..n][..i] == steps[..i] && steps[..n][..i + 1] == steps[..i + 1];
    }
  }
}
