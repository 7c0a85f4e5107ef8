/**
 Remote agents (src/remote/agent.ts, src/remote/helper.ts, src/runtime/primitives.ts).

 Each attempt has a worktree on another machine, driven from two sides: the run (prepare, run,
 collect, publish, journal, cleanup) and the machine's helper, whose commands hold the attempt's lock
 and may die at any point, as may the run. A later helper sweeps what a dead run left. One step of
 this model is one ref, worktree or journal update; steps of all attempts interleave freely.
 */
module Remote {
  import opened Options
  import opened Commits

  /** The helper command holding the attempt's lock, by what it has done so far. */
  datatype Helper = Free | Adding | Collecting(snapped: bool) | Sweeping(snapped: bool) | Removing(gone: bool)

  /**
   Where the run is with its attempt. `ok` tells the collection of a successful turn from the one
   made for a failed agent; `changed` is the published head, if there was anything to publish.
   */
  datatype Side =
    | Preparing
    | Discarding
    | Working
    | Asking(ok: bool)
    | Received(ok: bool, head: Commit)
    | Fetched(ok: bool, head: Commit)
    | Published(ok: bool, head: Commit)
    | Collected(ok: bool, changed: Option<Commit>)
    | Ended

  datatype Verdict = Unwritten | Succeeded(head: Option<Commit>) | Failed

  /** A compare-and-swap of the local branch that went through. */
  datatype Swap = Swap(expected: Option<Commit>, head: Commit)

  /** `last` (what the agent last left in its worktree) and `swap` are history: no step reads them. */
  datatype Attempt = Attempt(
    base: Commit, target: string, expected: Option<Commit>,
    dir: Option<Checkout>, branch: Option<Commit>, baseFile: bool, out: Option<Commit>, salvage: Option<Commit>,
    running: bool, helper: Helper,
    side: Side, owned: bool, aborted: bool, incoming: Option<Commit>, verdict: Verdict,
    last: Checkout, swap: Option<Swap>)

  /** What happens on the machine: the agent, and the helper's commands, which may die between steps. */
  datatype HelperMove =
    | AddWorktree
    | Edit(left: Checkout, branch: Option<Commit>)
    | StopRun
    | CollectBegins | CollectSnapshots(onBranch: bool) | CollectEnds(delivered: bool)
    | SweepBegins | SweepSnapshots(onBranch: bool) | SweepSalvages
    | RemoveWorktree | RemoveRefs
    | HelperDies

  /** What the run does, up to its own death. */
  datatype RunMove =
    | PrepareReplied | PrepareFails
    | StartRun | TurnsEnd(ok: bool) | Abort
    | Fetch | Publish | DropIncoming | CollectFails
    | JournalSuccess | CleanupBegins
    | RunEnds

  datatype Move = OnMachine(h: HelperMove) | OfRun(r: RunMove)

  function New(base: Commit, target: string, expected: Option<Commit>): Attempt {
    Attempt(base, target, expected, Nothing, Nothing, true, Nothing, Nothing, false, Adding,
            Preparing, true, false, Nothing, Unwritten, Checkout(base, Nothing), Nothing)
  }

  /** snapshot(): commit whatever is uncommitted; the internal branch follows if HEAD is on it. */
  function Snapshot(a: Attempt, onBranch: bool): Attempt
    requires a.dir.Just?
  {
    var c := Sealed(a.dir.value);
    a.(dir := Just(Checkout(c, Nothing)), branch := if onBranch && a.branch.Just? then Just(c) else a.branch)
  }

  /** The head salvage() records: the worktree's, or the internal branch's when the worktree is gone. */
  function SalvageHead(a: Attempt): Option<Commit> {
    if a.dir.Just? then Just(a.dir.value.head) else a.branch
  }

  /** salvage() records the head unless it is known to hold nothing beyond the base. */
  predicate NeedsSalvage(a: Attempt) {
    SalvageHead(a).Just? && !(a.baseFile && SalvageHead(a).value in History(a.base))
  }

  /** May the run publish? Its branch must not be checked out, and a lost deadline race must not publish. */
  predicate MayPublish(a: Attempt, tip: Option<Commit>, checkedOut: bool) {
    a.side.Fetched? && !checkedOut && !(a.side.ok && a.aborted) && tip == a.expected
  }

  /** A step on the machine; Nothing when it is not enabled. */
  function HelperAct(a: Attempt, m: HelperMove): Option<Attempt> {
    match m
    case AddWorktree =>
      if !a.helper.Adding? then Nothing
      else Just(a.(dir := Just(Checkout(a.base, Nothing)), branch := Just(a.base), helper := Free))
    case Edit(left, branch) =>
      if !(a.running && a.dir.Just?) then Nothing else Just(a.(dir := Just(left), last := left, branch := branch))
    case StopRun => Just(a.(running := false))
    case CollectBegins =>
      // The call may outlive the run's wait for it, so it can begin at any time after it was made.
      if a.side.Preparing? || a.side.Discarding? || a.side.Working? || !a.helper.Free? || a.dir.Nothing? then Nothing
      else Just(a.(running := false, helper := Collecting(false)))
    case CollectSnapshots(onBranch) =>
      if !(a.helper.Collecting? && !a.helper.snapped && a.dir.Just?) then Nothing
      else Just(Snapshot(a, onBranch).(helper := Collecting(true)))
    case CollectEnds(delivered) =>
      if !(a.helper.Collecting? && a.helper.snapped && a.dir.Just?) then Nothing
      else
        var head := a.dir.value.head;
        var changed := head !in History(a.base);
        var b := a.(helper := Free, out := if changed then Just(head) else a.out);
        if !(delivered && a.owned && a.side.Asking?) then Just(b)
        else if changed then Just(b.(side := Received(a.side.ok, head)))
        else Just(b.(side := Collected(a.side.ok, Nothing)))
    case SweepBegins =>
      // Only a worktree whose run has gone, and whose lock is free.
      if a.owned || !a.helper.Free? then Nothing
      else Just(a.(running := false, helper := Sweeping(a.dir.Nothing?)))
    case SweepSnapshots(onBranch) =>
      if !(a.helper.Sweeping? && !a.helper.snapped && a.dir.Just?) then Nothing
      else Just(Snapshot(a, onBranch).(helper := Sweeping(true)))
    case SweepSalvages =>
      if a.helper != Sweeping(true) then Nothing
      else Just(a.(salvage := if NeedsSalvage(a) then SalvageHead(a) else a.salvage, helper := Removing(false)))
    case RemoveWorktree =>
      if a.helper != Removing(false) then Nothing else Just(a.(dir := Nothing, helper := Removing(true)))
    case RemoveRefs =>
      if a.helper != Removing(true) then Nothing
      else Just(a.(branch := Nothing, out := Nothing, baseFile := false, helper := Free))
    case HelperDies => Just(a.(helper := Free))
  }

  /** A step of the run, whose target branch is at `tip`; Nothing when it is not enabled. */
  function RunAct(a: Attempt, tip: Option<Commit>, checkedOut: bool, m: RunMove): Option<Attempt> {
    if !a.owned then Nothing
    else
      match m
      case PrepareReplied => if a.side.Preparing? && a.dir.Just? then Just(a.(side := Working)) else Nothing
      case PrepareFails => if a.side.Preparing? then Just(a.(side := Discarding)) else Nothing
      case StartRun => if a.side.Working? && a.dir.Just? then Just(a.(running := true)) else Nothing
      case TurnsEnd(ok) =>
        if a.side.Working? then Just(a.(side := Asking(ok), verdict := if ok then Unwritten else Failed)) else Nothing
      case Abort => Just(a.(aborted := true))
      case Fetch =>
        if a.side.Received? then Just(a.(incoming := Just(a.side.head), side := Fetched(a.side.ok, a.side.head)))
          else Nothing
      case Publish =>
        if MayPublish(a, tip, checkedOut) then
          Just(a.(side := Published(a.side.ok, a.side.head), swap := Just(Swap(tip, a.side.head))))
        else Nothing
      case DropIncoming =>
        if a.side.Published? then Just(a.(incoming := Nothing, side := Collected(a.side.ok, Just(a.side.head))))
          else Nothing
      case CollectFails =>
        // A failed collection fails the agent, which is collected once more; a second failure keeps the worktree.
        if !(a.side.Asking? || a.side.Received? || a.side.Fetched?) then Nothing
        else if a.side.ok then Just(a.(side := Asking(false), verdict := Failed))
        else Just(a.(side := Ended, owned := false))
      case JournalSuccess =>
        if a.side.Collected? && a.side.ok then
          Just(a.(verdict := Succeeded(a.side.changed), side := Collected(false, a.side.changed)))
        else Nothing
      case CleanupBegins =>
        if (a.side.Discarding? || (a.side.Collected? && !a.side.ok)) && a.helper.Free? then
          Just(a.(running := false, helper := Removing(false)))
        else Nothing
      case RunEnds => Just(a.(owned := false))
  }

  function Act(a: Attempt, tip: Option<Commit>, checkedOut: bool, m: Move): Option<Attempt> {
    match m
    case OnMachine(h) => HelperAct(a, h)
    case OfRun(r) => RunAct(a, tip, checkedOut, r)
  }

  /** The whole system: local branches, the run's HEAD, and every attempt ever prepared. */
  datatype State = State(branches: map<string, Commit>, head: Commit, checkedOut: set<string>,
    attempts: map<string, Attempt>)

  datatype Step =
    | Prepare(name: string, target: string)
    | At(name: string, move: Move)
    | UserCommits(head: Commit)
    | UserMoves(branch: string, to: Commit)
    | UserChecksOut(checkedOut: set<string>)

  function Tip(s: State, branch: string): Option<Commit> {
    if branch in s.branches then Just(s.branches[branch]) else Nothing
  }

  function Next(s: State, step: Step): Option<State> {
    match step
    case Prepare(name, target) =>
      if name in s.attempts then Nothing
      else Just(s.(attempts := s.attempts[name := New(s.head, target, Tip(s, target))]))
    case At(name, m) =>
      if name !in s.attempts then Nothing
      else
        var a := s.attempts[name];
        var b := Act(a, Tip(s, a.target), a.target in s.checkedOut, m);
        if b.Nothing? then Nothing
        else Just(s.(attempts := s.attempts[name := b.value],
                     branches := if m == OfRun(Publish) then s.branches[a.target := b.value.side.head] else s.branches))
    case UserCommits(head) => Just(s.(head := head))
    case UserMoves(branch, to) => Just(s.(branches := s.branches[branch := to]))
    case UserChecksOut(names) => Just(s.(checkedOut := names))
  }

  function Init(head: Commit): State { State(map[], head, {}, map[]) }

  function Exec(head: Commit, steps: seq<Step>): Option<State> {
    if steps == [] then Just(Init(head))
    else
      var s := Exec(head, steps[..|steps| - 1]);
      if s.Nothing? then Nothing else Next(s.value, steps[|steps| - 1])
  }

  /* ----- what must not be lost ----- */

  /** Recorded outside the worktree: in the base already, or reachable from a ref that outlives it. */
  predicate Secured(a: Attempt, tip: Option<Commit>) {
    var c := Sealed(a.last);
    c in History(a.base) || c in Reachable(a.salvage) || c in Reachable(a.incoming) || c in Reachable(tip)
  }

  /** The worktree still holds what the agent left, as it was or as a snapshot commit. */
  predicate InWorktree(a: Attempt) {
    a.dir.Just? && (a.dir.value == a.last || a.dir.value == Checkout(Sealed(a.last), Nothing))
  }

  /** The agent's commits and uncommitted changes exist somewhere. */
  predicate Held(a: Attempt, tip: Option<Commit>) { InWorktree(a) || Secured(a, tip) }

  /** The ref updates of one attempt that overwrite a ref without looking at what it held. */
  predicate Forward(a: Attempt, tip: Option<Commit>, m: Move) {
    && (m == OfRun(Publish) && a.side.Fetched? ==> FastForward(tip, a.side.head))
    && (m == OnMachine(SweepSalvages) && a.dir.Nothing? && NeedsSalvage(a) ==>
      FastForward(a.salvage, SalvageHead(a).value))
  }

  /** Every ref that a step overwrites moves forward. */
  predicate MovesForward(s: State, step: Step) {
    match step
    case UserMoves(branch, to) => FastForward(Tip(s, branch), to)
    case At(name, m) => name in s.attempts ==> Forward(s.attempts[name], Tip(s, s.attempts[name].target), m)
    case _ => true
  }

  /* ----- the invariants of one attempt ----- */

  /** Nothing the machine runs can still edit the worktree. */
  predicate Quiet(a: Attempt) { !a.running && !a.side.Working? }

  /** The collection's outcome is about what the agent last left, and a changed head went through the swap. */
  predicate Settled(a: Attempt, changed: Option<Commit>) {
    var c := Sealed(a.last);
    if changed.Just? then changed.value == c && a.swap == Just(Swap(a.expected, c)) else c in History(a.base)
  }

  /** What each position of the run has established. */
  predicate SideSound(a: Attempt) {
    var c := Sealed(a.last);
    match a.side
    case Preparing =>
      !a.running && a.last == Checkout(a.base, Nothing) && a.incoming.Nothing? &&
        (a.owned ==> a.helper.Free? || a.helper.Adding?)
    case Discarding => !a.running && a.last == Checkout(a.base, Nothing)
    case Received(_, head) => !a.running && head == c
    case Fetched(_, head) => !a.running && head == c && a.incoming == Just(c)
    case Published(_, head) => !a.running && head == c && a.swap == Just(Swap(a.expected, c))
    case Collected(_, changed) => !a.running && Settled(a, changed)
    case _ => true
  }

  /** While a helper command is at work the agent is not. */
  predicate HelperSound(a: Attempt) {
    && (a.helper.Adding? ==> !a.running && a.dir.Nothing? && a.last == Checkout(a.base, Nothing))
    && (a.helper.Collecting? || a.helper.Sweeping? || a.helper.Removing? ==>
      !a.running && (a.owned ==> !a.side.Working?))
    && ((a.helper.Collecting? || a.helper.Sweeping?) && a.helper.snapped && a.dir.Just? ==>
         a.dir.value == Checkout(Sealed(a.last), Nothing))
    && (a.running ==> a.side.Working? || a.side.Asking? || a.side.Ended?)
  }

  /** A success is about published work, or none; no success is collected after a failure was journaled. */
  predicate VerdictSound(a: Attempt) {
    && (a.verdict.Succeeded? ==> Quiet(a) && Settled(a, a.verdict.head) && (a.side.Collected? || a.side.Ended?))
    && (a.verdict.Failed? ==> !(a.side.Preparing? || a.side.Discarding? || a.side.Working?))
    && (a.side.Asking? || a.side.Received? || a.side.Fetched? || a.side.Published? || a.side.Collected? ==>
         a.side.ok ==> a.verdict.Unwritten?)
  }

  /** The refs of an attempt that hold work hold all of what the agent last left. */
  predicate RefsSound(a: Attempt) {
    && (a.dir.Just? ==> InWorktree(a))
    && (a.incoming.Just? ==> Quiet(a) && a.incoming.value == Sealed(a.last))
  }

  /** Holds in every run. */
  predicate Sound(a: Attempt) { SideSound(a) && HelperSound(a) && VerdictSound(a) && RefsSound(a) }

  /** Holds as long as refs move forward: the work exists, and no worktree is removed before its work is secured. */
  predicate Kept(a: Attempt, tip: Option<Commit>) {
    && Held(a, tip)
    && (a.helper.Removing? ==> Secured(a, tip))
    && (a.side.Published? || (a.side.Collected? && a.side.changed.Just?) ==> Sealed(a.last) in Reachable(tip))
  }
}
