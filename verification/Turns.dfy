/**
 The Codex worker's turn table (src/worker/codex.ts). Turns are found by thread id; whatever settles one
 (the completed notification, an error, the watchdog, an abort, a failed start, a dead process, shutdown)
 settles it once, and its entry is removed when the promise's finally handler runs, a moment later. An
 agent runs a working turn on a thread of its own and, if that resolves and its answer needs it, an
 extraction turn on the same thread. The no-progress watchdog is taken to be configured.
 */
module Turns {
  import opened Options
  import opened Settlements

  type Thread = string

  /** `watchdog` is the no-progress timer; `ticket` the turn's promise; `text` its answer so far. */
  datatype Turn = Turn(ticket: nat, settled: bool, watchdog: bool, needsRole: bool, verifying: bool, text: string)

  function NewTurn(ticket: nat, needsRole: bool): Turn { Turn(ticket, false, true, needsRole, false, "") }

  /** A settlement still to come: after a role check or pending file writes, it will address the thread again. */
  datatype Late = Late(thread: Thread, ticket: nat, role: bool, outcome: Outcome)

  /** A turn/start request not yet answered; if it fails, it will address the thread. */
  datatype Start = Start(thread: Thread, ticket: nat)

  /** `finals` are settled promises whose finally handler has not run. */
  datatype Table = Table(
    turns: map<Thread, Turn>, late: seq<Late>, starts: seq<Start>, finals: seq<(Thread, nat)>,
    started: nat, shuttingDown: bool, log: seq<Settlement>)

  const EMPTY: Table := Table(map[], [], [], [], 0, false, [])

  const INTERRUPTED: Outcome := Rejected("interrupted")

  const START_FAILED: Outcome := Rejected("turn/start failed")

  /** settleResolve and settleReject: the first one wins. */
  function Settle(s: Table, t: Thread, o: Outcome): Table {
    if t !in s.turns || s.turns[t].settled then s
    else
      var turn := s.turns[t];
      s.(turns := s.turns[t := turn.(settled := true, watchdog := false)],
         finals := s.finals + [(t, turn.ticket)],
         log := s.log + [Settlement(turn.ticket, o)])
  }

  function SettleThese(s: Table, ts: seq<Thread>, o: Outcome): Table {
    if ts == [] then s else Settle(SettleThese(s, ts[..|ts| - 1], o), ts[|ts| - 1], o)
  }

  /** `order` lists the table's threads, as iterating the Map's keys does. */
  predicate Lists(s: Table, order: seq<Thread>) {
    (forall t :: t in s.turns ==> t in order) && (forall t :: t in order ==> t in s.turns)
  }

  datatype Status = Completed(writes: bool) | Interrupted | Failed

  /**
   `about` is the promise that the provider's message is about; the worker does not read it, as it finds turns
   by their threads.
   */
  datatype Event =
    | Run(thread: Thread, aborted: bool, needsRole: bool)
    | StartAnswered(i: nat)
    | StartFails(i: nat)
    | Aborts(thread: Thread)
    | Says(thread: Thread, text: string)
    | TurnCompleted(thread: Thread, about: nat, status: Status)
    | Drifted(named: Option<Thread>, about: nat, order: seq<Thread>)
    | ErrorNote(named: Option<Thread>, about: nat, willRetry: bool, order: seq<Thread>)
    | Touch(thread: Thread)
    | Stalled(thread: Thread)
    | LateSettles(i: nat, proven: bool)
    | Finally(i: nat)
    | ProcessGone(order: seq<Thread>)
    | Shutdown(order: seq<Thread>)

  /** runTurn. The table keeps one turn a thread: a new one replaces what is there. */
  function Started(s: Table, t: Thread, needsRole: bool): Table {
    s.(turns := s.turns[t := NewTurn(s.started, needsRole)], started := s.started + 1)
  }

  /** A turn aborted already is interrupted; any other asks the provider to start. */
  function Launched(s: Table, t: Thread, aborted: bool, needsRole: bool): Table {
    var u := Started(s, t, needsRole);
    if aborted then Settle(u, t, INTERRUPTED) else u.(starts := u.starts + [Start(t, s.started)])
  }

  /** A turn found completed has its answer so far for its result. */
  function Completion(s: Table, t: Thread, writes: bool): Table
    requires t in s.turns
  {
    var turn := s.turns[t];
    var o := Resolved(turn.text);
    if turn.needsRole then
      if turn.verifying then s
      else s.(turns := s.turns[t := turn.(verifying := true)], late := s.late + [Late(t, turn.ticket, true, o)])
    else if writes then s.(late := s.late + [Late(t, turn.ticket, false, o)])
    else Settle(s, t, o)
  }

  /** What a late settlement comes to: an unproven role rejects. */
  function OutcomeOf(l: Late, proven: bool): Outcome {
    if l.role && !proven then Rejected("child_role_unproven") else l.outcome
  }

  function Without<T>(q: seq<T>, i: nat): seq<T>
    requires i < |q|
  {
    q[..i] + q[i + 1..]
  }

  /** One event; Nothing when it cannot happen. */
  function Next(s: Table, e: Event): Option<Table> {
    match e
    case Run(t, aborted, needsRole) => Just(Launched(s, t, aborted, needsRole))
    case StartAnswered(i) => if i >= |s.starts| then Nothing else Just(s.(starts := Without(s.starts, i)))
    case StartFails(i) =>
      if i >= |s.starts| then Nothing
        else Just(Settle(s.(starts := Without(s.starts, i)), s.starts[i].thread, START_FAILED))
    case Aborts(t) => Just(Settle(s, t, INTERRUPTED))
    case Says(t, text) =>
      if t !in s.turns then Just(s) else Just(s.(turns := s.turns[t := s.turns[t].(text := text)]))
    case TurnCompleted(t, _, status) =>
      if t !in s.turns then Just(s)
      else
        (match status
         case Completed(writes) => Just(Completion(s, t, writes))
         case Interrupted => Just(Settle(s, t, INTERRUPTED))
         case Failed => Just(Settle(s, t, Rejected("turn_failed"))))
    case Drifted(t, _, order) =>
      if t.Just? then Just(Settle(s, t.value, Rejected("protocol_drift")))
      else if !Lists(s, order) then Nothing
      else Just(SettleThese(s, order, Rejected("protocol_drift")))
    case ErrorNote(t, _, willRetry, order) =>
      if willRetry && t.Just? && t.value in s.turns then Just(s)
      else if t.Just? && t.value in s.turns then Just(Settle(s, t.value, Rejected("codex_error")))
      else if !Lists(s, order) then Nothing
      else Just(SettleThese(s, order, Rejected("codex_error")))
    case Touch(t) =>
      if t !in s.turns || s.turns[t].settled then Just(s)
        else Just(s.(turns := s.turns[t := s.turns[t].(watchdog := true)]))
    case Stalled(t) => if t in s.turns && s.turns[t].watchdog then Just(Settle(s, t, Rejected("turn_stalled")))
      else Nothing
    case LateSettles(i, proven) =>
      if i >= |s.late| then Nothing
      else Just(Settle(s.(late := Without(s.late, i)), s.late[i].thread, OutcomeOf(s.late[i], proven)))
    case Finally(i) =>
      if i >= |s.finals| then Nothing else Just(s.(finals := Without(s.finals, i), turns := s.turns - {s.finals[i].0}))
    case ProcessGone(order) =>
      if s.shuttingDown then Just(s) else if !Lists(s, order) then Nothing
        else Just(SettleThese(s, order, Rejected("process_gone")))
    case Shutdown(order) =>
      if !Lists(s, order) then Nothing else Just(SettleThese(s.(shuttingDown := true), order, Rejected("shutdown")))
  }

  function Exec(es: seq<Event>): Option<Table> {
    if es == [] then Just(EMPTY)
    else
      var s := Exec(es[..|es| - 1]);
      if s.Nothing? then Nothing else Next(s.value, es[|es| - 1])
  }

  /* ----- at most once, in every run ----- */

  /**
   The turns in the table are of distinct promises; a settled promise has been settled once, an unsettled one not
   at all.
   */
  ghost predicate Sound(s: Table) {
    && (forall t :: t in s.turns ==> s.turns[t].ticket < s.started)
    && (forall t, u :: t in s.turns && u in s.turns && s.turns[t].ticket == s.turns[u].ticket ==> t == u)
    && (forall t :: t in s.turns ==> Times(s.log, s.turns[t].ticket) == if s.turns[t].settled then 1 else 0)
    && (forall t :: t in s.turns ==> (s.turns[t].watchdog <==> !s.turns[t].settled))
    && (forall k: nat :: Times(s.log, k) <= if k < s.started then 1 else 0)
  }

  lemma SettleKeepsSound(s: Table, t: Thread, o: Outcome)
    requires Sound(s)
    ensures Sound(Settle(s, t, o))
  {
    hide Times;
    if t in s.turns && !s.turns[t].settled {
      forall k: nat
        ensures Times(s.log + [Settlement(s.turns[t].ticket, o)], k) ==
                Times(s.log, k) + if k == s.turns[t].ticket then 1 else 0 {
        TimesSnoc(s.log, Settlement(s.turns[t].ticket, o), k);
      }
    }
  }

  lemma {:induction false} SettleAllKeepsSound(s: Table, ts: seq<Thread>, o: Outcome)
    requires Sound(s)
    ensures Sound(SettleThese(s, ts, o)) && SettleThese(s, ts, o).turns.Keys == s.turns.Keys
    ensures SettleThese(s, ts, o).started == s.started
    ensures forall t :: t in ts && t in s.turns ==> SettleThese(s, ts, o).turns[t].settled
  {
    hide Sound;
    if ts != [] {
      SettleAllKeepsSound(s, ts[..|ts| - 1], o);
      SettleKeepsSound(SettleThese(s, ts[..|ts| - 1], o), ts[|ts| - 1], o);
      assert ts == ts[..|ts| - 1] + [ts[|ts| - 1]];
    }
  }

  lemma StartKeepsSound(s: Table, t: Thread, needsRole: bool)
    requires Sound(s)
    ensures Sound(Started(s, t, needsRole))
  {
    hide Times;
  }

  /** Changes that leave tickets, settlements and watchdogs alone. */
  lemma SameSound(s: Table, u: Table)
    requires Sound(s) && s.turns.Keys == u.turns.Keys && s.log == u.log && s.started == u.started
    requires forall t :: t in s.turns ==>
               u.turns[t] == s.turns[t].(verifying := u.turns[t].verifying, text := u.turns[t].text)
    ensures Sound(u)
  {
    hide Times;
  }

  lemma FewerTurns(s: Table, i: nat)
    requires Sound(s) && i < |s.finals|
    ensures Sound(s.(finals := Without(s.finals, i), turns := s.turns - {s.finals[i].0}))
  {
    hide Times;
  }

  /** An unsettled turn's watchdog is armed already. */
  lemma TouchIsIdle(s: Table, t: Thread)
    requires Sound(s) && t in s.turns && !s.turns[t].settled
    ensures s.turns[t := s.turns[t].(watchdog := true)] == s.turns
  {
    hide Times;
  }

  lemma NextKeepsSound(s: Table, e: Event)
    requires Sound(s) && Next(s, e).Just?
    ensures Sound(Next(s, e).value)
  {
    hide Settle, SettleThese, Times, Started, Sound, Without;
    match e
    case Run(t, aborted, needsRole) =>
      StartKeepsSound(s, t, needsRole);
      SettleKeepsSound(Started(s, t, needsRole), t, INTERRUPTED);
      if !aborted { SameSound(Started(s, t, needsRole), Next(s, e).value); }
    case StartAnswered(i) => SameSound(s, s.(starts := Without(s.starts, i)));
    case StartFails(i) =>
      SameSound(s, s.(starts := Without(s.starts, i)));
      SettleKeepsSound(s.(starts := Without(s.starts, i)), s.starts[i].thread, START_FAILED);
    case Aborts(t) => SettleKeepsSound(s, t, INTERRUPTED);
    case Says(t, _) => if t in s.turns { SameSound(s, Next(s, e).value); }
    case TurnCompleted(t, _, status) =>
      SettleKeepsSound(s, t, INTERRUPTED);
      SettleKeepsSound(s, t, Rejected("turn_failed"));
      if t in s.turns { SettleKeepsSound(s, t, Resolved(s.turns[t].text)); }
      if t in s.turns && status.Completed? && (s.turns[t].needsRole || status.writes) {
        SameSound(s, Next(s, e).value);
      }
    case Drifted(t, _, order) =>
      if t.Just? { SettleKeepsSound(s, t.value, Rejected("protocol_drift")); }
      else { SettleAllKeepsSound(s, order, Rejected("protocol_drift")); }
    case ErrorNote(t, _, willRetry, order) =>
      if t.Just? && t.value in s.turns { SettleKeepsSound(s, t.value, Rejected("codex_error")); }
      else { SettleAllKeepsSound(s, order, Rejected("codex_error")); }
    case Touch(t) => if t in s.turns && !s.turns[t].settled { TouchIsIdle(s, t); }
    case Stalled(t) => SettleKeepsSound(s, t, Rejected("turn_stalled"));
    case LateSettles(i, proven) =>
      SameSound(s, s.(late := Without(s.late, i)));
      SettleKeepsSound(s.(late := Without(s.late, i)), s.late[i].thread, OutcomeOf(s.late[i], proven));
    case Finally(i) => FewerTurns(s, i);
    case ProcessGone(order) => SettleAllKeepsSound(s, order, Rejected("process_gone"));
    case Shutdown(order) =>
      SameSound(s, s.(shuttingDown := true));
      SettleAllKeepsSound(s.(shuttingDown := true), order, Rejected("shutdown"));
  }

  lemma {:induction false} Reached(es: seq<Event>)
    requires Exec(es).Just?
    ensures Sound(Exec(es).value)
  {
    hide Next, Sound;
    if es == [] {
      EmptyIsSound();
    } else {
      Reached(es[..|es| - 1]);
      NextKeepsSound(Exec(es[..|es| - 1]).value, es[|es| - 1]);
    }
  }

  lemma EmptyIsSound()
    ensures Sound(EMPTY)
  {}

  /**
   Under any interleaving no turn settles twice, and a turn in the table has its watchdog armed until it is
   settled.
   */
  lemma SettlesAtMostOnce(es: seq<Event>, ticket: nat)
    requires Exec(es).Just?
    ensures Times(Exec(es).value.log, ticket) <= 1
    ensures forall t :: t in Exec(es).value.turns ==>
              (Exec(es).value.turns[t].watchdog <==> !Exec(es).value.turns[t].settled)
  {
    hide Exec, Times;
    Reached(es);
  }

  /* ----- exactly once, when threads take turns ----- */

  /** A turn starts only on a thread whose previous turn, if any, is gone from the table. */
  predicate TakesTurn(s: Table, e: Event) { e.Run? ==> e.thread !in s.turns }

  predicate Orderly(es: seq<Event>)
    requires Exec(es).Just?
  {
    es == [] || (Orderly(es[..|es| - 1]) && TakesTurn(Exec(es[..|es| - 1]).value, es[|es| - 1]))
  }

  /** The unsettled turn of a promise is in the table. */
  ghost predicate InTable(s: Table, k: nat) {
    exists t :: t in s.turns && s.turns[t].ticket == k && !s.turns[t].settled
  }

  /** Finally handlers are due only for settled turns still in the table; so nothing unsettled is ever removed. */
  ghost predicate Accounted(s: Table) {
    && (forall i :: 0 <= i < |s.finals| ==>
         var (t, k) := s.finals[i]; t in s.turns && s.turns[t].ticket == k && s.turns[t].settled)
    && (forall i, j :: 0 <= i < j < |s.finals| ==> s.finals[i].0 != s.finals[j].0)
    && (forall k: nat :: k < s.started ==> Times(s.log, k) == 1 || InTable(s, k))
  }

  lemma SettleAccounts(s: Table, t: Thread, o: Outcome)
    requires Sound(s) && Accounted(s)
    ensures Accounted(Settle(s, t, o))
  {
    hide Times;
    if t in s.turns && !s.turns[t].settled {
      var u := Settle(s, t, o);
      forall k: nat | k < s.started ensures Times(u.log, k) == 1 || InTable(u, k) {
        TimesSnoc(s.log, Settlement(s.turns[t].ticket, o), k);
        if Times(s.log, k) != 1 && k != s.turns[t].ticket {
          var v :| v in s.turns && s.turns[v].ticket == k && !s.turns[v].settled;
          assert u.turns[v] == s.turns[v];
        }
      }
    }
  }

  lemma {:induction false} SettleAllAccounts(s: Table, ts: seq<Thread>, o: Outcome)
    requires Sound(s) && Accounted(s)
    ensures Accounted(SettleThese(s, ts, o))
  {
    hide Sound, Accounted;
    if ts != [] {
      SettleAllKeepsSound(s, ts[..|ts| - 1], o);
      SettleAllAccounts(s, ts[..|ts| - 1], o);
      SettleAccounts(SettleThese(s, ts[..|ts| - 1], o), ts[|ts| - 1], o);
    }
  }

  lemma StartAccounts(s: Table, t: Thread, needsRole: bool)
    requires Sound(s) && Accounted(s) && t !in s.turns
    ensures Accounted(Started(s, t, needsRole))
  {
    hide Times;
    var u := Started(s, t, needsRole);
    forall k: nat | k < u.started ensures Times(u.log, k) == 1 || InTable(u, k) {
      if k == s.started {
        assert u.turns[t].ticket == k;
      } else if Times(s.log, k) != 1 {
        var v :| v in s.turns && s.turns[v].ticket == k && !s.turns[v].settled;
        assert u.turns[v] == s.turns[v];
      }
    }
  }

  /** Changes that leave tickets, settlements and finals alone. */
  lemma SameAccounts(s: Table, u: Table)
    requires Accounted(s) && s.turns.Keys == u.turns.Keys && s.finals == u.finals && s.log == u.log &&
               s.started == u.started
    requires forall t :: t in s.turns ==>
               s.turns[t].ticket == u.turns[t].ticket && s.turns[t].settled == u.turns[t].settled
    ensures Accounted(u)
  {
    hide Times;
    forall k: nat | k < s.started && InTable(s, k) ensures InTable(u, k) {
      var v :| v in s.turns && s.turns[v].ticket == k && !s.turns[v].settled;
      assert v in u.turns && u.turns[v].ticket == k && !u.turns[v].settled;
    }
  }

  lemma FinallyAccounts(s: Table, i: nat)
    requires Accounted(s) && i < |s.finals|
    ensures Accounted(s.(finals := Without(s.finals, i), turns := s.turns - {s.finals[i].0}))
  {
    hide Times;
    var u := s.(finals := Without(s.finals, i), turns := s.turns - {s.finals[i].0});
    forall k: nat | k < s.started && InTable(s, k) ensures InTable(u, k) {
      var v :| v in s.turns && s.turns[v].ticket == k && !s.turns[v].settled;
      assert v in u.turns;
    }
    assert forall j :: 0 <= j < |u.finals| ==> u.finals[j] == s.finals[if j < i then j else j + 1];
  }

  lemma NextAccounts(s: Table, e: Event)
    requires Sound(s) && Accounted(s) && Next(s, e).Just? && TakesTurn(s, e)
    ensures Accounted(Next(s, e).value)
  {
    hide Settle, SettleThese, Times, Started, Accounted, Sound, Without;
    match e
    case Run(t, aborted, needsRole) =>
      StartAccounts(s, t, needsRole);
      StartKeepsSound(s, t, needsRole);
      SettleAccounts(Started(s, t, needsRole), t, INTERRUPTED);
      if !aborted { SameAccounts(Started(s, t, needsRole), Next(s, e).value); }
    case StartAnswered(i) => SameAccounts(s, s.(starts := Without(s.starts, i)));
    case StartFails(i) =>
      var u := s.(starts := Without(s.starts, i));
      SameAccounts(s, u);
      SameSound(s, u);
      SettleAccounts(u, s.starts[i].thread, START_FAILED);
    case Aborts(t) => SettleAccounts(s, t, INTERRUPTED);
    case Says(t, _) => if t in s.turns { SameAccounts(s, Next(s, e).value); }
    case TurnCompleted(t, _, status) =>
      SettleAccounts(s, t, INTERRUPTED);
      SettleAccounts(s, t, Rejected("turn_failed"));
      if t in s.turns { SettleAccounts(s, t, Resolved(s.turns[t].text)); }
      if t in s.turns && status.Completed? && (s.turns[t].needsRole || status.writes) {
        SameAccounts(s, Next(s, e).value);
      }
    case Drifted(t, _, order) =>
      if t.Just? { SettleAccounts(s, t.value, Rejected("protocol_drift")); }
      else { SettleAllAccounts(s, order, Rejected("protocol_drift")); }
    case ErrorNote(t, _, willRetry, order) =>
      if t.Just? && t.value in s.turns { SettleAccounts(s, t.value, Rejected("codex_error")); }
      else { SettleAllAccounts(s, order, Rejected("codex_error")); }
    case Touch(t) => SameAccounts(s, Next(s, e).value);
    case Stalled(t) => SettleAccounts(s, t, Rejected("turn_stalled"));
    case LateSettles(i, proven) =>
      var u := s.(late := Without(s.late, i));
      SameAccounts(s, u);
      SameSound(s, u);
      SettleAccounts(u, s.late[i].thread, OutcomeOf(s.late[i], proven));
    case Finally(i) => FinallyAccounts(s, i);
    case ProcessGone(order) => SettleAllAccounts(s, order, Rejected("process_gone"));
    case Shutdown(order) =>
      var u := s.(shuttingDown := true);
      SameAccounts(s, u);
      SameSound(s, u);
      SettleAllAccounts(u, order, Rejected("shutdown"));
  }

  lemma {:induction false} OrderlyAccounts(es: seq<Event>)
    requires Exec(es).Just? && Orderly(es)
    ensures Accounted(Exec(es).value)
  {
    hide Next, Sound, Accounted, TakesTurn;
    if es == [] {
      EmptyAccounts();
    } else {
      Reached(es[..|es| - 1]);
      OrderlyAccounts(es[..|es| - 1]);
      NextAccounts(Exec(es[..|es| - 1]).value, es[|es| - 1]);
    }
  }

  lemma EmptyAccounts()
    ensures Accounted(EMPTY)
  {}

  /* ----- an agent's turns ----- */

  /** The turn an agent is at, on the thread it started. */
  datatype Stage = Working(ticket: nat, schema: bool) | Extracting(ticket: nat)

  datatype Worker = Worker(table: Table, agents: map<Thread, Stage>)

  /** `Other` is anything but a new turn. */
  datatype Step =
    | Begin(thread: Thread, aborted: bool, needsRole: bool, schema: bool)
    | Extract(thread: Thread, aborted: bool)
    | Other(event: Event)

  function EventOf(step: Step): Event {
    match step
    case Begin(t, aborted, needsRole, _) => Run(t, aborted, needsRole)
    case Extract(t, aborted) => Run(t, aborted, false)
    case Other(e) => e
  }

  predicate WasResolved(log: seq<Settlement>, ticket: nat) {
    exists i :: 0 <= i < |log| && log[i].ticket == ticket && log[i].outcome.Resolved?
  }

  /** What runAgent awaits of its working turn: that it resolved, and that its finally handler ran. */
  predicate MayExtract(w: Worker, t: Thread) {
    && t in w.agents && w.agents[t].Working? && w.agents[t].schema
    && WasResolved(w.table.log, w.agents[t].ticket) && (t, w.agents[t].ticket) !in w.table.finals
  }

  /** runAgent: a fresh thread for the working turn, and an extraction turn on it once that one is over. */
  function Act(w: Worker, step: Step): Option<Worker> {
    var u := Next(w.table, EventOf(step));
    if u.Nothing? then Nothing
    else
      match step
      case Begin(t, _, _, schema) =>
        if t in w.agents then Nothing else Just(Worker(u.value, w.agents[t := Working(w.table.started, schema)]))
      case Extract(t, _) =>
        if !MayExtract(w, t) then Nothing else Just(Worker(u.value, w.agents[t := Extracting(w.table.started)]))
      case Other(e) => if e.Run? then Nothing else Just(Worker(u.value, w.agents))
  }

  function Runs(steps: seq<Step>): Option<Worker> {
    if steps == [] then Just(Worker(EMPTY, map[]))
    else
      var w := Runs(steps[..|steps| - 1]);
      if w.Nothing? then Nothing else Act(w.value, steps[|steps| - 1])
  }

  function Events(steps: seq<Step>): seq<Event> {
    if steps == [] then [] else Events(steps[..|steps| - 1]) + [EventOf(steps[|steps| - 1])]
  }

  /**
   Every turn in the table is its agent's, a settled one waits for its finally handler, and nothing outstanding
   is about a thread no agent has.
   */
  ghost predicate Fits(s: Table, agents: map<Thread, Stage>) {
    && (forall t :: t in s.turns ==> t in agents && agents[t].ticket == s.turns[t].ticket)
    && (forall t :: t in s.turns && s.turns[t].settled ==> (t, s.turns[t].ticket) in s.finals)
    && (forall i :: 0 <= i < |s.late| ==> s.late[i].thread in agents)
    && (forall i :: 0 <= i < |s.starts| ==> s.starts[i].thread in agents)
  }

  lemma SettleFits(s: Table, agents: map<Thread, Stage>, t: Thread, o: Outcome)
    requires Fits(s, agents)
    ensures Fits(Settle(s, t, o), agents)
  {
    var u := Settle(s, t, o);
    forall v | v in u.turns && u.turns[v].settled ensures (v, u.turns[v].ticket) in u.finals {
      if u != s && v == t { assert u.finals[|s.finals|] == (t, u.turns[t].ticket); }
    }
  }

  lemma {:induction false} SettleAllFits(s: Table, agents: map<Thread, Stage>, ts: seq<Thread>, o: Outcome)
    requires Fits(s, agents)
    ensures Fits(SettleThese(s, ts, o), agents)
  {
    hide Fits, Settle;
    if ts != [] {
      SettleAllFits(s, agents, ts[..|ts| - 1], o);
      SettleFits(SettleThese(s, ts[..|ts| - 1], o), agents, ts[|ts| - 1], o);
    }
  }

  /** Changes that leave tickets, settlements and finals alone, and address no new thread. */
  lemma SameFits(s: Table, u: Table, agents: map<Thread, Stage>)
    requires Fits(s, agents) && s.turns.Keys == u.turns.Keys && s.finals == u.finals
    requires forall t :: t in s.turns ==>
               s.turns[t].ticket == u.turns[t].ticket && s.turns[t].settled == u.turns[t].settled
    requires forall i :: 0 <= i < |u.late| ==> u.late[i] in s.late || u.late[i].thread in s.turns
    requires forall i :: 0 <= i < |u.starts| ==> u.starts[i] in s.starts
    ensures Fits(u, agents)
  {}

  lemma WithoutIsIn<T>(q: seq<T>, i: nat)
    requires i < |q|
    ensures forall j :: 0 <= j < |Without(q, i)| ==> Without(q, i)[j] in q
  {
    assert forall j :: 0 <= j < |Without(q, i)| ==> Without(q, i)[j] == q[if j < i then j else j + 1];
  }

  lemma FinallyFits(s: Table, agents: map<Thread, Stage>, i: nat)
    requires Fits(s, agents) && i < |s.finals|
    ensures Fits(s.(finals := Without(s.finals, i), turns := s.turns - {s.finals[i].0}), agents)
  {
    var u := s.(finals := Without(s.finals, i), turns := s.turns - {s.finals[i].0});
    forall t | t in u.turns && u.turns[t].settled ensures (t, u.turns[t].ticket) in u.finals {
      var j :| 0 <= j < |s.finals| && s.finals[j] == (t, s.turns[t].ticket);
      assert u.finals[if j < i then j else j - 1] == s.finals[j];
    }
  }

  lemma LaunchFits(s: Table, agents: map<Thread, Stage>, t: Thread, aborted: bool, needsRole: bool, stage: Stage)
    requires Fits(s, agents) && t !in s.turns && stage.ticket == s.started
    ensures Fits(Launched(s, t, aborted, needsRole), agents[t := stage])
  {
    var u := Started(s, t, needsRole);
    assert Fits(u, agents[t := stage]);
    SettleFits(u, agents[t := stage], t, INTERRUPTED);
    hide Settle;
  }

  lemma OtherFits(s: Table, e: Event, agents: map<Thread, Stage>)
    requires Fits(s, agents) && !e.Run? && Next(s, e).Just?
    ensures Fits(Next(s, e).value, agents)
  {
    hide Settle, SettleThese, Started, Fits, Without;
    match e
    case StartAnswered(i) =>
      WithoutIsIn(s.starts, i);
      SameFits(s, s.(starts := Without(s.starts, i)), agents);
    case StartFails(i) =>
      WithoutIsIn(s.starts, i);
      SameFits(s, s.(starts := Without(s.starts, i)), agents);
      SettleFits(s.(starts := Without(s.starts, i)), agents, s.starts[i].thread, START_FAILED);
    case Aborts(t) => SettleFits(s, agents, t, INTERRUPTED);
    case Says(t, _) => if t in s.turns { SameFits(s, Next(s, e).value, agents); }
    case TurnCompleted(t, _, status) =>
      SettleFits(s, agents, t, INTERRUPTED);
      SettleFits(s, agents, t, Rejected("turn_failed"));
      if t in s.turns { SettleFits(s, agents, t, Resolved(s.turns[t].text)); }
      if t in s.turns && status.Completed? && (s.turns[t].needsRole || status.writes) {
        SameFits(s, Next(s, e).value, agents);
      }
    case Drifted(t, _, order) =>
      if t.Just? { SettleFits(s, agents, t.value, Rejected("protocol_drift")); }
      else { SettleAllFits(s, agents, order, Rejected("protocol_drift")); }
    case ErrorNote(t, _, willRetry, order) =>
      if t.Just? && t.value in s.turns { SettleFits(s, agents, t.value, Rejected("codex_error")); }
      else { SettleAllFits(s, agents, order, Rejected("codex_error")); }
    case Touch(t) => SameFits(s, Next(s, e).value, agents);
    case Stalled(t) => SettleFits(s, agents, t, Rejected("turn_stalled"));
    case LateSettles(i, proven) =>
      WithoutIsIn(s.late, i);
      SameFits(s, s.(late := Without(s.late, i)), agents);
      SettleFits(s.(late := Without(s.late, i)), agents, s.late[i].thread, OutcomeOf(s.late[i], proven));
    case Finally(i) => FinallyFits(s, agents, i);
    case ProcessGone(order) => SettleAllFits(s, agents, order, Rejected("process_gone"));
    case Shutdown(order) =>
      SameFits(s, s.(shuttingDown := true), agents);
      SettleAllFits(s.(shuttingDown := true), agents, order, Rejected("shutdown"));
  }

  lemma {:induction false} ResolvedIsSettled(log: seq<Settlement>, ticket: nat)
    requires WasResolved(log, ticket)
    ensures Times(log, ticket) >= 1
  {
    var n := |log| - 1;
    if log[n].ticket != ticket {
      var i :| 0 <= i < |log| && log[i].ticket == ticket && log[i].outcome.Resolved?;
      assert log[..n][i] == log[i];
      ResolvedIsSettled(log[..n], ticket);
    }
  }

  /** A thread is free by the time its agent's extraction turn may start. */
  lemma ExtractionIsFree(w: Worker, t: Thread)
    requires Sound(w.table) && Fits(w.table, w.agents) && MayExtract(w, t)
    ensures t !in w.table.turns
  {
    hide Times;
    ResolvedIsSettled(w.table.log, w.agents[t].ticket);
  }

  lemma StepFits(w: Worker, step: Step)
    requires Sound(w.table) && Fits(w.table, w.agents) && Act(w, step).Just?
    ensures TakesTurn(w.table, EventOf(step)) && Fits(Act(w, step).value.table, Act(w, step).value.agents)
  {
    hide Sound, Launched, Times;
    match step
    case Begin(t, aborted, needsRole, schema) => LaunchFits(w.table, w.agents, t, aborted, needsRole,
      Working(w.table.started, schema));
    case Extract(t, aborted) =>
      ExtractionIsFree(w, t);
      LaunchFits(w.table, w.agents, t, aborted, false, Extracting(w.table.started));
    case Other(e) => OtherFits(w.table, e, w.agents);
  }

  /** The turns agents run take turns on their threads. */
  lemma {:induction false} AgentsAreOrderly(steps: seq<Step>)
    requires Runs(steps).Just?
    ensures Exec(Events(steps)) == Just(Runs(steps).value.table) && Orderly(Events(steps))
    ensures Fits(Runs(steps).value.table, Runs(steps).value.agents)
  {
    hide Next, Sound, TakesTurn, MayExtract, Fits;
    if steps == [] {
      NothingFits();
    } else {
      var n := |steps| - 1;
      var es := Events(steps[..n]);
      AgentsAreOrderly(steps[..n]);
      Reached(es);
      StepFits(Runs(steps[..n]).value, steps[n]);
      assert Events(steps)[..|es|] == es;
    }
  }

  lemma NothingFits()
    ensures Fits(EMPTY, map[])
  {}

  /* ----- exactly once ----- */

  /**
   Every turn started is settled exactly once, or still live in the table with its watchdog armed: none is
   stranded.
   */
  lemma NoTurnIsStranded(steps: seq<Step>, ticket: nat)
    requires Runs(steps).Just? && ticket < Runs(steps).value.table.started
    ensures var s := Runs(steps).value.table;
            Times(s.log, ticket) == 1
            || (Times(s.log, ticket) == 0
                && exists t :: t in s.turns && s.turns[t].ticket == ticket && s.turns[t].watchdog)
  {
    hide Exec, Times, Orderly, Runs;
    AgentsAreOrderly(steps);
    Reached(Events(steps));
    OrderlyAccounts(Events(steps));
    var s := Runs(steps).value.table;
    if Times(s.log, ticket) != 1 {
      var t :| t in s.turns && s.turns[t].ticket == ticket && !s.turns[t].settled;
      assert s.turns[t].watchdog;
    }
  }

  /** No turn outlives the process: once it is gone, or the worker shut down, every turn is settled. */
  lemma GoneSettlesAll(steps: seq<Step>, e: Event, ticket: nat)
    requires Runs(steps).Just? && Next(Runs(steps).value.table, e).Just? && ticket < Runs(steps).value.table.started
    requires e.Shutdown? || (e.ProcessGone? && !Runs(steps).value.table.shuttingDown)
    ensures Times(Next(Runs(steps).value.table, e).value.log, ticket) == 1
  {
    hide Exec, Times, Orderly, Settle, SettleThese, Runs;
    AgentsAreOrderly(steps);
    Reached(Events(steps));
    OrderlyAccounts(Events(steps));
    var s := Runs(steps).value.table;
    NextKeepsSound(s, e);
    NextAccounts(s, e);
    var u := Next(s, e).value;
    SettleAllKeepsSound(if e.Shutdown? then s.(shuttingDown := true) else s, e.order,
      Rejected(if e.Shutdown? then "shutdown" else "process_gone"));
    assert forall t :: t in u.turns ==> u.turns[t].settled;
  }

  /* ----- whose settlement it is ----- */

  /** Something that will still address the thread: a late settlement, or an unanswered turn/start. */
  predicate Outstanding(s: Table, t: Thread) {
    || (exists i :: 0 <= i < |s.late| && s.late[i].thread == t)
    || (exists i :: 0 <= i < |s.starts| && s.starts[i].thread == t)
  }

  /** What is outstanding on a thread with a turn is about that turn. */
  ghost predicate Own(s: Table) {
    && (forall i :: 0 <= i < |s.late| && s.late[i].thread in s.turns ==>
      s.turns[s.late[i].thread].ticket == s.late[i].ticket)
    && (forall i :: 0 <= i < |s.starts| && s.starts[i].thread in s.turns ==>
      s.turns[s.starts[i].thread].ticket == s.starts[i].ticket)
  }

  /** Nothing new is outstanding, and no new turns. */
  ghost predicate Shrinks(s: Table, u: Table) {
    && u.turns.Keys <= s.turns.Keys && (forall t :: t in u.turns ==> u.turns[t].ticket == s.turns[t].ticket)
    && (forall i :: 0 <= i < |u.late| ==> u.late[i] in s.late) &&
      (forall i :: 0 <= i < |u.starts| ==> u.starts[i] in s.starts)
  }

  lemma ShrinksOwn(s: Table, u: Table)
    requires Own(s) && Shrinks(s, u)
    ensures Own(u)
  {
    forall i | 0 <= i < |u.late| && u.late[i].thread in u.turns
      ensures u.turns[u.late[i].thread].ticket == u.late[i].ticket {
      var j :| 0 <= j < |s.late| && s.late[j] == u.late[i];
    }
    forall i | 0 <= i < |u.starts| && u.starts[i].thread in u.turns
      ensures u.turns[u.starts[i].thread].ticket == u.starts[i].ticket {
      var j :| 0 <= j < |s.starts| && s.starts[j] == u.starts[i];
    }
  }

  lemma ShrinksOn(s: Table, u: Table, v: Table)
    requires Shrinks(s, u) && Shrinks(u, v)
    ensures Shrinks(s, v)
  {
    forall i | 0 <= i < |v.late| ensures v.late[i] in s.late { var j :| 0 <= j < |u.late| && u.late[j] == v.late[i]; }
    forall i | 0 <= i < |v.starts| ensures v.starts[i] in s.starts {
      var j :| 0 <= j < |u.starts| && u.starts[j] == v.starts[i];
    }
  }

  lemma SettleShrinks(s: Table, t: Thread, o: Outcome)
    ensures Shrinks(s, Settle(s, t, o))
  {}

  lemma {:induction false} SettleAllShrinks(s: Table, ts: seq<Thread>, o: Outcome)
    ensures Shrinks(s, SettleThese(s, ts, o))
  {
    if ts != [] {
      hide Shrinks, Settle;
      SettleAllShrinks(s, ts[..|ts| - 1], o);
      SettleShrinks(SettleThese(s, ts[..|ts| - 1], o), ts[|ts| - 1], o);
      ShrinksOn(s, SettleThese(s, ts[..|ts| - 1], o), SettleThese(s, ts, o));
    }
  }

  lemma LateGrows(s: Table, t: Thread, writes: bool)
    requires Own(s) && t in s.turns
    ensures Own(Completion(s, t, writes))
  {
    var o := Resolved(s.turns[t].text);
    SettleShrinks(s, t, o);
    ShrinksOwn(s, Settle(s, t, o));
    hide Settle;
  }

  lemma LaunchKeepsOwn(s: Table, t: Thread, aborted: bool, needsRole: bool)
    requires Own(s) && !Outstanding(s, t)
    ensures Own(Launched(s, t, aborted, needsRole))
  {
    var u := Started(s, t, needsRole);
    assert Own(u);
    SettleShrinks(u, t, INTERRUPTED);
    ShrinksOwn(u, Settle(u, t, INTERRUPTED));
    hide Settle;
  }

  lemma DropsShrink(s: Table, i: nat)
    ensures i < |s.late| ==> Shrinks(s, s.(late := Without(s.late, i)))
    ensures i < |s.starts| ==> Shrinks(s, s.(starts := Without(s.starts, i)))
  {
    if i < |s.late| { WithoutIsIn(s.late, i); }
    if i < |s.starts| { WithoutIsIn(s.starts, i); }
  }

  lemma ItselfShrinks(s: Table, u: Table)
    requires u.turns.Keys <= s.turns.Keys && u.late == s.late && u.starts == s.starts
    requires forall t :: t in u.turns ==> u.turns[t].ticket == s.turns[t].ticket
    ensures Shrinks(s, u)
  {}

  lemma OtherShrinks(s: Table, e: Event)
    requires Next(s, e).Just? && !e.Run? && !e.TurnCompleted?
    ensures Shrinks(s, Next(s, e).value)
  {
    hide Settle, SettleThese, Shrinks, Without;
    match e
    case StartAnswered(i) => DropsShrink(s, i);
    case StartFails(i) =>
      var u := s.(starts := Without(s.starts, i));
      DropsShrink(s, i);
      SettleShrinks(u, s.starts[i].thread, START_FAILED);
      ShrinksOn(s, u, Next(s, e).value);
    case Aborts(t) => SettleShrinks(s, t, INTERRUPTED);
    case Says(t, _) => ItselfShrinks(s, Next(s, e).value);
    case Drifted(t, _, order) =>
      if t.Just? {
        SettleShrinks(s, t.value, Rejected("protocol_drift"));
      } else {
        SettleAllShrinks(s, order, Rejected("protocol_drift"));
      }
    case ErrorNote(t, _, willRetry, order) =>
      ItselfShrinks(s, s);
      if t.Just? { SettleShrinks(s, t.value, Rejected("codex_error")); }
      SettleAllShrinks(s, order, Rejected("codex_error"));
    case Touch(t) => ItselfShrinks(s, Next(s, e).value);
    case Stalled(t) => SettleShrinks(s, t, Rejected("turn_stalled"));
    case LateSettles(i, proven) =>
      var u := s.(late := Without(s.late, i));
      DropsShrink(s, i);
      SettleShrinks(u, s.late[i].thread, OutcomeOf(s.late[i], proven));
      ShrinksOn(s, u, Next(s, e).value);
    case Finally(i) => ItselfShrinks(s, Next(s, e).value);
    case ProcessGone(order) =>
      ItselfShrinks(s, s);
      SettleAllShrinks(s, order, Rejected("process_gone"));
    case Shutdown(order) =>
      var u := s.(shuttingDown := true);
      ItselfShrinks(s, u);
      SettleAllShrinks(u, order, Rejected("shutdown"));
      ShrinksOn(s, u, Next(s, e).value);
  }

  lemma NextKeepsOwn(s: Table, e: Event)
    requires Own(s) && Next(s, e).Just? && (e.Run? ==> !Outstanding(s, e.thread))
    ensures Own(Next(s, e).value)
  {
    hide Settle, SettleThese, Own, Completion, Launched, Without, Outstanding, Shrinks;
    match e
    case Run(t, aborted, needsRole) => LaunchKeepsOwn(s, t, aborted, needsRole);
    case TurnCompleted(t, _, status) =>
      SettleShrinks(s, t, INTERRUPTED);
      SettleShrinks(s, t, Rejected("turn_failed"));
      if t in s.turns {
        if status.Completed? { LateGrows(s, t, status.writes); }
        else { ShrinksOwn(s, Next(s, e).value); }
      }
    case _ =>
      OtherShrinks(s, e);
      ShrinksOwn(s, Next(s, e).value);
  }

  /** Every extraction turn starts with nothing outstanding on its thread. */
  predicate Clean(steps: seq<Step>)
    requires Runs(steps).Just?
  {
    steps == []
    || (var step := steps[|steps| - 1];
        Clean(steps[..|steps| - 1]) &&
          (step.Extract? ==> !Outstanding(Runs(steps[..|steps| - 1]).value.table, step.thread)))
  }

  lemma FreshIsQuiet(s: Table, agents: map<Thread, Stage>, t: Thread)
    requires Fits(s, agents) && t !in agents
    ensures !Outstanding(s, t)
  {}

  lemma {:induction false} CleanIsOwn(steps: seq<Step>)
    requires Runs(steps).Just? && Clean(steps)
    ensures Own(Runs(steps).value.table)
  {
    hide Next, Own, MayExtract, Fits, Outstanding, Orderly;
    if steps == [] {
      NothingIsOwn();
    } else {
      var n := |steps| - 1;
      var w := Runs(steps[..n]).value;
      CleanIsOwn(steps[..n]);
      AgentsAreOrderly(steps[..n]);
      if steps[n].Begin? { FreshIsQuiet(w.table, w.agents, steps[n].thread); }
      NextKeepsOwn(w.table, EventOf(steps[n]));
    }
  }

  lemma NothingIsOwn()
    ensures Own(EMPTY)
  {}

  /** In a clean run, whatever settles late settles the turn it belongs to, or none. */
  lemma LateSettlesItsOwn(steps: seq<Step>, i: nat, proven: bool)
    requires Runs(steps).Just? && Clean(steps) && i < |Runs(steps).value.table.late|
    ensures var s := Runs(steps).value.table;
            var after := Next(s, LateSettles(i, proven)).value.log;
            after == s.log || after == s.log + [Settlement(s.late[i].ticket, OutcomeOf(s.late[i], proven))]
  {
    CleanIsOwn(steps);
  }

  /** So does a turn/start that fails. */
  lemma StartFailsItsOwn(steps: seq<Step>, i: nat)
    requires Runs(steps).Just? && Clean(steps) && i < |Runs(steps).value.table.starts|
    ensures var s := Runs(steps).value.table;
            var after := Next(s, StartFails(i)).value.log;
            after == s.log || after == s.log + [Settlement(s.starts[i].ticket, START_FAILED)]
  {
    CleanIsOwn(steps);
  }

  /** The next event settles that turn. */
  predicate SettlesNext(s: Table, e: Event, ticket: nat) {
    var after := Next(s, e);
    after.Just? && |after.value.log| == |s.log| + 1 && after.value.log[|s.log|].ticket == ticket
  }

  /**
   Of what was outstanding when an extraction turn started, exactly what addresses its thread would settle it,
   on behalf of the working turn.
   */
  lemma StaleExactly(steps: seq<Step>, t: Thread)
    requires Runs(steps).Just? && Act(Runs(steps).value, Extract(t, false)).Just?
    ensures var s, u := Runs(steps).value.table, Act(Runs(steps).value, Extract(t, false)).value.table;
            && (forall i, proven :: 0 <= i < |s.late| ==>
              (SettlesNext(u, LateSettles(i, proven), s.started) <==> s.late[i].thread == t))
            && (forall i :: 0 <= i < |s.starts| ==>
              (SettlesNext(u, StartFails(i), s.started) <==> s.starts[i].thread == t))
  {
    hide Runs, Orderly, Exec, Times;
    AgentsAreOrderly(steps);
    Reached(Events(steps));
    var w := Runs(steps).value;
    ExtractionIsFree(w, t);
  }

  /* ----- whose message it is ----- */

  /** The thread and the promise that a message, or a settlement still to come, is about. */
  function About(s: Table, e: Event): Option<(Thread, nat)> {
    match e
    case TurnCompleted(t, k, _) => Just((t, k))
    case Drifted(t, k, _) => if t.Just? then Just((t.value, k)) else Nothing
    case ErrorNote(t, k, _, _) => if t.Just? then Just((t.value, k)) else Nothing
    case LateSettles(i, _) => if i < |s.late| then Just((s.late[i].thread, s.late[i].ticket)) else Nothing
    case StartFails(i) => if i < |s.starts| then Just((s.starts[i].thread, s.starts[i].ticket)) else Nothing
    case _ => Nothing
  }

  /** From one table to the next, no promise but `k` is settled or scheduled to be. */
  predicate TouchesOnly(s: Table, u: Table, k: nat) {
    && (forall i :: |s.log| <= i < |u.log| ==> u.log[i].ticket == k)
    && (forall i :: |s.late| <= i < |u.late| ==> u.late[i].ticket == k)
  }

  /** Does the event do anything to the turn of the thread? */
  predicate Reaches(s: Table, e: Event, t: Thread) {
    && t in s.turns
    && var turn := s.turns[t];
       if e.TurnCompleted? && e.status.Completed? && turn.needsRole then !turn.verifying
       else if e.TurnCompleted? && e.status.Completed? && e.status.writes then true
       else if e.ErrorNote? && e.willRetry then false
       else !turn.settled
  }

  /**
   The thread's turn, if the event reaches one, is the one it is about; and an error names a thread that has a
   turn, or no other turn is live.
   */
  predicate Entitled(s: Table, e: Event, t: Thread, k: nat) {
    && (Reaches(s, e, t) ==> s.turns[t].ticket == k)
    && (e.ErrorNote? && t !in s.turns ==> forall u :: u in s.turns && !s.turns[u].settled ==> s.turns[u].ticket == k)
  }

  lemma SettleTouches(s: Table, t: Thread, o: Outcome, k: nat)
    ensures Settle(s, t, o).late == s.late && s.log <= Settle(s, t, o).log
    ensures TouchesOnly(s, Settle(s, t, o), k) <==> (t in s.turns && !s.turns[t].settled ==> s.turns[t].ticket == k)
  {
    var u := Settle(s, t, o);
    if t in s.turns && !s.turns[t].settled { assert u.log[|s.log|].ticket == s.turns[t].ticket; }
  }

  lemma {:induction false} SettleTheseTouch(s: Table, ts: seq<Thread>, o: Outcome, k: nat)
    ensures var u := SettleThese(s, ts, o);
            && u.late == s.late && s.log <= u.log && u.turns.Keys == s.turns.Keys
            && (forall t :: t in s.turns ==> u.turns[t].ticket == s.turns[t].ticket)
            && (forall t :: t in s.turns ==> (u.turns[t].settled <==> s.turns[t].settled || t in ts))
    ensures TouchesOnly(s, SettleThese(s, ts, o), k) <==>
              forall t :: t in ts && t in s.turns && !s.turns[t].settled ==> s.turns[t].ticket == k
  {
    if ts != [] {
      var n := |ts| - 1;
      var u, t := SettleThese(s, ts[..n], o), ts[n];
      SettleTheseTouch(s, ts[..n], o, k);
      SettleTouches(u, t, o, k);
      assert ts == ts[..n] + [t];
      TouchesOn(s, u, Settle(u, t, o), k);
      assert forall v :: v in ts <==> v in ts[..n] || v == t;
    }
  }

  lemma TouchesOn(s: Table, u: Table, v: Table, k: nat)
    requires s.log <= u.log <= v.log && s.late == u.late == v.late
    ensures TouchesOnly(s, v, k) <==> TouchesOnly(s, u, k) && TouchesOnly(u, v, k)
  {
    if TouchesOnly(s, v, k) {
      forall i | |s.log| <= i < |u.log| ensures u.log[i].ticket == k { assert v.log[i] == u.log[i]; }
    }
    if TouchesOnly(s, u, k) && TouchesOnly(u, v, k) {
      forall i | |s.log| <= i < |v.log| ensures v.log[i].ticket == k { assert i < |u.log| ==> v.log[i] == u.log[i]; }
    }
  }

  lemma CompletionTouches(s: Table, t: Thread, about: nat, writes: bool, k: nat)
    requires t in s.turns
    ensures TouchesOnly(s, Completion(s, t, writes), k) <==>
              (Reaches(s, TurnCompleted(t, about, Completed(writes)), t) ==> s.turns[t].ticket == k)
  {
    var u := Completion(s, t, writes);
    SettleTouches(s, t, Resolved(s.turns[t].text), k);
    if |u.late| > |s.late| { assert u.late[|s.late|].ticket == s.turns[t].ticket; }
    hide Settle;
  }

  /**
   Whatever the provider sends or leaves outstanding about a promise settles that promise, or schedules it to be
   settled, and no other, exactly when the turn it reaches by its thread is that promise's, and, if it is an
   error for a thread without a turn, no other turn is live.
   */
  lemma TouchesItsOwnExactly(s: Table, e: Event)
    requires Next(s, e).Just? && About(s, e).Just?
    ensures var (t, k) := About(s, e).value;
            TouchesOnly(s, Next(s, e).value, k) <==> Entitled(s, e, t, k)
  {
    hide Settle, SettleThese, Completion, TouchesOnly;
    var (t, k) := About(s, e).value;
    ItselfTouches(s, s, k);
    match e
    case TurnCompleted(_, about, status) =>
      SettleTouches(s, t, INTERRUPTED, k);
      SettleTouches(s, t, Rejected("turn_failed"), k);
      if t in s.turns && status.Completed? { CompletionTouches(s, t, about, status.writes, k); }
    case Drifted(_, _, _) => SettleTouches(s, t, Rejected("protocol_drift"), k);
    case ErrorNote(_, _, willRetry, order) =>
      SettleTouches(s, t, Rejected("codex_error"), k);
      SettleTheseTouch(s, order, Rejected("codex_error"), k);
    case LateSettles(i, proven) =>
      var u := s.(late := Without(s.late, i));
      SettleTouches(u, t, OutcomeOf(s.late[i], proven), k);
      DropsTouch(s, u, Next(s, e).value, k);
    case StartFails(i) =>
      var u := s.(starts := Without(s.starts, i));
      SettleTouches(u, t, START_FAILED, k);
      DropsTouch(s, u, Next(s, e).value, k);
  }

  lemma ItselfTouches(s: Table, u: Table, k: nat)
    requires u.log == s.log && u.late == s.late
    ensures TouchesOnly(s, u, k)
  {}

  lemma DropsTouch(s: Table, u: Table, v: Table, k: nat)
    requires u.log == s.log && |u.late| <= |s.late| && v.late == u.late
    ensures TouchesOnly(s, v, k) <==> TouchesOnly(u, v, k)
  {}

  /** Everything the provider sends, and everything outstanding that falls due, is entitled to what it reaches. */
  predicate AllEntitled(steps: seq<Step>)
    requires Runs(steps).Just?
  {
    steps == []
    || (var s, e := Runs(steps[..|steps| - 1]).value.table, EventOf(steps[|steps| - 1]);
        && AllEntitled(steps[..|steps| - 1])
        && (About(s, e).Just? ==> Entitled(s, e, About(s, e).value.0, About(s, e).value.1)))
  }

  /** Nothing already settled changes. */
  lemma LogGrows(s: Table, e: Event)
    requires Next(s, e).Just?
    ensures s.log <= Next(s, e).value.log
  {
    hide Settle, SettleThese, Without;
    var o := Rejected("codex_error");
    match e
    case Run(t, _, needsRole) => SettleTouches(Started(s, t, needsRole), t, INTERRUPTED, 0);
    case StartFails(i) => SettleTouches(s.(starts := Without(s.starts, i)), s.starts[i].thread, START_FAILED, 0);
    case Aborts(t) => SettleTouches(s, t, INTERRUPTED, 0);
    case TurnCompleted(t, _, _) =>
      SettleTouches(s, t, INTERRUPTED, 0);
      SettleTouches(s, t, Rejected("turn_failed"), 0);
      if t in s.turns { SettleTouches(s, t, Resolved(s.turns[t].text), 0); }
    case Drifted(t, _, order) =>
      if t.Just? { SettleTouches(s, t.value, Rejected("protocol_drift"), 0); }
      SettleTheseTouch(s, order, Rejected("protocol_drift"), 0);
    case ErrorNote(t, _, _, order) =>
      if t.Just? { SettleTouches(s, t.value, o, 0); }
      SettleTheseTouch(s, order, o, 0);
    case Stalled(t) => SettleTouches(s, t, Rejected("turn_stalled"), 0);
    case LateSettles(i, proven) =>
      SettleTouches(s.(late := Without(s.late, i)), s.late[i].thread, OutcomeOf(s.late[i], proven), 0);
    case ProcessGone(order) => SettleTheseTouch(s, order, Rejected("process_gone"), 0);
    case Shutdown(order) => SettleTheseTouch(s.(shuttingDown := true), order, Rejected("shutdown"), 0);
    case _ =>
  }

  /**
   In such a run every settlement was made by something about its own promise, or by something about no one's: an
   abort, the watchdog, a message that names no thread, or the end of the process.
   */
  lemma {:induction false} EachSettledByItsOwn(steps: seq<Step>, j: nat) returns (i: nat)
    requires Runs(steps).Just? && AllEntitled(steps) && j < |Runs(steps).value.table.log|
    ensures i < |steps| && Runs(steps[..i]).Just? && Runs(steps[..i + 1]).Just?
    ensures var s, u, e := Runs(steps[..i]).value.table, Runs(steps[..i + 1]).value.table, EventOf(steps[i]);
            && |s.log| <= j < |u.log| && u.log[j] == Runs(steps).value.table.log[j]
            && (if About(s, e).Just? then About(s, e).value.1 == u.log[j].ticket
                else e.Run? || e.Aborts? || e.Stalled? || e.ProcessGone? || e.Shutdown?
                     || (e.Drifted? && e.named.Nothing?) || (e.ErrorNote? && e.named.Nothing?))
  {
    hide Next, About, Entitled, MayExtract;
    var n := |steps| - 1;
    var s, e := Runs(steps[..n]).value.table, EventOf(steps[n]);
    assert steps[..n + 1] == steps;
    LogGrows(s, e);
    if j < |s.log| {
      i := EachSettledByItsOwn(steps[..n], j);
      assert steps[..n][..i] == steps[..i] && steps[..n][..i + 1] == steps[..i + 1];
    } else {
      i := n;
      if About(s, e).Just? { TouchesItsOwnExactly(s, e); } else { NoOnesBusiness(s, e); }
    }
  }

  /** What settles a promise without being about one. */
  lemma NoOnesBusiness(s: Table, e: Event)
    requires Next(s, e).Just? && About(s, e).Nothing? && Next(s, e).value.log != s.log
    ensures e.Run? || e.Aborts? || e.Stalled? || e.ProcessGone? || e.Shutdown?
            || (e.Drifted? && e.named.Nothing?) || (e.ErrorNote? && e.named.Nothing?)
  {}

  /* ----- what a turn is settled as ----- */

  lemma {:induction false} SettleTheseSettles(s: Table, ts: seq<Thread>, o: Outcome, t: Thread)
    requires t in ts && t in s.turns && !s.turns[t].settled
    ensures var u := SettleThese(s, ts, o);
            t in u.turns && u.turns[t].settled && Settlement(s.turns[t].ticket, o) in u.log
  {
    var n := |ts| - 1;
    var v := SettleThese(s, ts[..n], o);
    SettleTheseTouch(s, ts[..n], o, 0);
    assert ts == ts[..n] + [ts[n]];
    SettleTouches(v, ts[n], o, 0);
    if t in ts[..n] {
      SettleTheseSettles(s, ts[..n], o, t);
    } else {
      assert Settlement(s.turns[t].ticket, o) == Settle(v, t, o).log[|v.log|];
    }
  }

  /**
   What becomes of a live turn: an abort, its thread's failure or interruption, a failed start and the watchdog reject
   it, each with its own reason; a completion resolves it with its answer so far, at once or once what it waits for
   is done; an unproven role rejects it. The watchdog can always fire.
   */
  lemma WhatSettlesIt(es: seq<Event>, t: Thread, e: Event)
    requires Exec(es).Just? && t in Exec(es).value.turns && !Exec(es).value.turns[t].settled
    ensures var s := Exec(es).value;
            var turn, n := s.turns[t], Next(s, e);
            && (e == Aborts(t) ==> n.Just? && n.value.log == s.log + [Settlement(turn.ticket, Rejected("interrupted"))])
            && (e == Stalled(t) ==>
              n.Just? && n.value.log == s.log + [Settlement(turn.ticket, Rejected("turn_stalled"))])
            && (e.StartFails? && e.i < |s.starts| && s.starts[e.i].thread == t ==>
                 n.Just? && n.value.log == s.log + [Settlement(turn.ticket, Rejected("turn/start failed"))])
            && (e.LateSettles? && e.i < |s.late| && s.late[e.i].thread == t ==>
                 n.Just? && n.value.log == s.log + [Settlement(turn.ticket,
                   if s.late[e.i].role && !e.proven then Rejected("child_role_unproven") else s.late[e.i].outcome)])
            && (e.TurnCompleted? && e.thread == t && e.status.Failed? ==>
                 n.Just? && n.value.log == s.log + [Settlement(turn.ticket, Rejected("turn_failed"))])
            && (e.TurnCompleted? && e.thread == t && e.status.Interrupted? ==>
                 n.Just? && n.value.log == s.log + [Settlement(turn.ticket, Rejected("interrupted"))])
            && (e.TurnCompleted? && e.thread == t && e.status.Completed? && !turn.needsRole && !e.status.writes ==>
                 n.Just? && n.value.log == s.log + [Settlement(turn.ticket, Resolved(turn.text))])
            && (e.TurnCompleted? && e.thread == t && e.status.Completed? && (turn.needsRole || e.status.writes) ==>
                 n.Just? && n.value.log == s.log && n.value.late == s.late +
                   if turn.needsRole && turn.verifying then []
                   else [Late(t, turn.ticket, turn.needsRole, Resolved(turn.text))])
  {
    hide Exec, Times;
    Reached(es);
  }

  /** What names no thread, or ends the process, rejects every live turn; a notified end after a shutdown, none. */
  lemma WhatSettlesAll(s: Table, t: Thread, e: Event)
    requires Next(s, e).Just? && t in s.turns && !s.turns[t].settled
    ensures var u, k := Next(s, e).value, s.turns[t].ticket;
            && (e.Drifted? && e.named.Nothing? ==> Settlement(k, Rejected("protocol_drift")) in u.log)
            && (e.ErrorNote? && (e.named.Nothing? || e.named.value !in s.turns) ==>
                 Settlement(k, Rejected("codex_error")) in u.log)
            && (e.ErrorNote? && e.named == Just(t) && !e.willRetry ==>
                 u.log == s.log + [Settlement(k, Rejected("codex_error"))])
            && (e.Drifted? && e.named == Just(t) ==> u.log == s.log + [Settlement(k, Rejected("protocol_drift"))])
            && (e.ProcessGone? && !s.shuttingDown ==> Settlement(k, Rejected("process_gone")) in u.log)
            && (e.ProcessGone? && s.shuttingDown ==> u == s)
            && (e.Shutdown? ==> Settlement(k, Rejected("shutdown")) in u.log)
  {
    hide SettleThese;
    match e
    case Drifted(named, _, order) =>
      if named.Nothing? { SettleTheseSettles(s, order, Rejected("protocol_drift"), t); }
    case ErrorNote(named, _, _, order) =>
      if named.Nothing? || named.value !in s.turns { SettleTheseSettles(s, order, Rejected("codex_error"), t); }
    case ProcessGone(order) =>
      if !s.shuttingDown { SettleTheseSettles(s, order, Rejected("process_gone"), t); }
    case Shutdown(order) =>
      SettleTheseSettles(s.(shuttingDown := true), order, Rejected("shutdown"), t);
    case _ =>
  }

  /** The watchdog fires for live turns only. */
  lemma StallsExactly(es: seq<Event>, t: Thread)
    requires Exec(es).Just?
    ensures var s := Exec(es).value;
            Next(s, Stalled(t)).Just? <==> t in s.turns && !s.turns[t].settled
  {
    hide Exec, Times;
    Reached(es);
  }

  /** A completion of some turn on its thread came with this answer. */
  ghost predicate Answered(es: seq<Event>, answer: string) {
    exists i :: 0 <= i < |es| && AnsweredAt(es, i, answer)
  }

  ghost predicate AnsweredAt(es: seq<Event>, i: nat, answer: string)
    requires i < |es|
  {
    && es[i].TurnCompleted? && es[i].status.Completed? && Exec(es[..i]).Just?
    && es[i].thread in Exec(es[..i]).value.turns && Exec(es[..i]).value.turns[es[i].thread].text == answer
  }

  /** Only an answer resolves anything, now or later. */
  ghost predicate Honest(es: seq<Event>, s: Table) {
    && (forall j :: 0 <= j < |s.log| && s.log[j].outcome.Resolved? ==> Answered(es, s.log[j].outcome.value))
    && (forall i :: 0 <= i < |s.late| && s.late[i].outcome.Resolved? ==> Answered(es, s.late[i].outcome.value))
  }

  lemma AnsweredStays(es: seq<Event>, e: Event, s: Table)
    requires Honest(es, s)
    ensures Honest(es + [e], s)
  {
    hide Exec;
    forall answer | Answered(es, answer) ensures Answered(es + [e], answer) {
      var i :| 0 <= i < |es| && AnsweredAt(es, i, answer);
      assert (es + [e])[..i] == es[..i];
      assert AnsweredAt(es + [e], i, answer);
    }
  }

  lemma SettleHonestly(es: seq<Event>, s: Table, t: Thread, o: Outcome)
    requires Honest(es, s) && (o.Resolved? ==> Answered(es, o.value))
    ensures Honest(es, Settle(s, t, o))
  {
    hide Answered;
  }

  lemma {:induction false} RejectHonestly(es: seq<Event>, s: Table, ts: seq<Thread>, o: Outcome)
    requires Honest(es, s) && o.Rejected?
    ensures Honest(es, SettleThese(s, ts, o))
  {
    hide Honest, Settle;
    if ts != [] {
      RejectHonestly(es, s, ts[..|ts| - 1], o);
      SettleHonestly(es, SettleThese(s, ts[..|ts| - 1], o), ts[|ts| - 1], o);
    }
  }

  /** Nothing but the log and what is scheduled matters to it. */
  lemma SameHonest(es: seq<Event>, s: Table, u: Table)
    requires Honest(es, s) && u.log == s.log && forall l :: l in u.late ==> l in s.late
    ensures Honest(es, u)
  {
    hide Answered;
    forall i | 0 <= i < |u.late| && u.late[i].outcome.Resolved? ensures Answered(es, u.late[i].outcome.value) {
      assert u.late[i] in s.late;
    }
  }

  lemma CompleteHonestly(es: seq<Event>, s: Table, t: Thread, writes: bool)
    requires Honest(es, s) && t in s.turns && Answered(es, s.turns[t].text)
    ensures Honest(es, Completion(s, t, writes))
  {
    hide Answered;
    SettleHonestly(es, s, t, Resolved(s.turns[t].text));
    hide Settle;
  }

  lemma NextIsHonest(es: seq<Event>, s: Table, e: Event)
    requires Honest(es, s) && Next(s, e).Just?
    requires e.TurnCompleted? && e.status.Completed? && e.thread in s.turns ==> Answered(es, s.turns[e.thread].text)
    ensures Honest(es, Next(s, e).value)
  {
    hide Settle, SettleThese, Started, Honest, Without, Completion, Answered;
    var u := Next(s, e).value;
    SameHonest(es, s, s);
    match e
    case Run(t, aborted, needsRole) => StartHonestly(es, s, t, aborted, needsRole);
    case StartAnswered(i) => SameHonest(es, s, u);
    case StartFails(i) =>
      SameHonest(es, s, s.(starts := Without(s.starts, i)));
      SettleHonestly(es, s.(starts := Without(s.starts, i)), s.starts[i].thread, START_FAILED);
    case Aborts(t) => SettleHonestly(es, s, t, INTERRUPTED);
    case Says(_, _) => SameHonest(es, s, u);
    case TurnCompleted(t, _, status) =>
      SettleHonestly(es, s, t, INTERRUPTED);
      SettleHonestly(es, s, t, Rejected("turn_failed"));
      if t in s.turns && status.Completed? { CompleteHonestly(es, s, t, status.writes); }
    case Drifted(t, _, order) =>
      if t.Just? { SettleHonestly(es, s, t.value, Rejected("protocol_drift")); }
      RejectHonestly(es, s, order, Rejected("protocol_drift"));
    case ErrorNote(t, _, _, order) =>
      if t.Just? { SettleHonestly(es, s, t.value, Rejected("codex_error")); }
      RejectHonestly(es, s, order, Rejected("codex_error"));
    case Touch(_) => SameHonest(es, s, u);
    case Stalled(t) => SettleHonestly(es, s, t, Rejected("turn_stalled"));
    case LateSettles(i, proven) => LateHonestly(es, s, i, proven);
    case Finally(i) => SameHonest(es, s, u);
    case ProcessGone(order) => RejectHonestly(es, s, order, Rejected("process_gone"));
    case Shutdown(order) =>
      SameHonest(es, s, s.(shuttingDown := true));
      RejectHonestly(es, s.(shuttingDown := true), order, Rejected("shutdown"));
  }

  lemma StartHonestly(es: seq<Event>, s: Table, t: Thread, aborted: bool, needsRole: bool)
    requires Honest(es, s)
    ensures Honest(es, Launched(s, t, aborted, needsRole))
  {
    hide Settle, Honest;
    SameHonest(es, s, Started(s, t, needsRole));
    SettleHonestly(es, Started(s, t, needsRole), t, INTERRUPTED);
    if !aborted { SameHonest(es, s, Launched(s, t, aborted, needsRole)); }
  }

  lemma LateHonestly(es: seq<Event>, s: Table, i: nat, proven: bool)
    requires Honest(es, s) && i < |s.late|
    ensures Honest(es, Settle(s.(late := Without(s.late, i)), s.late[i].thread, OutcomeOf(s.late[i], proven)))
  {
    hide Answered, Settle;
    assert s.late[i] in s.late;
    SameHonest(es, s, s.(late := Without(s.late, i)));
    SettleHonestly(es, s.(late := Without(s.late, i)), s.late[i].thread, OutcomeOf(s.late[i], proven));
  }

  lemma {:induction false} AlwaysHonest(es: seq<Event>)
    requires Exec(es).Just?
    ensures Honest(es, Exec(es).value)
  {
    hide Next, Honest;
    if es == [] {
      EmptyIsHonest();
    } else {
      var n := |es| - 1;
      var before, e := es[..n], es[n];
      AlwaysHonest(before);
      AnsweredStays(before, e, Exec(before).value);
      assert before + [e] == es;
      if e.TurnCompleted? && e.status.Completed? && e.thread in Exec(before).value.turns {
        assert AnsweredAt(es, n, Exec(before).value.turns[e.thread].text);
      }
      NextIsHonest(es, Exec(before).value, e);
    }
  }

  lemma EmptyIsHonest()
    ensures Honest([], EMPTY)
  {}

  /**
   In any run whatever, nothing but a completed turn resolves a promise, and it does so with the answer that the turn
   then on its thread had given so far.
   */
  lemma OnlyAnswersResolve(es: seq<Event>, j: nat) returns (i: nat)
    requires Exec(es).Just? && j < |Exec(es).value.log| && Exec(es).value.log[j].outcome.Resolved?
    ensures i < |es| && es[i].TurnCompleted? && es[i].status.Completed? && Exec(es[..i]).Just?
    ensures var s := Exec(es[..i]).value;
            es[i].thread in s.turns && Exec(es).value.log[j].outcome.value == s.turns[es[i].thread].text
  {
    hide Exec;
    AlwaysHonest(es);
    var answer := Exec(es).value.log[j].outcome.value;
    i :| 0 <= i < |es| && AnsweredAt(es, i, answer);
  }

  /* ----- runs in which they are not ----- */

  lemma {:induction false} RunsSnoc(steps: seq<Step>, step: Step)
    requires Runs(steps).Just?
    ensures Runs(steps + [step]) == Act(Runs(steps).value, step)
  {
    assert (steps + [step])[..|steps|] == steps;
  }

  function Live(t: Thread, ticket: nat, text: string): map<Thread, Turn> {
    map[t := Turn(ticket, false, true, false, false, text)]
  }

  function Over(t: Thread, text: string): map<Thread, Turn> { map[t := Turn(0, true, false, false, false, text)] }

  /** An agent whose working turn resolved, with `late` and `starts` still outstanding, begins its extraction turn. */
  function Extracts(t: Thread, late: seq<Late>, starts: seq<Start>, result: string): Worker {
    Worker(Table(Live(t, 1, ""), late, starts + [Start(t, 1)], [], 2, false, [Settlement(0, Resolved(result))]),
      map[t := Extracting(1)])
  }

  /** An agent's working turn has answered. */
  lemma Answers(t: Thread, text: string) returns (steps: seq<Step>)
    ensures Runs(steps) ==
              Just(Worker(Table(Live(t, 0, text), [], [Start(t, 0)], [], 1, false, []), map[t := Working(0, true)]))
  {
    steps := [];
    RunsSnoc(steps, Begin(t, false, false, true));
    assert EMPTY.turns[t := NewTurn(0, false)] == Live(t, 0, "");
    assert EMPTY.starts + [Start(t, 0)] == [Start(t, 0)];
    assert map[][t := Working(0, true)] == map[t := Working(0, true)];
    steps := steps + [Begin(t, false, false, true)];
    RunsSnoc(steps, Other(Says(t, text)));
    assert Live(t, 0, "")[t := Turn(0, false, true, false, false, text)] == Live(t, 0, text);
    steps := steps + [Other(Says(t, text))];
  }

  /** It is settled, and its finally handler is due. */
  lemma Resolves(t: Thread, text: string, late: seq<Late>, starts: seq<Start>)
    ensures var o := Resolved(text);
            Settle(Table(Live(t, 0, text), late, starts, [], 1, false, []), t, o) ==
              Table(Over(t, text), late, starts, [(t, 0)], 1, false, [Settlement(0, o)])
  {
    assert Live(t, 0, text)[t := Turn(0, true, false, false, false, text)] == Over(t, text);
    assert [] + [(t, 0)] == [(t, 0)] && [] + [Settlement(0, Resolved(text))] == [Settlement(0, Resolved(text))];
  }

  /** The table once the working turn resolved, and once its finally handler ran. */
  function Done(t: Thread, late: seq<Late>, starts: seq<Start>, text: string, ran: bool): Worker {
    var turns, finals := if ran then map[] else Over(t, text), if ran then [] else [(t, 0)];
    Worker(Table(turns, late, starts, finals, 1, false, [Settlement(0, Resolved(text))]), map[t := Working(0, true)])
  }

  lemma GoesOn(t: Thread, late: seq<Late>, starts: seq<Start>, text: string)
    ensures Act(Done(t, late, starts, text, false), Other(Finally(0))) == Just(Done(t, late, starts, text, true))
    ensures Act(Done(t, late, starts, text, true), Extract(t, false)) == Just(Extracts(t, late, starts, text))
  {
    assert Over(t, text) - {t} == map[] && Without([(t, 0)], 0) == [];
    assert [Settlement(0, Resolved(text))][0].ticket == 0;
    assert map[][t := NewTurn(1, false)] == Live(t, 1, "");
    assert map[t := Working(0, true)][t := Extracting(1)] == map[t := Extracting(1)];
  }

  /** The finally handler runs, and then the agent goes on. */
  lemma ResolvedGoesOn(t: Thread, late: seq<Late>, starts: seq<Start>, text: string, before: seq<Step>)
    returns (steps: seq<Step>)
    requires Runs(before) == Just(Done(t, late, starts, text, false))
    ensures Runs(steps) == Just(Extracts(t, late, starts, text))
  {
    hide Act, Runs, Done;
    GoesOn(t, late, starts, text);
    RunsSnoc(before, Other(Finally(0)));
    RunsSnoc(before + [Other(Finally(0))], Extract(t, false));
    steps := before + [Other(Finally(0))] + [Extract(t, false)];
  }

  /** An agent whose turn/start was answered resolves and goes on, with nothing else outstanding. */
  lemma Proceeds(t: Thread, text: string) returns (steps: seq<Step>)
    ensures Runs(steps) == Just(Extracts(t, [], [], text))
  {
    steps := Answers(t, text);
    RunsSnoc(steps, Other(StartAnswered(0)));
    assert Without([Start(t, 0)], 0) == [];
    steps := steps + [Other(StartAnswered(0))];
    RunsSnoc(steps, Other(TurnCompleted(t, 0, Completed(false))));
    Resolves(t, text, [], []);
    steps := steps + [Other(TurnCompleted(t, 0, Completed(false)))];
    steps := ResolvedGoesOn(t, [], [], text, steps);
  }

  /**
   A completion that the provider repeats once the extraction turn started resolves that one, with what it said
   so far.
   */
  lemma CompletionRepeatedLater(t: Thread, text: string) returns (steps: seq<Step>)
    ensures Runs(steps) == Just(Extracts(t, [], [], text))
    ensures Next(Runs(steps).value.table, TurnCompleted(t, 0, Completed(false))).value.log ==
              [Settlement(0, Resolved(text)), Settlement(1, Resolved(""))]
  {
    steps := Proceeds(t, text);
  }

  /**
   A completion that the provider repeats while an image is being written: the first one resolves the
   working turn, and the second one the extraction turn, with the working turn's result.
   */
  lemma RepeatedCompletion(t: Thread, text: string) returns (steps: seq<Step>)
    ensures Runs(steps) == Just(Extracts(t, [Late(t, 0, false, Resolved(text))], [], text))
    ensures Next(Runs(steps).value.table, LateSettles(0, true)).value.log ==
              [Settlement(0, Resolved(text)), Settlement(1, Resolved(text))]
  {
    var l, done := Late(t, 0, false, Resolved(text)), Other(TurnCompleted(t, 0, Completed(true)));
    steps := Answers(t, text);
    RunsSnoc(steps, Other(StartAnswered(0)));
    assert Without([Start(t, 0)], 0) == [];
    steps := steps + [Other(StartAnswered(0))];
    RunsSnoc(steps, done);
    assert [] + [l] == [l];
    steps := steps + [done];
    RunsSnoc(steps, done);
    steps := steps + [done];
    RunsSnoc(steps, Other(LateSettles(0, true)));
    assert Without([l] + [l], 0) == [l];
    Resolves(t, text, [l], []);
    steps := steps + [Other(LateSettles(0, true))];
    steps := ResolvedGoesOn(t, [l], [], text, steps);
  }

  /**
   A turn that completes although its turn/start was never answered: when that request times out, it rejects the
   extraction turn.
   */
  lemma UnansweredStart(t: Thread, text: string) returns (steps: seq<Step>)
    ensures Runs(steps) == Just(Extracts(t, [], [Start(t, 0)], text))
    ensures Next(Runs(steps).value.table, StartFails(0)).value.log ==
              [Settlement(0, Resolved(text)), Settlement(1, START_FAILED)]
  {
    var done := Other(TurnCompleted(t, 0, Completed(false)));
    steps := Answers(t, text);
    RunsSnoc(steps, done);
    Resolves(t, text, [], [Start(t, 0)]);
    steps := steps + [done];
    steps := ResolvedGoesOn(t, [], [Start(t, 0)], text, steps);
  }

  /** An error that names a thread without a turn, even one that will be retried, rejects another agent's turn. */
  lemma ErrorForAnotherThread(t: Thread, other: Thread, about: nat, willRetry: bool, text: string)
    returns (steps: seq<Step>)
    requires other != t
    ensures Runs(steps).Just? && Runs(steps).value.table.log == []
    ensures var after := Next(Runs(steps).value.table, ErrorNote(Just(other), about, willRetry, [t]));
            after.Just? && after.value.log == [Settlement(0, Rejected("codex_error"))]
  {
    steps := Answers(t, text);
    var s := Runs(steps).value.table;
    assert Lists(s, [t]) && [t][..0] == [];
    var o := Rejected("codex_error");
    assert SettleThese(s, [t], o) == Settle(SettleThese(s, [], o), t, o);
  }

  /* ----- the worker itself ----- */

  class CodexWorker {
    var turns: map<Thread, Turn>
    var late: seq<Late>
    var starts: seq<Start>
    var finals: seq<(Thread, nat)>
    var started: nat
    var shuttingDown: bool
    var log: seq<Settlement>

    function State(): Table
      reads this
    {
      Table(turns, late, starts, finals, started, shuttingDown, log)
    }

    constructor ()
      ensures State() == EMPTY
    {
      turns, late, starts, finals, started, shuttingDown, log := map[], [], [], [], 0, false, [];
    }

    /** settleResolve and settleReject. */
    method SettleTurn(t: Thread, o: Outcome)
      modifies this
      ensures State() == Settle(old(State()), t, o)
    {
      if t !in turns || turns[t].settled { return; }
      log := log + [Settlement(turns[t].ticket, o)];
      finals := finals + [(t, turns[t].ticket)];
      turns := turns[t := turns[t].(settled := true, watchdog := false)];
    }

    /** Settle every turn in the table, in the order its keys come. */
    method SettleEveryTurn(o: Outcome) returns (ghost order: seq<Thread>)
      modifies this
      ensures Lists(old(State()), order) && State() == SettleThese(old(State()), order, o)
    {
      order := [];
      var rest := turns.Keys;
      while rest != {}
        invariant forall t :: t in order || t in rest <==> t in old(turns)
        invariant State() == SettleThese(old(State()), order, o)
        decreases |rest|
      {
        var t :| t in rest;
        rest := rest - {t};
        assert (order + [t])[..|order|] == order;
        order := order + [t];
        SettleTurn(t, o);
      }
    }

    method RunTurn(t: Thread, aborted: bool, needsRole: bool) returns (ticket: nat)
      modifies this
      ensures ticket == old(started) && Next(old(State()), Run(t, aborted, needsRole)) == Just(State())
    {
      ticket := started;
      turns := turns[t := NewTurn(ticket, needsRole)];
      started := started + 1;
      if aborted { SettleTurn(t, INTERRUPTED); } else { starts := starts + [Start(t, ticket)]; }
    }

    /** The rejection handler of a turn/start request: it finds its turn by the thread. */
    method OnStartFailed(i: nat)
      requires i < |starts|
      modifies this
      ensures Next(old(State()), StartFails(i)) == Just(State())
    {
      var t := starts[i].thread;
      starts := Without(starts, i);
      SettleTurn(t, START_FAILED);
    }

    /** What a completion left to a role check or to file writes does when they are done. */
    method OnLate(i: nat, proven: bool)
      requires i < |late|
      modifies this
      ensures Next(old(State()), LateSettles(i, proven)) == Just(State())
    {
      var l := late[i];
      late := Without(late, i);
      if l.role && !proven { SettleTurn(l.thread, Rejected("child_role_unproven")); }
      else { SettleTurn(l.thread, l.outcome); }
    }

    method OnStartAnswered(i: nat)
      requires i < |starts|
      modifies this`starts
      ensures Next(old(State()), StartAnswered(i)) == Just(State())
    {
      starts := Without(starts, i);
    }

    method OnAbort(t: Thread)
      modifies this
      ensures Next(old(State()), Aborts(t)) == Just(State())
    {
      SettleTurn(t, INTERRUPTED);
    }

    /** Any event of a thread's turn arms its watchdog anew. */
    method TouchTurn(t: Thread)
      modifies this`turns
      ensures Next(old(State()), Touch(t)) == Just(State())
    {
      if t !in turns || turns[t].settled { return; }
      turns := turns[t := turns[t].(watchdog := true)];
    }

    method OnTurnStalled(t: Thread)
      requires t in turns && turns[t].watchdog
      modifies this
      ensures Next(old(State()), Stalled(t)) == Just(State())
    {
      SettleTurn(t, Rejected("turn_stalled"));
    }

    /** The finally handler of a settled promise: it removes whatever its thread has in the table. */
    method OnFinally(i: nat)
      requires i < |finals|
      modifies this`finals, this`turns
      ensures Next(old(State()), Finally(i)) == Just(State())
    {
      var t := finals[i].0;
      finals := Without(finals, i);
      turns := turns - {t};
    }

    method OnAgentMessage(t: Thread, text: string)
      modifies this
      ensures Next(old(State()), Says(t, text)) == Just(State())
    {
      if t in turns { turns := turns[t := turns[t].(text := text)]; }
    }

    method OnTurnCompleted(t: Thread, ghost about: nat, status: Status)
      modifies this
      ensures Next(old(State()), TurnCompleted(t, about, status)) == Just(State())
    {
      if t !in turns { return; }
      var turn := turns[t];
      match status
      case Interrupted => SettleTurn(t, INTERRUPTED);
      case Failed => SettleTurn(t, Rejected("turn_failed"));
      case Completed(writes) =>
        if turn.needsRole && turn.verifying { return; }
        if turn.needsRole { turns := turns[t := turn.(verifying := true)]; }
        if turn.needsRole || writes { late := late + [Late(t, turn.ticket, turn.needsRole, Resolved(turn.text))]; }
        else { SettleTurn(t, Resolved(turn.text)); }
    }

    method OnError(t: Option<Thread>, ghost about: nat, willRetry: bool) returns (ghost order: seq<Thread>)
      modifies this
      ensures Next(old(State()), ErrorNote(t, about, willRetry, order)) == Just(State())
    {
      order := [];
      if willRetry && t.Just? && t.value in turns { return; }
      if t.Just? && t.value in turns { SettleTurn(t.value, Rejected("codex_error")); }
      else { order := SettleEveryTurn(Rejected("codex_error")); }
    }

    method OnTurnCompletedDrift(t: Option<Thread>, ghost about: nat) returns (ghost order: seq<Thread>)
      modifies this
      ensures Next(old(State()), Drifted(t, about, order)) == Just(State())
    {
      order := [];
      if t.Just? { SettleTurn(t.value, Rejected("protocol_drift")); }
      else { order := SettleEveryTurn(Rejected("protocol_drift")); }
    }

    method OnProcessGone() returns (ghost order: seq<Thread>)
      modifies this
      ensures Next(old(State()), ProcessGone(order)) == Just(State())
    {
      order := [];
      if !shuttingDown { order := SettleEveryTurn(Rejected("process_gone")); }
    }

    method Stop() returns (ghost order: seq<Thread>)
      modifies this
      ensures Next(old(State()), Shutdown(order)) == Just(State())
    {
      shuttingDown := true;
      order := SettleEveryTurn(Rejected("shutdown"));
    }
  }
}
