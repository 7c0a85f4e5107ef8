/**
 The two folds of a run's event log: the server's snapshot (src/runtime/run-store.ts, foldSnapshot) and the
 viewer's incremental port of it (viewer/src/lib/fold.ts, foldEvents). Each has its own loop, verified against
 what a snapshot must say about its events, and that description admits one snapshot only, up to the run's
 name: the viewer does not read the name a workflow gives itself, and cuts file paths differently.
 */
module Folds {
  import opened Options

  datatype AgentState = Queued | Running | Done | Failed | Skipped

  datatype RunStatus = Unknown | Started | Ended(how: string)

  /**
   `carried` holds an agent event's other optional fields by name; label and provider get their defaults on
   display.
   */
  datatype Event =
    | RunEvent(t: int, status: RunStatus, workflowFile: Option<string>, workflowName: Option<string>,
      error: Option<string>)
    | PhaseEvent(t: int, index: int, title: string, pending: bool)
    | AgentEvent(t: int, index: int, phaseIndex: Option<int>, phaseTitle: Option<string>, carried: map<string, string>,
      state: AgentState)
    | LogEvent(t: int, message: string)

  datatype Agent = Agent(index: int, phaseIndex: Option<int>, phaseTitle: Option<string>, fields: map<string, string>,
    state: AgentState, t: int)

  datatype Phase = Phase(index: int, title: string, pending: bool, agents: seq<Agent>)

  datatype Counts = Counts(done: nat, failed: nat, unfinished: nat, skipped: nat)

  datatype Log = Log(t: int, message: string)

  /** What run events say about the run as a whole, but for its name. */
  datatype RunInfo = RunInfo(
    status: RunStatus, startedAt: Option<int>, endedAt: Option<int>, workflowFile: Option<string>,
      error: Option<string>)

  datatype Snapshot = Snapshot(run: RunInfo, name: Option<string>, agents: seq<Agent>, phases: seq<Phase>,
    logs: seq<Log>)

  function Or<T>(a: Option<T>, b: Option<T>): Option<T> { if a.Just? then a else b }

  /** A value the source tests for truth: present and not empty. */
  function Said(a: Option<string>): Option<string> { if a.Just? && a.value != "" then a else Nothing }

  /* ----- what a snapshot must say ----- */

  function AgentAfter(prev: Option<Agent>, e: Event): Agent
    requires e.AgentEvent?
  {
    if prev.Nothing? then Agent(e.index, e.phaseIndex, e.phaseTitle, e.carried, e.state, e.t)
    else
      Agent(e.index, Or(e.phaseIndex, prev.value.phaseIndex), Or(e.phaseTitle, prev.value.phaseTitle),
            prev.value.fields + e.carried, e.state, e.t)
  }

  function AgentMap(es: seq<Event>): map<int, Agent> {
    if es == [] then map[]
    else
      var m, e := AgentMap(es[..|es| - 1]), es[|es| - 1];
      if e.AgentEvent? then m[e.index := AgentAfter(if e.index in m then Just(m[e.index]) else Nothing, e)] else m
  }

  /** Title and pendingness from phase events alone. */
  function PhaseMap(es: seq<Event>): map<int, Phase> {
    if es == [] then map[]
    else
      var m, e := PhaseMap(es[..|es| - 1]), es[|es| - 1];
      if !e.PhaseEvent? then m
      else if e.index in m then m[e.index := m[e.index].(title := e.title, pending := m[e.index].pending && e.pending)]
      else m[e.index := Phase(e.index, e.title, e.pending, [])]
  }

  /** The status of the last run event. */
  function LastStatus(es: seq<Event>): RunStatus {
    if es == [] then Unknown else if es[|es| - 1].RunEvent? then es[|es| - 1].status else LastStatus(es[..|es| - 1])
  }

  predicate IsStart(e: Event) { e.RunEvent? && e.status.Started? }

  predicate IsEnd(e: Event) { e.RunEvent? && !e.status.Started? }

  /** When the run first started. */
  function FirstStart(es: seq<Event>): Option<int> {
    if es == [] then Nothing else if IsStart(es[0]) then Just(es[0].t) else FirstStart(es[1..])
  }

  /** When it last ended. */
  function LastEnd(es: seq<Event>): Option<int> {
    if es == [] then Nothing else if IsEnd(es[|es| - 1]) then Just(es[|es| - 1].t) else LastEnd(es[..|es| - 1])
  }

  /** The last file a start named. */
  function LastFile(es: seq<Event>): Option<string> {
    if es == [] then Nothing
    else
      var e := es[|es| - 1];
      if IsStart(e) && Said(e.workflowFile).Just? then e.workflowFile else LastFile(es[..|es| - 1])
  }

  /** The last name a workflow gave itself. */
  function LastName(es: seq<Event>): Option<string> {
    if es == [] then Nothing
    else
      var e := es[|es| - 1];
      if IsStart(e) && Said(e.workflowName).Just? then e.workflowName else LastName(es[..|es| - 1])
  }

  /** The last error an end gave. */
  function LastError(es: seq<Event>): Option<string> {
    if es == [] then Nothing
    else
      var e := es[|es| - 1];
      if IsEnd(e) && Said(e.error).Just? then e.error else LastError(es[..|es| - 1])
  }

  function RunOf(es: seq<Event>): RunInfo {
    RunInfo(LastStatus(es), FirstStart(es), LastEnd(es), LastFile(es), LastError(es))
  }

  function Logs(es: seq<Event>): seq<Log> {
    if es == [] then []
    else Logs(es[..|es| - 1]) + if es[|es| - 1].LogEvent? then [Log(es[|es| - 1].t, es[|es| - 1].message)] else []
  }

  /** The states of the agents of the current attempt: those heard of since the last start. */
  function Current(es: seq<Event>): map<int, AgentState> {
    if es == [] then map[]
    else
      var m, e := Current(es[..|es| - 1]), es[|es| - 1];
      if e.RunEvent? && e.status.Started? then map[]
      else if e.AgentEvent? then m[e.index := e.state]
      else m
  }

  predicate Increasing(q: seq<int>) { forall i, j :: 0 <= i < j < |q| ==> q[i] < q[j] }

  function AgentKeys(q: seq<Agent>): seq<int> { seq(|q|, i requires 0 <= i < |q| => q[i].index) }

  function PhaseKeys(q: seq<Phase>): seq<int> { seq(|q|, i requires 0 <= i < |q| => q[i].index) }

  /** `q` lists the agents of `m` once each, strictly by index. */
  ghost predicate ListsAgents(m: map<int, Agent>, q: seq<Agent>) {
    && Increasing(AgentKeys(q))
    && (forall i :: 0 <= i < |q| ==> q[i].index in m && m[q[i].index] == q[i])
    && (forall k :: k in m ==> k in AgentKeys(q))
  }

  function InPhase(agents: seq<Agent>, k: int): seq<Agent> {
    if agents == [] then []
    else InPhase(agents[..|agents| - 1], k) + if agents[|agents| - 1].phaseIndex == Just(k) then [agents[|agents| - 1]]
      else []
  }

  /** The title a phase gets that only agents mention: the first such agent's. */
  function GuessedTitle(name: int -> string, a: Agent): string
    requires a.phaseIndex.Just?
  {
    if a.phaseTitle.Just? then a.phaseTitle.value else name(a.phaseIndex.value)
  }

  function PhaseAt(name: int -> string, declared: map<int, Phase>, agents: seq<Agent>, k: int): Phase {
    var inside := InPhase(agents, k);
    var title :=
      if k in declared then declared[k].title
      else if inside != [] && inside[0].phaseIndex.Just? then GuessedTitle(name, inside[0])
      else "";
    Phase(k, title, k in declared && declared[k].pending && inside == [], inside)
  }

  predicate Mentioned(declared: map<int, Phase>, agents: seq<Agent>, k: int) {
    k in declared || InPhase(agents, k) != []
  }

  /** `q` lists the mentioned phases once each, strictly by index. */
  ghost predicate ListsPhases(name: int -> string, declared: map<int, Phase>, agents: seq<Agent>, q: seq<Phase>) {
    && Increasing(PhaseKeys(q))
    && (forall i :: 0 <= i < |q| ==>
      Mentioned(declared, agents, q[i].index) && q[i] == PhaseAt(name, declared, agents, q[i].index))
    && (forall k :: Mentioned(declared, agents, k) ==> k in PhaseKeys(q))
  }

  ghost predicate Describes(name: int -> string, es: seq<Event>, s: Snapshot) {
    && s.run == RunOf(es) && s.logs == Logs(es)
    && ListsAgents(AgentMap(es), s.agents)
    && ListsPhases(name, PhaseMap(es), s.agents, s.phases)
  }

  /* ----- one snapshot only ----- */

  predicate Within(p: seq<int>, q: seq<int>) { forall i :: 0 <= i < |p| ==> p[i] in q }

  lemma FirstIsIn(q: seq<int>)
    ensures q != [] ==> q[0] in q
  {}

  /** An increasing list within another ends no later. */
  lemma EndsNoLater(p: seq<int>, q: seq<int>)
    requires Increasing(q) && Within(p, q) && p != []
    ensures q != [] && p[|p| - 1] <= q[|q| - 1]
  {
    var last := p[|p| - 1];
    assert last in q;
    var i :| 0 <= i < |q| && q[i] == last;
  }

  lemma RestIncreases(q: seq<int>)
    requires Increasing(q) && q != []
    ensures Increasing(q[..|q| - 1]) && q == q[..|q| - 1] + [q[|q| - 1]]
  {}

  lemma NothingWithin(q: seq<int>)
    requires Within(q, [])
    ensures q == []
  {
    FirstIsIn(q);
  }

  /** Two increasing lists of the same numbers are the same list. */
  lemma {:induction false} IncreasingIsUnique(p: seq<int>, q: seq<int>)
    requires Increasing(p) && Increasing(q) && Within(p, q) && Within(q, p)
    ensures p == q
  {
    hide Increasing, Within;
    if p == [] {
      NothingWithin(q);
    } else {
      EndsNoLater(p, q);
      EndsNoLater(q, p);
      WithinRest(p, q);
      WithinRest(q, p);
      RestIncreases(p);
      RestIncreases(q);
      IncreasingIsUnique(p[..|p| - 1], q[..|q| - 1]);
    }
  }

  lemma WithinRest(p: seq<int>, q: seq<int>)
    requires Increasing(p) && Within(p, q) && p != [] && q != [] && p[|p| - 1] == q[|q| - 1]
    ensures Within(p[..|p| - 1], q[..|q| - 1])
  {
    forall i | 0 <= i < |p| - 1 ensures p[i] in q[..|q| - 1] {
      var j :| 0 <= j < |q| && q[j] == p[i];
      assert q[..|q| - 1][j] == p[i];
    }
  }

  lemma AgentListIsUnique(m: map<int, Agent>, p: seq<Agent>, q: seq<Agent>)
    requires ListsAgents(m, p) && ListsAgents(m, q)
    ensures p == q
  {
    hide Increasing;
    assert Within(AgentKeys(p), AgentKeys(q)) && Within(AgentKeys(q), AgentKeys(p));
    IncreasingIsUnique(AgentKeys(p), AgentKeys(q));
    assert |AgentKeys(p)| == |p| && |AgentKeys(q)| == |q|;
    forall i | 0 <= i < |p| ensures p[i] == q[i] {
      assert AgentKeys(p)[i] == AgentKeys(q)[i];
    }
  }

  lemma PhaseListIsUnique(name: int -> string, declared: map<int, Phase>, agents: seq<Agent>, p: seq<Phase>,
      q: seq<Phase>)
    requires ListsPhases(name, declared, agents, p) && ListsPhases(name, declared, agents, q)
    ensures p == q
  {
    hide Increasing, PhaseAt, Mentioned;
    assert Within(PhaseKeys(p), PhaseKeys(q)) && Within(PhaseKeys(q), PhaseKeys(p));
    IncreasingIsUnique(PhaseKeys(p), PhaseKeys(q));
    assert |PhaseKeys(p)| == |p| && |PhaseKeys(q)| == |q|;
    forall i | 0 <= i < |p| ensures p[i] == q[i] {
      assert PhaseKeys(p)[i] == PhaseKeys(q)[i];
    }
  }

  /** The events determine the snapshot, but for its name. */
  lemma OneSnapshot(name: int -> string, es: seq<Event>, s: Snapshot, u: Snapshot)
    requires Describes(name, es, s) && Describes(name, es, u)
    ensures s == u.(name := s.name)
  {
    hide ListsAgents, ListsPhases;
    AgentListIsUnique(AgentMap(es), s.agents, u.agents);
    PhaseListIsUnique(name, PhaseMap(es), s.agents, s.phases, u.phases);
  }

  /* ----- what the description entails ----- */

  /** The last value any event carried for a field of an agent. */
  function LastCarried(es: seq<Event>, index: int, field: string): Option<string> {
    if es == [] then Nothing
    else
      var e := es[|es| - 1];
      if e.AgentEvent? && e.index == index && field in e.carried then Just(e.carried[field])
        else LastCarried(es[..|es| - 1], index, field)
  }

  function LastPhase(es: seq<Event>, index: int): Option<int> {
    if es == [] then Nothing
    else
      var e := es[|es| - 1];
      if e.AgentEvent? && e.index == index && e.phaseIndex.Just? then e.phaseIndex else LastPhase(es[..|es| - 1], index)
  }

  /** The latest event of an agent. */
  function LastEvent(es: seq<Event>, index: int): Option<Event> {
    if es == [] then Nothing
    else if es[|es| - 1].AgentEvent? && es[|es| - 1].index == index then Just(es[|es| - 1])
    else LastEvent(es[..|es| - 1], index)
  }

  /**
   Each agent heard of appears, with the state and time of its last event and every sticky field at its last
   carried value.
   */
  lemma {:induction false} AgentsAreSticky(es: seq<Event>, index: int, field: string)
    ensures var m, e := AgentMap(es), LastEvent(es, index);
            && (index in m <==> e.Just?)
            && (e.Just? ==> e.value.AgentEvent? && m[index].index == index)
            && (e.Just? ==> m[index].state == e.value.state && m[index].t == e.value.t)
            && (e.Just? ==> m[index].phaseIndex == LastPhase(es, index))
            && (e.Just? ==> (field in m[index].fields <==> LastCarried(es, index, field).Just?))
            && (e.Just? && field in m[index].fields ==> LastCarried(es, index, field) == Just(m[index].fields[field]))
            && (e.Nothing? ==> LastCarried(es, index, field).Nothing? && LastPhase(es, index).Nothing?)
  {
    if es != [] { AgentsAreSticky(es[..|es| - 1], index, field); }
  }

  lemma {:induction false} InPhaseIs(agents: seq<Agent>, k: int, a: Agent)
    ensures a in InPhase(agents, k) <==> a in agents && a.phaseIndex == Just(k)
  {
    if agents != [] {
      InPhaseIs(agents[..|agents| - 1], k, a);
      assert agents == agents[..|agents| - 1] + [agents[|agents| - 1]];
    }
  }

  /** An agent with a phase is in that phase, once, and in no other; one without is in none. */
  lemma EachAgentInItsPhase(name: int -> string, es: seq<Event>, s: Snapshot, a: Agent, p: Phase)
    requires Describes(name, es, s) && a in s.agents && p in s.phases
    ensures a in p.agents <==> a.phaseIndex == Just(p.index)
    ensures a.phaseIndex.Just? ==>
              exists i :: 0 <= i < |s.phases| && s.phases[i].index == a.phaseIndex.value && a in s.phases[i].agents
    ensures p.agents != [] ==> !p.pending
  {
    InPhaseIs(s.agents, p.index, a);
    if a.phaseIndex.Just? {
      var k := a.phaseIndex.value;
      InPhaseIs(s.agents, k, a);
      assert a in InPhase(s.agents, k) && Mentioned(PhaseMap(es), s.agents, k);
      var i :| 0 <= i < |s.phases| && PhaseKeys(s.phases)[i] == k;
    }
  }

  /* ----- counts ----- */

  function CountsOf(states: seq<AgentState>): Counts {
    if states == [] then Counts(0, 0, 0, 0)
    else
      var c := CountsOf(states[..|states| - 1]);
      match states[|states| - 1]
      case Queued => c.(unfinished := c.unfinished + 1)
      case Running => c.(unfinished := c.unfinished + 1)
      case Done => c.(done := c.done + 1)
      case Failed => c.(failed := c.failed + 1)
      case Skipped => c.(skipped := c.skipped + 1)
  }

  method CountAgentStates(states: seq<AgentState>) returns (counts: Counts)
    ensures counts == CountsOf(states)
  {
    var done, failed, unfinished, skipped := 0, 0, 0, 0;
    var i := 0;
    while i < |states|
      invariant i <= |states| && CountsOf(states[..i]) == Counts(done, failed, unfinished, skipped)
    {
      assert states[..i + 1][..i] == states[..i];
      match states[i] {
        case Queued | Running => unfinished := unfinished + 1;
        case Done => done := done + 1;
        case Failed => failed := failed + 1;
        case Skipped => skipped := skipped + 1;
      }
      i := i + 1;
    }
    assert states[..i] == states;
    return Counts(done, failed, unfinished, skipped);
  }

  /** The agents heard of since the last start. */
  function HeardOf(es: seq<Event>): set<int> {
    if es == [] then {}
    else
      var e := es[|es| - 1];
      if e.RunEvent? && e.status.Started? then {}
      else HeardOf(es[..|es| - 1]) + if e.AgentEvent? then {e.index} else {}
  }

  lemma {:induction false} CurrentIsHeardOf(es: seq<Event>)
    ensures Current(es).Keys == HeardOf(es)
  {
    if es != [] { CurrentIsHeardOf(es[..|es| - 1]); }
  }

  /* ----- names ----- */

  /** What follows the last of the characters in `cuts`. */
  function AfterLast(path: string, cuts: set<char>): string {
    if path == "" || path[|path| - 1] in cuts then "" else AfterLast(path[..|path| - 1], cuts) + [path[|path| - 1]]
  }

  function TrimSlashes(path: string): string {
    if path != "" && path[|path| - 1] == '/' then TrimSlashes(path[..|path| - 1]) else path
  }

  /** Node's basename, on a POSIX machine. */
  function Basename(path: string): string { AfterLast(TrimSlashes(path), {'/'}) }

  /** runBaseName: what follows the last slash of either kind. */
  function RunBaseName(path: string): string { AfterLast(path, {'/', '\\'}) }

  /** The server prefers the name the workflow gave itself; `stem` drops a workflow file's extensions. */
  function ServerName(stem: string -> string, es: seq<Event>): Option<string> {
    if LastName(es).Just? then LastName(es)
    else if LastFile(es).Just? then Just(stem(Basename(LastFile(es).value)))
    else Nothing
  }

  function ViewerName(stem: string -> string, es: seq<Event>): Option<string> {
    if LastFile(es).Just? then Just(stem(RunBaseName(LastFile(es).value))) else Nothing
  }

  lemma {:induction false} AfterBothCuts(path: string)
    ensures '/' !in AfterLast(path, {'/'})
    ensures AfterLast(path, {'/', '\\'}) == AfterLast(AfterLast(path, {'/'}), {'\\'})
  {
    if path != "" && path[|path| - 1] != '/' {
      var n := |path| - 1;
      AfterBothCuts(path[..n]);
      var inner := AfterLast(path, {'/'});
      assert inner[..|inner| - 1] == AfterLast(path[..n], {'/'});
    }
  }

  lemma {:induction false} NothingCut(path: string, c: char)
    ensures AfterLast(path, {c}) == path <==> c !in path
    ensures |AfterLast(path, {c})| <= |path|
  {
    if path != "" {
      var n := |path| - 1;
      NothingCut(path[..n], c);
      assert path == path[..n] + [path[n]];
      if path[n] != c && c !in path { assert AfterLast(path[..n], {c}) == path[..n]; }
      if AfterLast(path, {c}) == path { assert AfterLast(path[..n], {c}) == path[..n]; }
    }
  }

  lemma {:induction false} Trimmed(path: string)
    ensures var t := TrimSlashes(path);
              (t == path <==> path == "" || path[|path| - 1] != '/') && (t != "" ==> t[|t| - 1] != '/')
    ensures TrimSlashes(path) != "" ==> Basename(path) != ""
  {
    if path != "" && path[|path| - 1] == '/' { Trimmed(path[..|path| - 1]); NeverLonger(path[..|path| - 1]); }
  }

  lemma {:induction false} NeverLonger(path: string)
    ensures |TrimSlashes(path)| <= |path|
  {
    if path != "" { NeverLonger(path[..|path| - 1]); }
  }

  /**
   The two ways of cutting a path agree exactly on last segments without backslashes of paths that do not end in
   a slash, and on slashes alone.
   */
  lemma BaseNamesAgreeExactly(path: string)
    ensures Basename(path) == RunBaseName(path) <==>
              '\\' !in Basename(path) && (path != "" && path[|path| - 1] == '/' ==> TrimSlashes(path) == "")
  {
    Trimmed(path);
    AfterBothCuts(path);
    NothingCut(AfterLast(path, {'/'}), '\\');
  }

  /** When do the two names agree, on any events? */
  predicate SameName(stem: string -> string, es: seq<Event>) {
    var file := LastFile(es);
    if LastName(es).Just? then file.Just? && stem(RunBaseName(file.value)) == LastName(es).value
    else file.Just? ==> stem(Basename(file.value)) == stem(RunBaseName(file.value))
  }

  /** A workflow that names itself otherwise than its file does has two names. */
  lemma NamesDiffer(stem: string -> string, t: int, file: string, given: string)
    requires file != "" && given != "" && given != stem(RunBaseName(file))
    ensures var es := [RunEvent(t, Started, Just(file), Just(given), Nothing)];
              ServerName(stem, es) != ViewerName(stem, es)
  {
    var es := [RunEvent(t, Started, Just(file), Just(given), Nothing)];
    assert LastName(es) == Just(given) && LastFile(es) == Just(file);
  }

  /* ----- the two folds ----- */

  /** The keys of a Map, each once, in the order they came. */
  ghost predicate Enumerates(keys: seq<int>, s: set<int>) {
    (forall i, j :: 0 <= i < j < |keys| ==> keys[i] != keys[j])
    && (forall i :: 0 <= i < |keys| ==> keys[i] in s) && (forall k :: k in s ==> k in keys)
  }

  /** The agents of the current attempt in a given state. */
  function InState(m: map<int, AgentState>, states: set<AgentState>): set<int> { set k | k in m && m[k] in states }

  function ValuesOf(m: map<int, AgentState>, keys: seq<int>): seq<AgentState>
    requires forall i :: 0 <= i < |keys| ==> keys[i] in m
  {
    seq(|keys|, i requires 0 <= i < |keys| => m[keys[i]])
  }

  /** Counting the values counts the agents in each state. */
  lemma {:induction false} CountsAreSizes(m: map<int, AgentState>, keys: seq<int>)
    requires Enumerates(keys, m.Keys)
    ensures CountsOf(ValuesOf(m, keys)) ==
            Counts(|InState(m, {Done})|, |InState(m, {Failed})|, |InState(m, {Queued, Running})|,
              |InState(m, {Skipped})|)
  {
    if keys == [] {
      assert forall k :: k !in m;
      assert InState(m, {Done}) == InState(m, {Failed}) == InState(m, {Queued, Running}) == InState(m, {Skipped}) == {};
    } else {
      var n := |keys| - 1;
      var k, rest := keys[n], m - {keys[n]};
      EnumeratesFewer(keys, m.Keys);
      assert rest.Keys == m.Keys - {k};
      CountsAreSizes(rest, keys[..n]);
      assert ValuesOf(m, keys)[..n] == ValuesOf(rest, keys[..n]);
      OneFewer(m, k, {Done});
      OneFewer(m, k, {Failed});
      OneFewer(m, k, {Queued, Running});
      OneFewer(m, k, {Skipped});
    }
  }

  lemma EnumeratesFewer(keys: seq<int>, s: set<int>)
    requires Enumerates(keys, s) && keys != []
    ensures Enumerates(keys[..|keys| - 1], s - {keys[|keys| - 1]})
  {
    var n := |keys| - 1;
    forall k | k in s - {keys[n]} ensures k in keys[..n] {
      var i :| 0 <= i < |keys| && keys[i] == k;
      assert keys[..n][i] == k;
    }
  }

  lemma OneFewer(m: map<int, AgentState>, k: int, states: set<AgentState>)
    requires k in m
    ensures |InState(m, states)| == |InState(m - {k}, states)| + if m[k] in states then 1 else 0
  {
    var rest := InState(m - {k}, states);
    if m[k] in states { assert InState(m, states) == rest + {k}; } else { assert InState(m, states) == rest; }
  }

  lemma InsertKeepsOrder(q: seq<int>, i: nat, k: int)
    requires Increasing(q) && i <= |q| && (forall j :: 0 <= j < i ==> q[j] < k) && (i < |q| ==> k < q[i])
    ensures Increasing(q[..i] + [k] + q[i..])
  {
    var r := q[..i] + [k] + q[i..];
    assert forall j :: 0 <= j < |r| ==> r[j] == if j < i then q[j] else if j == i then k else q[j - 1];
  }

  method InsertKey(q: seq<int>, k: int) returns (r: seq<int>)
    requires Increasing(q) && k !in q
    ensures Increasing(r) && forall x :: x in r <==> x in q || x == k
  {
    var i := 0;
    while i < |q| && q[i] < k
      invariant i <= |q| && forall j :: 0 <= j < i ==> q[j] < k
    {
      i := i + 1;
    }
    r := q[..i] + [k] + q[i..];
    InsertKeepsOrder(q, i, k);
    assert q == q[..i] + q[i..];
  }

  /** Sort by index what a Map yields in the order its keys came. */
  method SortKeys(keys: seq<int>) returns (r: seq<int>)
    requires forall i, j :: 0 <= i < j < |keys| ==> keys[i] != keys[j]
    ensures Increasing(r) && forall x :: x in r <==> x in keys
  {
    r := [];
    for n := 0 to |keys|
      invariant Increasing(r) && forall x :: x in r <==> x in keys[..n]
    {
      assert keys[..n + 1] == keys[..n] + [keys[n]];
      r := InsertKey(r, keys[n]);
    }
    assert keys[..|keys|] == keys;
  }

  method SortAgents(m: map<int, Agent>, keys: seq<int>) returns (q: seq<Agent>)
    requires Enumerates(keys, m.Keys) && forall k :: k in m ==> m[k].index == k
    ensures ListsAgents(m, q)
  {
    var sorted := SortKeys(keys);
    SortedIsIn(keys, sorted, m.Keys);
    q := seq(|sorted|, i requires 0 <= i < |sorted| => m[sorted[i]]);
    assert forall i :: 0 <= i < |sorted| ==> m[sorted[i]].index == sorted[i];
    assert AgentKeys(q) == sorted;
  }

  lemma SortedIsIn(keys: seq<int>, sorted: seq<int>, s: set<int>)
    requires Enumerates(keys, s) && forall x :: x in sorted <==> x in keys
    ensures (forall i :: 0 <= i < |sorted| ==> sorted[i] in s) && forall k :: k in s ==> k in sorted
  {
    forall i | 0 <= i < |sorted| ensures sorted[i] in s {
      var x := sorted[i];
      assert x in sorted;
      var j :| 0 <= j < |keys| && keys[j] == x;
    }
  }

  /** A phase before agents are put in it. */
  function Opened(name: int -> string, declared: map<int, Phase>, agents: seq<Agent>, k: int): Phase {
    PhaseAt(name, declared, agents, k).(agents := [], pending := k in declared && declared[k].pending)
  }

  lemma InPhaseSnoc(agents: seq<Agent>, n: nat, k: int)
    requires n < |agents|
    ensures InPhase(agents[..n + 1], k) ==
              InPhase(agents[..n], k) + if agents[n].phaseIndex == Just(k) then [agents[n]] else []
  {
    assert agents[..n + 1][..n] == agents[..n];
  }

  /** The agents of a phase have it. */
  lemma {:induction false} InPhaseHas(agents: seq<Agent>, k: int)
    ensures forall i :: 0 <= i < |InPhase(agents, k)| ==> InPhase(agents, k)[i].phaseIndex == Just(k)
  {
    if agents != [] { InPhaseHas(agents[..|agents| - 1], k); }
  }

  /** Open a phase for every agent's phase index that no event declared. */
  method OpenPhases(name: int -> string, declared: map<int, Phase>, order: seq<int>, agents: seq<Agent>)
    returns (m: map<int, Phase>, keys: seq<int>)
    requires Enumerates(order, declared.Keys)
    requires forall k :: k in declared ==> declared[k].index == k && declared[k].agents == []
    ensures Enumerates(keys, m.Keys)
    ensures forall k :: k in m <==> Mentioned(declared, agents, k)
    ensures forall k :: k in m ==> m[k] == Opened(name, declared, agents, k)
  {
    m, keys := declared, order;
    for n := 0 to |agents|
      invariant Enumerates(keys, m.Keys)
      invariant forall k :: k in m <==> Mentioned(declared, agents[..n], k)
      invariant forall k :: k in m ==> m[k] == Opened(name, declared, agents[..n], k)
    {
      var a := agents[n];
      OpenOneMore(name, declared, agents, n);
      if a.phaseIndex.Just? && a.phaseIndex.value !in m {
        EnumeratesMore(keys, m.Keys, a.phaseIndex.value);
        keys := keys + [a.phaseIndex.value];
        var title := if a.phaseTitle.Just? then a.phaseTitle.value else name(a.phaseIndex.value);
        m := m[a.phaseIndex.value := Phase(a.phaseIndex.value, title, false, [])];
      }
    }
    assert agents[..|agents|] == agents;
  }

  lemma EnumeratesMore(keys: seq<int>, s: set<int>, k: int)
    requires Enumerates(keys, s) && k !in s
    ensures Enumerates(keys + [k], s + {k})
  {
    var more := keys + [k];
    assert more[|keys|] == k;
    forall x | x in s ensures x in more {
      var i :| 0 <= i < |keys| && keys[i] == x;
      assert more[i] == x;
    }
  }

  lemma OpenOneMore(name: int -> string, declared: map<int, Phase>, agents: seq<Agent>, n: nat)
    requires n < |agents|
    ensures forall k: int :: Mentioned(declared, agents[..n + 1], k) <==>
              Mentioned(declared, agents[..n], k) || agents[n].phaseIndex == Just(k)
    ensures forall k: int :: Mentioned(declared, agents[..n], k) ==>
              Opened(name, declared, agents[..n + 1], k) == Opened(name, declared, agents[..n], k)
    ensures forall k: int :: !Mentioned(declared, agents[..n], k) && agents[n].phaseIndex == Just(k) ==>
              Opened(name, declared, agents[..n + 1], k) == Phase(k, GuessedTitle(name, agents[n]), false, [])
  {
    forall k: int
      ensures Mentioned(declared, agents[..n + 1], k) <==>
                Mentioned(declared, agents[..n], k) || agents[n].phaseIndex == Just(k)
      ensures Mentioned(declared, agents[..n], k) ==>
                Opened(name, declared, agents[..n + 1], k) == Opened(name, declared, agents[..n], k)
      ensures !Mentioned(declared, agents[..n], k) && agents[n].phaseIndex == Just(k) ==>
                Opened(name, declared, agents[..n + 1], k) == Phase(k, GuessedTitle(name, agents[n]), false, [])
    {
      InPhaseSnoc(agents, n, k);
      hide InPhase;
    }
  }

  /** Put every agent in its phase, then settle what is pending and sort. */
  method Assemble(name: int -> string, declared: map<int, Phase>, order: seq<int>, agents: seq<Agent>)
    returns (phases: seq<Phase>)
    requires Enumerates(order, declared.Keys)
    requires forall k :: k in declared ==> declared[k].index == k && declared[k].agents == []
    ensures ListsPhases(name, declared, agents, phases)
  {
    var m, keys := OpenPhases(name, declared, order, agents);
    ghost var before := m;
    for n := 0 to |agents|
      invariant m.Keys == before.Keys
      invariant forall k :: k in m ==> m[k] == before[k].(agents := InPhase(agents[..n], k))
    {
      forall k: int
        ensures InPhase(agents[..n + 1], k) ==
                InPhase(agents[..n], k) + if agents[n].phaseIndex == Just(k) then [agents[n]] else [] {
        InPhaseSnoc(agents, n, k);
      }
      var p := agents[n].phaseIndex;
      if p.Just? && p.value in m { m := m[p.value := m[p.value].(agents := m[p.value].agents + [agents[n]])]; }
    }
    assert agents[..|agents|] == agents;
    var sorted := SortKeys(keys);
    SortedIsIn(keys, sorted, m.Keys);
    phases := seq(|sorted|, i requires 0 <= i < |sorted| => Settle(m[sorted[i]]));
    assert forall i :: 0 <= i < |sorted| ==> m[sorted[i]].index == sorted[i];
    assert PhaseKeys(phases) == sorted;
  }

  /** A phase with agents under it has started. */
  function Settle(p: Phase): Phase { if p.agents != [] then p.(pending := false) else p }

  lemma {:induction false} PhaseMapIs(es: seq<Event>)
    ensures forall k :: k in PhaseMap(es) ==> PhaseMap(es)[k].index == k && PhaseMap(es)[k].agents == []
  {
    if es != [] { PhaseMapIs(es[..|es| - 1]); }
  }

  lemma AgentMapIs(es: seq<Event>)
    ensures forall k :: k in AgentMap(es) ==> AgentMap(es)[k].index == k
  {
    forall k | k in AgentMap(es) ensures AgentMap(es)[k].index == k { AgentsAreSticky(es, k, ""); }
  }

  /** A Map keeps a key's place when its value is set again. */
  function Keyed(keys: seq<int>, known: bool, k: int): seq<int> { if known then keys else keys + [k] }

  lemma KeyedEnumerates<T>(keys: seq<int>, m: map<int, T>, k: int, v: T)
    requires Enumerates(keys, m.Keys)
    ensures Enumerates(Keyed(keys, k in m, k), m[k := v].Keys)
  {
    assert m[k := v].Keys == m.Keys + {k};
    if k in m { assert m.Keys + {k} == m.Keys; } else { EnumeratesMore(keys, m.Keys, k); }
  }

  lemma KeysAreIn(keys: seq<int>, s: set<int>)
    requires Enumerates(keys, s)
    ensures forall i :: 0 <= i < |keys| ==> keys[i] in s
  {}

  lemma {:induction false} FirstStartSnoc(es: seq<Event>, n: nat)
    requires n < |es|
    ensures FirstStart(es[..n + 1]) == Or(FirstStart(es[..n]), if IsStart(es[n]) then Just(es[n].t) else Nothing)
  {
    var q := es[..n + 1];
    if n > 0 {
      FirstStartSnoc(es[1..], n - 1);
      assert es[1..][..n] == q[1..] && es[1..][..n - 1] == es[..n][1..];
    }
  }

  /** The viewer's fold. */
  method FoldEvents(name: int -> string, stem: string -> string, es: seq<Event>) returns (s: Snapshot)
    ensures Describes(name, es, s) && s.name == ViewerName(stem, es)
  {
    hide ListsAgents, ListsPhases, Enumerates, RunBaseName, FirstStart;
    var agents, agentKeys: seq<int>, phases, phaseKeys: seq<int>, logs: seq<Log> := map[], [], map[], [], [];
    var status, startedAt, endedAt, workflowFile, error := Unknown, Nothing, Nothing, Nothing, Nothing;
    NothingYet();
    assert agents.Keys == {} && phases.Keys == {};
    for n := 0 to |es|
      invariant agents == AgentMap(es[..n]) && Enumerates(agentKeys, agents.Keys)
      invariant phases == PhaseMap(es[..n]) && Enumerates(phaseKeys, phases.Keys)
      invariant status == LastStatus(es[..n]) && startedAt == FirstStart(es[..n]) && endedAt == LastEnd(es[..n])
      invariant workflowFile == LastFile(es[..n]) && error == LastError(es[..n]) && logs == Logs(es[..n])
    {
      assert es[..n + 1][..n] == es[..n];
      FirstStartSnoc(es, n);
      match es[n]
      case RunEvent(t, how, file, _, why) =>
        if how.Started? {
          status := Started;
          if startedAt.Nothing? { startedAt := Just(t); }
          if file.Just? && file.value != "" { workflowFile := file; }
        } else {
          status, endedAt := how, Just(t);
          if why.Just? && why.value != "" { error := why; }
        }
      case PhaseEvent(_, k, title, pending) =>
        ghost var keys, before := phaseKeys, phases;
        if k in phases {
          phases := phases[k := phases[k].(title := title, pending := if pending then phases[k].pending else false)];
        } else {
          phases, phaseKeys := phases[k := Phase(k, title, pending, [])], phaseKeys + [k];
        }
        KeyedEnumerates(keys, before, k, phases[k]);
      case AgentEvent(t, k, phaseIndex, phaseTitle, carried, state) =>
        ghost var keys, before := agentKeys, agents;
        if k in agents {
          var p := agents[k];
          agents := agents[k := Agent(k, if phaseIndex.Just? then phaseIndex else p.phaseIndex,
                                      if phaseTitle.Just? then phaseTitle
                                        else p.phaseTitle, p.fields + carried, state, t)];
        } else {
          agents, agentKeys := agents[k := Agent(k, phaseIndex, phaseTitle, carried, state, t)], agentKeys + [k];
        }
        KeyedEnumerates(keys, before, k, agents[k]);
      case LogEvent(t, message) => logs := logs + [Log(t, message)];
    }
    assert es[..|es|] == es;
    AgentMapIs(es);
    PhaseMapIs(es);
    var listed := SortAgents(agents, agentKeys);
    var assembled := Assemble(name, phases, phaseKeys, listed);
    var shown := if workflowFile.Just? then Just(stem(RunBaseName(workflowFile.value))) else Nothing;
    return Snapshot(RunInfo(status, startedAt, endedAt, workflowFile, error), shown, listed, assembled, logs);
  }

  lemma NothingYet()
    ensures FirstStart([]) == Nothing && Enumerates([], {})
  {}

  /**
   The server's fold, which also reads the workflow's own name and counts the agents of the current attempt by
   state.
   */
  method FoldSnapshot(name: int -> string, stem: string -> string, es: seq<Event>) returns (s: Snapshot, counts: Counts)
    ensures Describes(name, es, s) && s.name == ServerName(stem, es)
    ensures var m := Current(es);
            counts == Counts(|InState(m, {Done})|, |InState(m, {Failed})|, |InState(m, {Queued, Running})|,
              |InState(m, {Skipped})|)
  {
    hide ListsAgents, ListsPhases, InState, Enumerates, Basename, FirstStart;
    var current, currentKeys: seq<int> := map[], [];
    var agents, agentKeys: seq<int>, phases, phaseKeys: seq<int>, logs: seq<Log> := map[], [], map[], [], [];
    var run, workflowName := RunInfo(Unknown, Nothing, Nothing, Nothing, Nothing), Nothing;
    NothingYet();
    assert agents.Keys == {} && phases.Keys == {} && current.Keys == {};
    for n := 0 to |es|
      invariant agents == AgentMap(es[..n]) && Enumerates(agentKeys, agents.Keys)
      invariant phases == PhaseMap(es[..n]) && Enumerates(phaseKeys, phases.Keys)
      invariant run == RunOf(es[..n]) && workflowName == LastName(es[..n]) && logs == Logs(es[..n])
      invariant current == Current(es[..n]) && Enumerates(currentKeys, current.Keys)
    {
      assert es[..n + 1][..n] == es[..n];
      FirstStartSnoc(es, n);
      var e := es[n];
      match e
      case RunEvent(t, status, file, given, error) =>
        if status.Started? {
          current, currentKeys := map[], [];
          run := run.(status := Started, startedAt := Or(run.startedAt, Just(t)),
            workflowFile := Or(Said(file), run.workflowFile));
          workflowName := Or(Said(given), workflowName);
        } else {
          run := run.(status := status, endedAt := Just(t), error := Or(Said(error), run.error));
        }
      case PhaseEvent(_, k, title, pending) =>
        ghost var keys, before := phaseKeys, phases;
        phaseKeys := Keyed(phaseKeys, k in phases, k);
        if k in phases {
          var existing := phases[k].(title := title);
          if !pending { existing := existing.(pending := false); }
          phases := phases[k := existing];
        } else {
          phases := phases[k := Phase(k, title, pending, [])];
        }
        KeyedEnumerates(keys, before, k, phases[k]);
      case AgentEvent(_, k, _, _, _, state) =>
        KeyedEnumerates(currentKeys, current, k, state);
        currentKeys := Keyed(currentKeys, k in current, k);
        current := current[k := state];
        var next := AgentAfter(if k in agents then Just(agents[k]) else Nothing, e);
        KeyedEnumerates(agentKeys, agents, k, next);
        agentKeys := Keyed(agentKeys, k in agents, k);
        agents := agents[k := next];
      case LogEvent(t, message) => logs := logs + [Log(t, message)];
    }
    assert es[..|es|] == es;
    AgentMapIs(es);
    PhaseMapIs(es);
    var listed := SortAgents(agents, agentKeys);
    var assembled := Assemble(name, phases, phaseKeys, listed);
    var shown := if workflowName.Just? then workflowName
                 else if run.workflowFile.Just? then Just(stem(Basename(run.workflowFile.value))) else Nothing;
    s := Snapshot(run, shown, listed, assembled, logs);
    KeysAreIn(currentKeys, current.Keys);
    CountsAreSizes(current, currentKeys);
    counts := CountAgentStates(ValuesOf(current, currentKeys));
  }

  /** Server and viewer agree on every event list on all but the name, and on the name exactly when SameName says so. */
  method FoldsAgree(name: int -> string, stem: string -> string, es: seq<Event>)
    returns (server: Snapshot, viewer: Snapshot)
    ensures Describes(name, es, server) && server.(name := viewer.name) == viewer
    ensures server.name == viewer.name <==> SameName(stem, es)
  {
    var counts;
    server, counts := FoldSnapshot(name, stem, es);
    viewer := FoldEvents(name, stem, es);
    OneSnapshot(name, es, server, viewer);
  }

  function Total(m: map<int, AgentState>): nat {
    |InState(m, {Done})| + |InState(m, {Failed})| + |InState(m, {Queued, Running})| + |InState(m, {Skipped})|
  }

  lemma TotalDrops(m: map<int, AgentState>, k: int)
    requires k in m
    ensures Total(m) == Total(m - {k}) + 1 && |m.Keys| == |(m - {k}).Keys| + 1
  {
    OneFewer(m, k, {Done});
    OneFewer(m, k, {Failed});
    OneFewer(m, k, {Queued, Running});
    OneFewer(m, k, {Skipped});
    assert (m - {k}).Keys == m.Keys - {k};
    match m[k]
    case Queued | Running =>
    case Done =>
    case Failed =>
    case Skipped =>
  }

  /** The four counts add up to the agents heard of since the last start. */
  lemma {:induction false} CountsAddUp(es: seq<Event>)
    ensures Total(Current(es)) == |HeardOf(es)|
  {
    CurrentIsHeardOf(es);
    if es == [] {
      NoneCounted();
    } else {
      var before, e := es[..|es| - 1], es[|es| - 1];
      CountsAddUp(before);
      CurrentIsHeardOf(before);
      NoneCounted();
      if e.AgentEvent? {
        var m, k := Current(before), e.index;
        assert m[k := e.state] - {k} == m - {k};
        TotalDrops(m[k := e.state], k);
        if k in m { TotalDrops(m, k); } else { assert m - {k} == m; }
      }
    }
  }

  lemma NoneCounted()
    ensures Total(map[]) == 0
  {}
}
