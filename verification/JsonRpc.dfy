/**
 The JSON-RPC client over a child's stdio (src/worker/jsonrpc-stdio.ts). No pending request outlives
 its process, and every request() promise settles exactly once; responses are matched by id as in
 section 5 of the JSON-RPC 2.0 Specification.
 */
module JsonRpc {
  import opened Options
  import opened Settlements

  datatype Id = Number(n: nat) | Text(s: string)

  datatype Message =
    | Response(id: Id, outcome: Outcome)
    | ServerRequest(id: Id)
    | Notification

  /** A pending request: `ticket` is its promise. */
  datatype Pending = Pending(id: Id, ticket: nat)

  /**
   The client between events. `running` says that a child is attached, `calls` counts request() promises,
   `gone` the onProcessGone notifications; `pending` is in insertion order, as a Map iterates.
   */
  datatype Client = Client(
    running: bool, writable: bool, dead: bool, nextId: nat,
    pending: seq<Pending>, stdoutBuf: string, calls: nat, gone: nat, log: seq<Settlement>)

  const FRESH: Client := Client(false, false, false, 1, [], "", 0, 0, [])

  const NOT_WRITABLE: Outcome := Rejected("not_writable")

  const TIMEOUT: Outcome := Rejected("request_timeout")

  function Find(pending: seq<Pending>, id: Id): Option<nat> {
    if pending == [] then Nothing
    else if pending[0].id == id then Just(pending[0].ticket)
    else Find(pending[1..], id)
  }

  function Remove(pending: seq<Pending>, id: Id): seq<Pending> {
    if pending == [] then []
    else if pending[0].id == id then pending[1..]
    else [pending[0]] + Remove(pending[1..], id)
  }

  function Settle(c: Client, id: Id, outcome: Outcome): Client {
    if Find(c.pending, id).Nothing? then c
    else c.(pending := Remove(c.pending, id), log := c.log + [Settlement(Find(c.pending, id).value, outcome)])
  }

  function Rejections(pending: seq<Pending>, reason: Outcome): seq<Settlement> {
    seq(|pending|, i requires 0 <= i < |pending| => Settlement(pending[i].ticket, reason))
  }

  /** markDead: reject every pending request and reset the framing. */
  function Killed(c: Client, reason: Outcome): Client {
    if c.dead then c
    else c.(dead := true, running := false, stdoutBuf := "", pending := [],
      log := c.log + Rejections(c.pending, reason))
  }

  function ProcessGone(c: Client, reason: Outcome): Client {
    if c.dead then c else Killed(c, reason).(gone := c.gone + 1)
  }

  function Allocated(c: Client): Client { c.(nextId := c.nextId + 1) }

  /** request(): rejected at once without a child; else registered, and taken back if the write throws. */
  function AfterRequest(c: Client): Client {
    var t := c.calls;
    if c.dead || !c.running then c.(calls := t + 1, log := c.log + [Settlement(t, NOT_WRITABLE)])
    else
      var d := Allocated(c).(calls := t + 1, pending := c.pending + [Pending(Number(c.nextId), t)]);
      if c.writable then d else Settle(d, Number(c.nextId), NOT_WRITABLE)
  }

  /**
   `reacts` is what the owner's handlers do, synchronously, to a message that is not a response: shut the client
   down, or not.
   */
  function Dispatched(reacts: Message -> bool, c: Client, m: Message): Client {
    if m.Response? then Settle(c, m.id, m.outcome)
    else if reacts(m) then Killed(c, Rejected("shutdown"))
    else c
  }

  function IndexOf(s: string, ch: char): (n: nat)
    ensures n <= |s| && ch !in s[..n] && (n < |s| ==> s[n] == ch)
  {
    if s == "" || s[0] == ch then 0 else 1 + IndexOf(s[1..], ch)
  }

  /** Cut off and dispatch one line at a time. `parse` gives Nothing for a blank or unreadable line. */
  function DrainLines(parse: string -> Option<Message>, reacts: Message -> bool, c: Client): Client
    decreases |c.stdoutBuf|
  {
    var nl := IndexOf(c.stdoutBuf, '\n');
    if nl == |c.stdoutBuf| then c
    else
      var m := parse(c.stdoutBuf[..nl]);
      var d := c.(stdoutBuf := c.stdoutBuf[nl + 1..]);
      DrainLines(parse, reacts, if m.Just? then Dispatched(reacts, d, m.value) else d)
  }

  function Received(parse: string -> Option<Message>, reacts: Message -> bool, c: Client, chunk: string): Client {
    if c.dead then c else DrainLines(parse, reacts, c.(stdoutBuf := c.stdoutBuf + chunk))
  }

  /** start(): a no-op while a child is attached; after a death, a fresh child. */
  function Spawned(c: Client): Client {
    if c.running then c else c.(running := true, writable := true, dead := false, stdoutBuf := "")
  }

  datatype Event =
    | Start
    | AllocId
    | Requested
    | StdinCloses
    | Stdout(chunk: string)
    | TimedOut(id: Id)
    | WriteFailed
    | Exited
    | Shutdown

  function Next(parse: string -> Option<Message>, reacts: Message -> bool, c: Client, e: Event): Client {
    match e
    case Start => Spawned(c)
    case AllocId => Allocated(c)
    case Requested => AfterRequest(c)
    case StdinCloses => c.(writable := false)
    case Stdout(chunk) => Received(parse, reacts, c, chunk)
    case TimedOut(id) => Settle(c, id, TIMEOUT)
    case WriteFailed => ProcessGone(c, Rejected("write_failed"))
    case Exited => ProcessGone(c, Rejected("process_exited"))
    case Shutdown => Killed(c, Rejected("shutdown"))
  }

  function Exec(parse: string -> Option<Message>, reacts: Message -> bool, es: seq<Event>): Client {
    if es == [] then FRESH else Next(parse, reacts, Exec(parse, reacts, es[..|es| - 1]), es[|es| - 1])
  }

  /* ----- the invariant ----- */

  /** Tickets still pending. */
  function Waiting(pending: seq<Pending>, ticket: nat): nat {
    if pending == [] then 0 else Waiting(pending[1..], ticket) + if pending[0].ticket == ticket then 1 else 0
  }

  predicate Ordered(pending: seq<Pending>, nextId: nat) {
    && (forall i :: 0 <= i < |pending| ==> pending[i].id.Number? && pending[i].id.n < nextId)
    && (forall i, j :: 0 <= i < j < |pending| ==> pending[i].id != pending[j].id)
  }

  ghost predicate Sound(c: Client) {
    && (c.dead ==> !c.running && c.stdoutBuf == "")
    && (!c.running ==> c.pending == [])
    && Ordered(c.pending, c.nextId)
    && forall t: nat :: Times(c.log, t) + Waiting(c.pending, t) == if t < c.calls then 1 else 0
  }

  lemma {:induction false} RemoveWaiting(pending: seq<Pending>, id: Id, t: nat)
    ensures Waiting(Remove(pending, id), t) + (if Find(pending, id) == Just(t) then 1 else 0) == Waiting(pending, t)
  {
    if pending != [] && pending[0].id != id {
      RemoveWaiting(pending[1..], id, t);
      var rest := Remove(pending[1..], id);
      assert ([pending[0]] + rest)[1..] == rest;
    }
  }

  lemma {:induction false} RemoveIsPart(pending: seq<Pending>, id: Id)
    ensures forall p :: p in Remove(pending, id) ==> p in pending
  {
    if pending != [] && pending[0].id != id { RemoveIsPart(pending[1..], id); }
  }

  lemma {:induction false} RemoveOrdered(pending: seq<Pending>, id: Id, nextId: nat)
    requires Ordered(pending, nextId)
    ensures Ordered(Remove(pending, id), nextId)
    ensures forall p :: p in Remove(pending, id) ==> p in pending && p.id != id
    ensures forall p :: p in pending && p.id != id ==> p in Remove(pending, id)
  {
    if pending != [] {
      assert Ordered(pending[1..], nextId);
      if pending[0].id != id {
        RemoveOrdered(pending[1..], id, nextId);
        assert pending == [pending[0]] + pending[1..];
      } else {
        assert forall p :: p in pending[1..] ==> p.id != id;
      }
    }
  }

  lemma {:induction false} WaitingSnoc(pending: seq<Pending>, p: Pending, t: nat)
    ensures Waiting(pending + [p], t) == Waiting(pending, t) + if p.ticket == t then 1 else 0
  {
    if pending != [] {
      assert (pending + [p])[1..] == pending[1..] + [p];
      WaitingSnoc(pending[1..], p, t);
    }
  }

  lemma {:induction false} RejectionsTimes(pending: seq<Pending>, reason: Outcome, t: nat)
    ensures Times(Rejections(pending, reason), t) == Waiting(pending, t)
  {
    if pending != [] {
      var rest := Rejections(pending[1..], reason);
      assert Rejections(pending, reason) == [Settlement(pending[0].ticket, reason)] + rest;
      TimesConcat([Settlement(pending[0].ticket, reason)], rest, t);
      TimesSnoc([], Settlement(pending[0].ticket, reason), t);
      RejectionsTimes(pending[1..], reason, t);
    }
  }

  lemma SettleKeepsSound(c: Client, id: Id, outcome: Outcome)
    requires Sound(c)
    ensures Sound(Settle(c, id, outcome))
  {
    hide Find, Remove, Waiting, Times;
    RemoveOrdered(c.pending, id, c.nextId);
    if Find(c.pending, id).Just? {
      var s := Settlement(Find(c.pending, id).value, outcome);
      forall t: nat ensures Times(c.log + [s], t) + Waiting(Remove(c.pending, id), t) == if t < c.calls then 1 else 0 {
        RemoveWaiting(c.pending, id, t);
        TimesSnoc(c.log, s, t);
      }
      NothingRemoved(id);
    }
  }

  lemma NothingRemoved(id: Id)
    ensures Remove([], id) == []
  {}

  lemma MarkDeadKeepsSound(c: Client, reason: Outcome)
    requires Sound(c)
    ensures Sound(Killed(c, reason)) && Killed(c, reason).dead
  {
    hide Waiting, Times, Rejections;
    forall t: nat ensures Times(c.log + Rejections(c.pending, reason), t) + Waiting([], t) ==
      Times(c.log, t) + Waiting(c.pending, t) {
      TimesConcat(c.log, Rejections(c.pending, reason), t);
      RejectionsTimes(c.pending, reason, t);
      NoneWaiting(t);
    }
  }

  lemma NoneWaiting(t: nat)
    ensures Waiting([], t) == 0
  {}

  lemma RequestKeepsSound(c: Client)
    requires Sound(c)
    ensures Sound(AfterRequest(c))
  {
    hide Waiting, Times, Find, Remove;
    var t := c.calls;
    if c.dead || !c.running {
      forall u: nat
        ensures Times(c.log + [Settlement(t, NOT_WRITABLE)], u) ==
                Times(c.log, u) + if u == t then 1 else 0 {
        TimesSnoc(c.log, Settlement(t, NOT_WRITABLE), u);
      }
    } else {
      var p := Pending(Number(c.nextId), t);
      var d := c.(calls := t + 1, nextId := c.nextId + 1, pending := c.pending + [p]);
      forall u: nat ensures Waiting(c.pending + [p], u) == Waiting(c.pending, u) + if u == t then 1 else 0 {
        WaitingSnoc(c.pending, p, u);
      }
      assert Sound(d);
      SettleKeepsSound(d, Number(c.nextId), NOT_WRITABLE);
    }
  }

  lemma DispatchKeepsSound(reacts: Message -> bool, c: Client, m: Message)
    requires Sound(c)
    ensures Sound(Dispatched(reacts, c, m))
  {
    hide Sound, Settle, Killed;
    if m.Response? { SettleKeepsSound(c, m.id, m.outcome); } else { MarkDeadKeepsSound(c, Rejected("shutdown")); }
  }

  lemma {:induction false} DrainKeepsSound(parse: string -> Option<Message>, reacts: Message -> bool, c: Client)
    requires Sound(c)
    ensures Sound(DrainLines(parse, reacts, c))
    decreases |c.stdoutBuf|
  {
    hide Dispatched, Times, Waiting, Ordered;
    var nl := IndexOf(c.stdoutBuf, '\n');
    if nl < |c.stdoutBuf| {
      var m := parse(c.stdoutBuf[..nl]);
      var d := c.(stdoutBuf := c.stdoutBuf[nl + 1..]);
      assert Sound(d);
      if m.Just? {
        DispatchKeepsSound(reacts, d, m.value);
        DispatchBuffer(reacts, d, m.value);
        DrainKeepsSound(parse, reacts, Dispatched(reacts, d, m.value));
      } else {
        DrainKeepsSound(parse, reacts, d);
      }
    }
  }

  lemma DispatchBuffer(reacts: Message -> bool, c: Client, m: Message)
    ensures var d := Dispatched(reacts, c, m); d.stdoutBuf == c.stdoutBuf || (d.dead && d.stdoutBuf == "")
  {}

  lemma NextKeepsSound(parse: string -> Option<Message>, reacts: Message -> bool, c: Client, e: Event)
    requires Sound(c)
    ensures Sound(Next(parse, reacts, c, e))
  {
    hide Settle, Killed, AfterRequest, DrainLines, Times, Waiting;
    match e
    case Start =>
    case AllocId =>
    case StdinCloses =>
    case Requested => RequestKeepsSound(c);
    case TimedOut(id) => SettleKeepsSound(c, id, TIMEOUT);
    case Shutdown => MarkDeadKeepsSound(c, Rejected("shutdown"));
    case WriteFailed => MarkDeadKeepsSound(c, Rejected("write_failed"));
    case Exited => MarkDeadKeepsSound(c, Rejected("process_exited"));
    case Stdout(chunk) => if !c.dead { DrainKeepsSound(parse, reacts, c.(stdoutBuf := c.stdoutBuf + chunk)); }
  }

  lemma {:induction false} Reached(parse: string -> Option<Message>, reacts: Message -> bool, es: seq<Event>)
    ensures Sound(Exec(parse, reacts, es))
  {
    hide Next;
    if es != [] {
      Reached(parse, reacts, es[..|es| - 1]);
      NextKeepsSound(parse, reacts, Exec(parse, reacts, es[..|es| - 1]), es[|es| - 1]);
    }
  }

  /* ----- settle exactly once ----- */

  /** In every run, each request() promise is pending once and unsettled, or settled exactly once and not pending. */
  lemma SettlesExactlyOnce(parse: string -> Option<Message>, reacts: Message -> bool, es: seq<Event>, ticket: nat)
    requires ticket < Exec(parse, reacts, es).calls
    ensures var c := Exec(parse, reacts, es); Times(c.log, ticket) + Waiting(c.pending, ticket) == 1
  {
    Reached(parse, reacts, es);
  }

  /**
   No request outlives its process: a dead client has none pending, all of them settled, and settles a new one at
   once.
   */
  lemma DeadHasNone(parse: string -> Option<Message>, reacts: Message -> bool, es: seq<Event>, ticket: nat)
    requires Exec(parse, reacts, es).dead
    ensures var c := Exec(parse, reacts, es);
            && c.pending == [] && (ticket < c.calls ==> Times(c.log, ticket) == 1)
            && AfterRequest(c).pending == [] && AfterRequest(c).log == c.log + [Settlement(c.calls, NOT_WRITABLE)]
  {
    Reached(parse, reacts, es);
    NoneWaiting(ticket);
  }

  lemma {:induction false} FindIs(pending: seq<Pending>, id: Id)
    ensures Find(pending, id).Just? ==> Pending(id, Find(pending, id).value) in pending
    ensures Find(pending, id).Nothing? ==> forall p :: p in pending ==> p.id != id
    ensures Find(pending, id).Nothing? ==> Remove(pending, id) == pending
  {
    if pending != [] && pending[0].id != id {
      FindIs(pending[1..], id);
      assert pending == [pending[0]] + pending[1..];
    }
  }

  lemma {:induction false} FindLast(pending: seq<Pending>, p: Pending)
    requires forall q :: q in pending ==> q.id != p.id
    ensures Find(pending + [p], p.id) == Just(p.ticket) && Remove(pending + [p], p.id) == pending
  {
    if pending != [] {
      assert pending[0] in pending && (pending + [p])[1..] == pending[1..] + [p];
      FindLast(pending[1..], p);
    }
  }

  /**
   A request to a writable child is pending under an id of its own and settles nothing; any other is rejected at
   once and leaves what is pending as it was, so that a child whose stdin has closed takes no request.
   */
  lemma RequestIsTakenExactly(parse: string -> Option<Message>, reacts: Message -> bool, es: seq<Event>)
    ensures var c := Exec(parse, reacts, es);
            var d, e := AfterRequest(c), AfterRequest(Next(parse, reacts, c, StdinCloses));
            && (c.running && c.writable ==>
                 && d.pending == c.pending + [Pending(Number(c.nextId), c.calls)] && d.log == c.log
                 && (forall p :: p in c.pending ==> p.id != Number(c.nextId)))
            && (!(c.running && c.writable) ==>
                 d.pending == c.pending && d.log == c.log + [Settlement(c.calls, NOT_WRITABLE)])
            && e.pending == c.pending && e.log == c.log + [Settlement(c.calls, NOT_WRITABLE)]
            && d.calls == c.calls + 1 && d.nextId >= c.nextId
  {
    hide Exec, Find, Remove;
    Reached(parse, reacts, es);
    var c := Exec(parse, reacts, es);
    FindLast(c.pending, Pending(Number(c.nextId), c.calls));
  }

  /**
   A death rejects each pending request with its cause, in the order they were made, and one on its own is
   reported.
   */
  lemma DeathRejectsEach(parse: string -> Option<Message>, reacts: Message -> bool, c: Client, e: Event)
    requires (e.WriteFailed? || e.Exited? || e.Shutdown?) && !c.dead
    ensures var d := Next(parse, reacts, c, e);
            var reason := if e.WriteFailed? then "write_failed" else if e.Exited? then "process_exited" else "shutdown";
            && d.dead && !d.running && d.pending == [] && c.log <= d.log && |d.log| == |c.log| + |c.pending|
            && (forall i :: 0 <= i < |c.pending| ==>
                 d.log[|c.log| + i] == Settlement(c.pending[i].ticket, Rejected(reason)))
            && d.gone == c.gone + (if e.Shutdown? then 0 else 1)
  {}

  /**
   A response settles the request that carries its id, and leaves every other one pending; a late or unknown id
   changes nothing.
   */
  lemma ResponseSettlesItsOwn(parse: string -> Option<Message>, reacts: Message -> bool, es: seq<Event>, id: Id,
      outcome: Outcome)
    ensures var c := Exec(parse, reacts, es);
            var d := Dispatched(reacts, c, Response(id, outcome));
            && (forall p :: p in d.pending <==> p in c.pending && p.id != id)
            && (forall p :: p in c.pending && p.id == id ==> d.log == c.log + [Settlement(p.ticket, outcome)])
            && ((forall p :: p in c.pending ==> p.id != id) ==> d == c)
            && (outcome == TIMEOUT ==> Next(parse, reacts, c, TimedOut(id)) == d)
  {
    hide Exec;
    Reached(parse, reacts, es);
    var c := Exec(parse, reacts, es);
    FindIs(c.pending, id);
    RemoveOrdered(c.pending, id, c.nextId);
    assert forall p :: p in c.pending && p.id == id && Find(c.pending, id).Just? ==>
      p == Pending(id, Find(c.pending, id).value);
  }

  /* ----- framing does not depend on chunks ----- */

  lemma {:induction false} IndexIs(s: string, t: string)
    ensures IndexOf(s, '\n') < |s| ==> IndexOf(s + t, '\n') == IndexOf(s, '\n')
  {
    if s != "" && s[0] != '\n' {
      assert (s + t)[1..] == s[1..] + t;
      IndexIs(s[1..], t);
    }
  }

  lemma {:induction false} DrainConcat(parse: string -> Option<Message>, reacts: Message -> bool, c: Client, t: string)
    requires !c.dead
    ensures var d := DrainLines(parse, reacts, c);
            DrainLines(parse, reacts, c.(stdoutBuf := c.stdoutBuf + t)) ==
              if d.dead then d else DrainLines(parse, reacts, d.(stdoutBuf := d.stdoutBuf + t))
    decreases |c.stdoutBuf|
  {
    hide Dispatched;
    var s := c.stdoutBuf;
    var nl := IndexOf(s, '\n');
    if nl < |s| {
      IndexIs(s, t);
      assert (s + t)[..nl] == s[..nl] && (s + t)[nl + 1..] == s[nl + 1..] + t;
      var m := parse(s[..nl]);
      var d := c.(stdoutBuf := s[nl + 1..]);
      if m.Just? {
        DispatchThen(reacts, d, m.value, t);
        var e := Dispatched(reacts, d, m.value);
        if e.dead { DrainDead(parse, reacts, e); } else { DrainConcat(parse, reacts, e, t); }
      } else {
        DrainConcat(parse, reacts, d, t);
      }
    }
  }

  lemma DispatchThen(reacts: Message -> bool, c: Client, m: Message, t: string)
    requires !c.dead
    ensures var d, e := Dispatched(reacts, c, m), Dispatched(reacts, c.(stdoutBuf := c.stdoutBuf + t), m);
            if d.dead then e == d && d.stdoutBuf == ""
              else d.stdoutBuf == c.stdoutBuf && e == d.(stdoutBuf := d.stdoutBuf + t)
  {}

  lemma DrainDead(parse: string -> Option<Message>, reacts: Message -> bool, c: Client)
    requires c.stdoutBuf == ""
    ensures DrainLines(parse, reacts, c) == c
  {}

  /** Two chunks mean what their concatenation means, even if a message in them ends the client. */
  lemma ChunksDoNotMatter(parse: string -> Option<Message>, reacts: Message -> bool, c: Client, a: string, b: string)
    ensures Received(parse, reacts, Received(parse, reacts, c, a), b) == Received(parse, reacts, c, a + b)
  {
    hide DrainLines;
    if !c.dead {
      DrainConcat(parse, reacts, c.(stdoutBuf := c.stdoutBuf + a), b);
      assert c.stdoutBuf + a + b == c.stdoutBuf + (a + b);
    }
  }

  lemma {:induction false} IndexOfFirst(s: string, t: string)
    requires '\n' !in s && (t == "" || t[0] == '\n')
    ensures IndexOf(s, '\n') == |s| && IndexOf(s + t, '\n') == |s|
  {
    if s == "" {
      assert s + t == t;
    } else {
      assert s[0] in s && (s + t)[1..] == s[1..] + t;
      IndexOfFirst(s[1..], t);
    }
  }

  /**
   What is received waits for its line feed; the line is then read once, with what waited before it. By the lemma
   above this says what any chunks mean.
   */
  lemma LineIsDispatched(parse: string -> Option<Message>, reacts: Message -> bool, c: Client, line: string)
    requires !c.dead && '\n' !in c.stdoutBuf && '\n' !in line
    ensures Received(parse, reacts, c, line) == c.(stdoutBuf := c.stdoutBuf + line)
    ensures var m := parse(c.stdoutBuf + line);
            Received(parse, reacts, c, line + "\n") ==
              if m.Nothing? then c.(stdoutBuf := "")
              else if m.value.Response? then Settle(c.(stdoutBuf := ""), m.value.id, m.value.outcome)
              else if reacts(m.value) then Killed(c, Rejected("shutdown"))
              else c.(stdoutBuf := "")
  {
    hide IndexOf, Find, Remove, Rejections;
    var whole, d := c.stdoutBuf + line, c.(stdoutBuf := "");
    var full, m := c.(stdoutBuf := whole + "\n"), parse(whole);
    assert c.stdoutBuf + (line + "\n") == whole + "\n";
    IndexOfFirst(whole, "\n");
    assert (whole + "\n")[..|whole|] == whole && (whole + "\n")[|whole| + 1..] == "";
    assert full.(stdoutBuf := "") == d;
    assert DrainLines(parse, reacts, full) ==
      DrainLines(parse, reacts, if m.Just? then Dispatched(reacts, d, m.value) else d);
    assert Received(parse, reacts, c, line + "\n") == DrainLines(parse, reacts, full);
    if m.Nothing? {
      DrainDead(parse, reacts, d);
    } else {
      var e := Dispatched(reacts, d, m.value);
      DispatchBuffer(reacts, d, m.value);
      assert e.stdoutBuf == "";
      DrainDead(parse, reacts, e);
      assert Received(parse, reacts, c, line + "\n") == e;
      assert e == if m.value.Response? then Settle(d, m.value.id, m.value.outcome)
        else if reacts(m.value) then Killed(d, Rejected("shutdown")) else d;
    }
  }

  /* ----- the client itself ----- */

  class JsonRpcStdioClient {
    var running: bool
    var writable: bool
    var dead: bool
    var nextId: nat
    var pending: seq<Pending>
    var stdoutBuf: string
    var calls: nat
    var gone: nat
    var log: seq<Settlement>

    function State(): Client
      reads this
    {
      Client(running, writable, dead, nextId, pending, stdoutBuf, calls, gone, log)
    }

    constructor ()
      ensures State() == FRESH
    {
      running, writable, dead, nextId := false, false, false, 1;
      pending, stdoutBuf, calls, gone, log := [], "", 0, 0, [];
    }

    method Start()
      modifies this
      ensures State() == Spawned(old(State()))
    {
      if running { return; }
      running, writable, dead, stdoutBuf := true, true, false, "";
    }

    method AllocId() returns (id: nat)
      modifies this`nextId
      ensures id == old(nextId) && State() == Allocated(old(State()))
    {
      id := nextId;
      nextId := nextId + 1;
    }

    /** settlePending, with the promise settled by its caller. */
    method SettlePending(id: Id, outcome: Outcome)
      modifies this`pending, this`log
      ensures State() == Settle(old(State()), id, outcome)
    {
      var entry := Find(pending, id);
      if entry.Nothing? { return; }
      pending := Remove(pending, id);
      log := log + [Settlement(entry.value, outcome)];
    }

    method Request() returns (ticket: nat)
      modifies this
      ensures ticket == old(calls) && State() == AfterRequest(old(State()))
    {
      ticket := calls;
      calls := calls + 1;
      if dead || !running {
        log := log + [Settlement(ticket, NOT_WRITABLE)];
        return;
      }
      var id := AllocId();
      pending := pending + [Pending(Number(id), ticket)];
      if !writable { SettlePending(Number(id), NOT_WRITABLE); }
    }

    method MarkDead(reason: Outcome)
      modifies this
      ensures State() == Killed(old(State()), reason)
    {
      if dead { return; }
      dead, running, stdoutBuf := true, false, "";
      var entries := pending;
      pending := [];
      var i := 0;
      while i < |entries|
        invariant i <= |entries| && log == old(log) + Rejections(entries[..i], reason)
        invariant State() == old(State()).(dead := true, running := false, stdoutBuf := "", pending := [], log := log)
      {
        assert Rejections(entries[..i + 1], reason) ==
          Rejections(entries[..i], reason) + [Settlement(entries[i].ticket, reason)];
        log := log + [Settlement(entries[i].ticket, reason)];
        i := i + 1;
      }
      assert entries[..i] == entries;
    }

    method HandleProcessGone(reason: Outcome)
      modifies this
      ensures State() == ProcessGone(old(State()), reason)
    {
      if dead { return; }
      MarkDead(reason);
      gone := gone + 1;
    }

    method Dispatch(reacts: Message -> bool, m: Message)
      modifies this
      ensures State() == Dispatched(reacts, old(State()), m)
    {
      if m.Response? { SettlePending(m.id, m.outcome); }
      else if reacts(m) { MarkDead(Rejected("shutdown")); }
    }

    method OnStdout(parse: string -> Option<Message>, reacts: Message -> bool, chunk: string)
      modifies this
      ensures State() == Received(parse, reacts, old(State()), chunk)
    {
      if dead { return; }
      stdoutBuf := stdoutBuf + chunk;
      ghost var goal := DrainLines(parse, reacts, State());
      var nl := IndexOf(stdoutBuf, '\n');
      while nl < |stdoutBuf|
        invariant nl == IndexOf(stdoutBuf, '\n') && DrainLines(parse, reacts, State()) == goal
        decreases |stdoutBuf|
      {
        var line := stdoutBuf[..nl];
        stdoutBuf := stdoutBuf[nl + 1..];
        ghost var before := State();
        var m := parse(line);
        if m.Just? {
          DispatchBuffer(reacts, before, m.value);
          Dispatch(reacts, m.value);
        }
        nl := IndexOf(stdoutBuf, '\n');
      }
    }
  }
}
