/**
 Exactly-once log streaming: the server's drain loop over a growing file (src/server/serve.ts, tailJsonl)
 and the viewer's EventSource (viewer/src/lib/hooks.ts, useSse and isResumedReplay). Event ids are byte
 offsets; a reconnection presents the last one (Last-Event-ID, section 9.2 of the HTML Living Standard).
 */
module Stream {
  import opened Options
  import opened Tail

  /** A frame is a parsed line and, as its id, the offset just past it. */
  type Frame = TailLine

  /** The lines that parse, as the drain loop sends them. */
  function Parsed(parse: string -> Option<string>, lines: seq<TailLine>): seq<Frame> {
    if lines == [] then []
    else
      var p := parse(lines[|lines| - 1].line);
      Parsed(parse, lines[..|lines| - 1]) + if p.Just? then [TailLine(p.value, lines[|lines| - 1].offset)] else []
  }

  /** Decoding a line and parsing it, in one. */
  function Data(text: seq<Byte> -> Option<string>, parse: string -> Option<string>): seq<Byte> -> Option<string> {
    raw => if text(raw).Nothing? then Nothing else parse(text(raw).value)
  }

  lemma {:induction false} ParsedConcat(parse: string -> Option<string>, a: seq<TailLine>, b: seq<TailLine>)
    ensures Parsed(parse, a + b) == Parsed(parse, a) + Parsed(parse, b)
  {
    if b == [] {
      assert a + b == a;
    } else {
      assert (a + b)[..|a + b| - 1] == a + b[..|b| - 1];
      ParsedConcat(parse, a, b[..|b| - 1]);
    }
  }

  lemma {:induction false} ParsedLines(text: seq<Byte> -> Option<string>, parse: string -> Option<string>, s: seq<Byte>,
      start: nat)
    ensures Parsed(parse, Lines(text, s, start)) == Lines(Data(text, parse), s, start)
    decreases |s|
  {
    hide Lines, FirstLf, Parsed, Keep, Rest, Data;
    FirstLfFinds(s);
    var n := FirstLf(s);
    if n < |s| {
      ParsedLines(text, parse, s[n + 1..], start + n + 1);
      CutOne(text, s, start, n);
      CutOne(Data(text, parse), s, start, n);
      ParsedConcat(parse, Keep(text, s[..n], start + n + 1), Lines(text, s[n + 1..], start + n + 1));
      ParsedKeep(text, parse, s[..n], start + n + 1);
    } else {
      assert s[..n] == s;
      CutNone(text, s, start);
      CutNone(Data(text, parse), s, start);
      ParsedNothing(parse);
    }
  }

  lemma ParsedKeep(text: seq<Byte> -> Option<string>, parse: string -> Option<string>, raw: seq<Byte>, offset: nat)
    ensures Parsed(parse, Keep(text, raw, offset)) == Keep(Data(text, parse), raw, offset)
  {
    ParsedNothing(parse);
    var lines := Keep(text, raw, offset);
    if lines != [] { assert lines[..0] == []; }
  }

  lemma ParsedNothing(parse: string -> Option<string>)
    ensures Parsed(parse, []) == []
  {}

  /* ----- the server's side of one connection ----- */

  /**
   `from` is the offset the connection started at, `reading` the least size the read in progress will reach,
   `wire` what is sent but not yet received.
   */
  datatype Server = Server(from: nat, offset: nat, pending: seq<Byte>, reading: Option<nat>, reread: bool,
    wire: seq<Frame>)

  class TailConnection {
    var offset: nat
    var pending: seq<Byte>
    var reading: bool
    var rereadRequested: bool
    var closed: bool
    var sent: seq<Frame>

    constructor (lastEventId: nat)
      ensures offset == lastEventId && pending == [] && !reading && !rereadRequested && !closed && sent == []
    {
      offset, pending, reading, rereadRequested, closed, sent := lastEventId, [], false, false, false, [];
    }

    /** drain(), up to its read: one read at a time, and a request made meanwhile is remembered. */
    method Drain() returns (begins: bool)
      modifies this`reading, this`rereadRequested
      ensures begins == (!closed && !old(reading))
      ensures reading == (old(reading) || begins)
      ensures rereadRequested == (old(rereadRequested) || (!closed && old(reading)))
    {
      if closed { return false; }
      if reading {
        rereadRequested := true;
        return false;
      }
      reading := true;
      return true;
    }

    /** drain(), after its read: send what parses, and read again if that was requested. */
    method Sends(parse: string -> Option<string>, result: ReadResult) returns (again: bool)
      requires reading
      modifies this`offset, this`pending, this`reading, this`rereadRequested, this`sent
      ensures offset == result.offset && pending == result.pending
      ensures sent == old(sent) + (if closed then [] else Parsed(parse, result.lines))
      ensures again == (old(rereadRequested) && !closed)
      ensures reading == again && (rereadRequested == (old(rereadRequested) && closed))
    {
      offset, pending := result.offset, result.pending;
      var i := 0;
      assert result.lines[..0] == [];
      while i < |result.lines|
        invariant i <= |result.lines| && offset == result.offset && pending == result.pending
        invariant reading && rereadRequested == old(rereadRequested)
        invariant sent == old(sent) + (if closed then [] else Parsed(parse, result.lines[..i]))
      {
        assert result.lines[..i + 1][..i] == result.lines[..i];
        var p := parse(result.lines[i].line);
        if p.Just? && !closed { sent := sent + [TailLine(p.value, result.lines[i].offset)]; }
        i := i + 1;
      }
      assert result.lines[..i] == result.lines;
      reading := false;
      again := false;
      if rereadRequested && !closed {
        rereadRequested := false;
        again := Drain();
      }
    }
  }

  /* ----- the viewer's side ----- */

  datatype Client = Client(buffer: seq<Frame>, lastSeenId: Option<nat>, firstFrame: bool)

  /** A first id past everything seen means the server resumed; anything else means it replays from the start. */
  predicate IsResumedReplay(lastSeenId: Option<nat>, firstFrameId: nat) {
    lastSeenId.Just? && firstFrameId > lastSeenId.value
  }

  function OnMessage(c: Client, f: Frame): Client {
    var buffer := if c.firstFrame && !IsResumedReplay(c.lastSeenId, f.offset) then [] else c.buffer;
    Client(buffer + [f], Just(f.offset), false)
  }

  class EventSource {
    var buffer: seq<Frame>
    var lastSeenId: Option<nat>
    var firstFrame: bool

    constructor ()
      ensures State() == Client([], Nothing, true)
    {
      buffer, lastSeenId, firstFrame := [], Nothing, true;
    }

    function State(): Client
      reads this
    {
      Client(buffer, lastSeenId, firstFrame)
    }

    method OnOpen()
      modifies this`firstFrame
      ensures State() == old(State()).(firstFrame := true)
    {
      firstFrame := true;
    }

    method Receive(f: Frame)
      modifies this
      ensures State() == OnMessage(old(State()), f)
    {
      if firstFrame {
        firstFrame := false;
        if !IsResumedReplay(lastSeenId, f.offset) { buffer := []; }
      }
      lastSeenId := Just(f.offset);
      buffer := buffer + [f];
    }
  }

  /* ----- the system ----- */

  /** `asked` is the file's size when a drain was last requested on the live connection. */
  datatype System = System(file: seq<Byte>, conn: Option<Server>, client: Client, asked: nat)

  datatype Step =
    | Append(bytes: seq<Byte>)
    | Connect(honoured: bool)
    | RequestDrain
    | ReadEnds(upTo: nat)
    | Deliver
    | Drop

  const START: System := System([], Nothing, Client([], Nothing, true), 0)

  function Begin(c: Server, size: nat): Server {
    if c.reading.Just? then c.(reread := true) else c.(reading := Just(size))
  }

  /** Where the pending bytes start in the file. */
  function LineStart(c: Server): nat { if |c.pending| <= c.offset then c.offset - |c.pending| else 0 }

  /** The frames of the file between two line boundaries. */
  function Between(data: seq<Byte> -> Option<string>, file: seq<Byte>, a: nat, b: nat): seq<Frame>
    requires a <= b <= |file|
  {
    Lines(data, file[a..b], a)
  }

  function Next(data: seq<Byte> -> Option<string>, s: System, step: Step): Option<System> {
    match step
    case Append(bytes) => Just(s.(file := s.file + bytes))
    case Connect(honoured) =>
      // The new connection's first act is to drain.
      var from := if honoured && s.client.lastSeenId.Just? then s.client.lastSeenId.value else 0;
      if s.conn.Just? then Nothing
      else Just(s.(conn := Just(Begin(Server(from, from, [], Nothing, false, []), |s.file|)),
        client := s.client.(firstFrame := true), asked := |s.file|))
    case RequestDrain =>
      if s.conn.Nothing? then Nothing
      else Just(s.(conn := Just(Begin(s.conn.value, |s.file|)), asked := |s.file|))
    case ReadEnds(upTo) =>
      // The read saw the file at some moment since it began.
      if s.conn.Nothing? || s.conn.value.reading.Nothing? || !(s.conn.value.reading.value <= upTo <= |s.file|) ||
        upTo < s.conn.value.offset
      then Nothing
      else
        var c := s.conn.value;
        var more := c.pending + s.file[c.offset..upTo];
        var d := c.(offset := upTo, pending := Rest(more), reading := Nothing, reread := false,
                    wire := c.wire + Lines(data, more, LineStart(c)));
        Just(s.(conn := Just(if c.reread then Begin(d, |s.file|) else d)))
    case Deliver =>
      if s.conn.Nothing? || s.conn.value.wire == [] then Nothing
      else
        var c := s.conn.value;
        Just(s.(conn := Just(c.(wire := c.wire[1..])), client := OnMessage(s.client, c.wire[0])))
    case Drop => Just(s.(conn := Nothing))
  }

  function Exec(data: seq<Byte> -> Option<string>, steps: seq<Step>): Option<System> {
    if steps == [] then Just(START)
    else
      var s := Exec(data, steps[..|steps| - 1]);
      if s.Nothing? then Nothing else Next(data, s.value, steps[|steps| - 1])
  }

  /** A pass of readNewLines followed by the sending loop is one reading step of the system. */
  lemma DrainIsReadEnds(text: seq<Byte> -> Option<string>, parse: string -> Option<string>, s: System, start: nat,
      r: ReadResult)
    requires s.conn.Just?
    requires var c := s.conn.value;
             && Caught(s.file, start, c.offset, c.pending) &&
               Delivered(text, s.file, start, c.offset, r.offset, r.pending, r.lines)
             && Next(Data(text, parse), s, ReadEnds(r.offset)).Just?
    ensures var c, d := s.conn.value, Next(Data(text, parse), s, ReadEnds(r.offset)).value.conn.value;
            && d.offset == r.offset && d.pending == r.pending && d.wire == c.wire + Parsed(parse, r.lines)
            && d.from == c.from && d.reading.Just? == c.reread && !d.reread
  {
    hide Lines, Rest, Parsed, Data;
    var c := s.conn.value;
    var more := c.pending + s.file[c.offset..r.offset];
    assert s.file[start..r.offset] == s.file[start..c.offset] + s.file[c.offset..r.offset];
    LinesConcat(text, s.file[start..c.offset], s.file[c.offset..r.offset], start);
    CancelLeft(Lines(text, s.file[start..c.offset], start), r.lines, Lines(text, more, LineStart(c)));
    ParsedLines(text, parse, more, LineStart(c));
  }

  /** A request to drain is what the connection makes of it, whether or not it is reading. */
  lemma RequestIsDrain(data: seq<Byte> -> Option<string>, s: System)
    requires s.conn.Just?
    ensures var n := Next(data, s, RequestDrain);
            && n.Just? && n.value == s.(conn := n.value.conn, asked := |s.file|) && n.value.conn.Just?
            && var c, d := s.conn.value, n.value.conn.value;
               && d == c.(reading := d.reading, reread := d.reread)
               && d.reading == (if c.reading.Just? then c.reading else Just(|s.file|))
               && d.reread == (c.reread || c.reading.Just?)
  {}

  /** A connection starts reading after the id it was given, if the server minds it, and at the start otherwise. */
  lemma ConnectionStarts(data: seq<Byte> -> Option<string>, s: System, honoured: bool)
    ensures var n := Next(data, s, Connect(honoured));
            && (n.Just? <==> s.conn.Nothing?)
            && (n.Just? ==>
                 && n.value.file == s.file && n.value.client == s.client.(firstFrame := true)
                 && n.value.conn.Just?
                 && var c := n.value.conn.value;
                    && c.offset == c.from && c.pending == [] && c.wire == [] && c.reading == Just(|s.file|) && !c.reread
                    && (honoured && s.client.lastSeenId.Just? ==> c.from == s.client.lastSeenId.value)
                    && (!honoured || s.client.lastSeenId.Nothing? ==> c.from == 0))
  {}

  lemma CancelLeft<T>(a: seq<T>, b: seq<T>, c: seq<T>)
    requires a + b == a + c
    ensures b == c
  {
    assert b == (a + b)[|a|..] && c == (a + c)[|a|..];
  }

  /* ----- nothing twice, nothing missing ----- */

  predicate Boundary(file: seq<Byte>, o: nat) { o <= |file| && (o > 0 ==> file[o - 1] == LF) }

  /** The buffer is the file up to the last id seen. */
  ghost predicate ClientSound(data: seq<Byte> -> Option<string>, file: seq<Byte>, c: Client) {
    if c.lastSeenId.Nothing? then c.buffer == [] && c.firstFrame
    else
      var x := c.lastSeenId.value;
      x > 0 && Boundary(file, x) && c.buffer == Between(data, file, 0, x) && c.buffer != []
  }

  /** The offset from which the wire continues what the client will have after its next frame. */
  function Position(c: Server, client: Client): nat {
    if client.firstFrame || client.lastSeenId.Nothing? then c.from else client.lastSeenId.value
  }

  /** The wire holds exactly the frames from `p` to the offset. */
  ghost predicate WireSound(data: seq<Byte> -> Option<string>, file: seq<Byte>, p: nat, c: Server) {
    p <= c.offset <= |file| && Boundary(file, p) && c.wire == Between(data, file, p, c.offset) &&
      c.pending == Rest(file[p..c.offset])
  }

  ghost predicate ConnSound(data: seq<Byte> -> Option<string>, s: System, c: Server) {
    && (s.client.firstFrame ==> c.from == 0 || s.client.lastSeenId == Just(c.from))
    && WireSound(data, s.file, Position(c, s.client), c)
    && s.asked <= |s.file|
    && (c.reading.Just? ==> c.reading.value <= |s.file| && (c.reread || s.asked <= c.reading.value))
    && (c.reading.Nothing? ==> !c.reread && s.asked <= c.offset)
  }

  ghost predicate Sound(data: seq<Byte> -> Option<string>, s: System) {
    ClientSound(data, s.file, s.client) && (s.conn.Just? ==> ConnSound(data, s, s.conn.value))
  }

  lemma BetweenGrows(data: seq<Byte> -> Option<string>, file: seq<Byte>, bytes: seq<Byte>, a: nat, b: nat)
    requires a <= b <= |file|
    ensures Between(data, file + bytes, a, b) == Between(data, file, a, b) && (file + bytes)[a..b] == file[a..b]
  {
    assert (file + bytes)[a..b] == file[a..b];
  }

  lemma BetweenSplits(data: seq<Byte> -> Option<string>, file: seq<Byte>, a: nat, o: nat, b: nat)
    requires a <= o <= b <= |file| && Boundary(file, o) && (a > 0 ==> a <= o)
    ensures Between(data, file, a, b) == Between(data, file, a, o) + Between(data, file, o, b)
    ensures Rest(file[a..b]) == Rest(file[o..b])
  {
    hide Lines, Rest;
    assert file[a..b] == file[a..o] + file[o..b];
    LinesConcat(data, file[a..o], file[o..b], a);
    RestIsAfterLastLf(file[a..o]);
    RestAtBoundary(file, a, o);
    assert Rest(file[a..o]) + file[o..b] == file[o..b];
  }

  lemma {:induction false} RestOfTerminated(s: seq<Byte>)
    requires s != [] ==> s[|s| - 1] == LF
    ensures Rest(s) == []
    decreases |s|
  {
    if s != [] {
      FirstLfFinds(s);
      assert s[|s| - 1] in s && s[..|s|] == s;
      RestOfTerminated(s[FirstLf(s) + 1..]);
    }
  }

  lemma RestAtBoundary(file: seq<Byte>, a: nat, o: nat)
    requires a <= o <= |file| && Boundary(file, o)
    ensures Rest(file[a..o]) == []
  {
    RestOfTerminated(file[a..o]);
  }

  /** The first frame from a boundary: its id is a boundary, with that frame alone before it. */
  lemma FirstFrame(data: seq<Byte> -> Option<string>, file: seq<Byte>, a: nat, b: nat)
    requires a <= b <= |file| && Between(data, file, a, b) != []
    ensures var f := Between(data, file, a, b)[0];
            && a < f.offset <= b && Boundary(file, f.offset)
            && Between(data, file, a, f.offset) == [f]
            && Between(data, file, f.offset, b) == Between(data, file, a, b)[1..]
            && Rest(file[f.offset..b]) == Rest(file[a..b])
  {
    hide Lines, Rest;
    Restart(data, file[a..b], a, 0);
    var f := Lines(data, file[a..b], a)[0];
    var n := f.offset - a;
    assert file[a..b][..n] == file[a..f.offset] && file[a..b][n..] == file[f.offset..b];
    assert Lines(data, file[a..b], a)[..1] == [f];
  }

  /** A replay from the start begins no later than the first frame the client ever saw. */
  lemma ReplayIsSeen(data: seq<Byte> -> Option<string>, file: seq<Byte>, x: nat, b: nat)
    requires x <= |file| && b <= |file| && Between(data, file, 0, x) != [] && Between(data, file, 0, b) != []
    ensures Between(data, file, 0, b)[0].offset <= x
  {
    hide Between;
    FirstFrame(data, file, 0, x);
    FirstFrame(data, file, 0, b);
    var g := Between(data, file, 0, x)[0];
    if b >= g.offset { BetweenSplits(data, file, 0, g.offset, b); }
  }

  lemma DeliverKeepsSound(data: seq<Byte> -> Option<string>, s: System)
    requires Sound(data, s) && Next(data, s, Deliver).Just?
    ensures Sound(data, Next(data, s, Deliver).value)
  {
    hide Between, Rest, Lines;
    var c := s.conn.value;
    var p := Position(c, s.client);
    var f := c.wire[0];
    FirstFrame(data, s.file, p, c.offset);
    if p == 0 {
      if s.client.lastSeenId.Just? { ReplayIsSeen(data, s.file, s.client.lastSeenId.value, c.offset); }
    } else {
      BetweenSplits(data, s.file, 0, p, f.offset);
    }
  }

  lemma ReadKeepsSound(data: seq<Byte> -> Option<string>, s: System, upTo: nat)
    requires Sound(data, s) && Next(data, s, ReadEnds(upTo)).Just?
    ensures Sound(data, Next(data, s, ReadEnds(upTo)).value)
  {
    hide Rest, Lines;
    var c := s.conn.value;
    var p := Position(c, s.client);
    assert s.file[p..upTo] == s.file[p..c.offset] + s.file[c.offset..upTo];
    LinesConcat(data, s.file[p..c.offset], s.file[c.offset..upTo], p);
  }

  lemma AppendKeepsSound(data: seq<Byte> -> Option<string>, s: System, bytes: seq<Byte>)
    requires Sound(data, s)
    ensures Sound(data, s.(file := s.file + bytes))
  {
    hide Between, Rest, Lines;
    if s.client.lastSeenId.Just? { BetweenGrows(data, s.file, bytes, 0, s.client.lastSeenId.value); }
    if s.conn.Just? { BetweenGrows(data, s.file, bytes, Position(s.conn.value, s.client), s.conn.value.offset); }
  }

  lemma ConnectKeepsSound(data: seq<Byte> -> Option<string>, s: System, honoured: bool)
    requires Sound(data, s) && Next(data, s, Connect(honoured)).Just?
    ensures Sound(data, Next(data, s, Connect(honoured)).value)
  {
    var p := Next(data, s, Connect(honoured)).value.conn.value.from;
    assert s.file[p..p] == [];
    CutNone(data, [], p);
    hide Rest, Lines;
  }

  lemma NextKeepsSound(data: seq<Byte> -> Option<string>, s: System, step: Step)
    requires Sound(data, s) && Next(data, s, step).Just?
    ensures Sound(data, Next(data, s, step).value)
  {
    match step
    case Append(bytes) => AppendKeepsSound(data, s, bytes);
    case Connect(honoured) => ConnectKeepsSound(data, s, honoured);
    case ReadEnds(upTo) => ReadKeepsSound(data, s, upTo);
    case Deliver => DeliverKeepsSound(data, s);
    case RequestDrain =>
    case Drop =>
  }

  lemma {:induction false} Reached(data: seq<Byte> -> Option<string>, steps: seq<Step>)
    requires Exec(data, steps).Just?
    ensures Sound(data, Exec(data, steps).value)
  {
    hide Next, Sound;
    if steps == [] {
      StartIsSound(data);
    } else {
      var n := |steps| - 1;
      Reached(data, steps[..n]);
      NextKeepsSound(data, Exec(data, steps[..n]).value, steps[n]);
    }
  }

  lemma StartIsSound(data: seq<Byte> -> Option<string>)
    ensures Sound(data, START)
  {}

  /** Every frame of the file. */
  function All(data: seq<Byte> -> Option<string>, file: seq<Byte>): seq<Frame> { Between(data, file, 0, |file|) }

  /** The buffer is, each once and in order, exactly the lines that end no later than the last id seen. */
  lemma BufferIsAll(data: seq<Byte> -> Option<string>, s: System)
    requires ClientSound(data, s.file, s.client)
    ensures AllEnding(data, s.file, 0, 0, if s.client.lastSeenId.Just? then s.client.lastSeenId.value else 0,
              s.client.buffer)
  {
    hide Lines;
    if s.client.lastSeenId.Just? { LinesAreAll(data, s.file, 0, s.client.lastSeenId.value); }
  }

  /**
   Whatever was appended, requested, dropped and reconnected: the client holds a prefix of the file, each line
   once.
   */
  lemma NothingTwiceNothingSkipped(data: seq<Byte> -> Option<string>, steps: seq<Step>)
    requires Exec(data, steps).Just?
    ensures var s := Exec(data, steps).value;
            && s.client.buffer <= All(data, s.file)
            && AllEnding(data, s.file, 0, 0, if s.client.lastSeenId.Just? then s.client.lastSeenId.value else 0,
                 s.client.buffer)
  {
    hide Exec, Between, AllEnding;
    Reached(data, steps);
    var s := Exec(data, steps).value;
    BufferIsAll(data, s);
    if s.client.lastSeenId.Just? { BetweenSplits(data, s.file, 0, s.client.lastSeenId.value, |s.file|); }
  }

  lemma FileIsAll(data: seq<Byte> -> Option<string>, file: seq<Byte>)
    ensures AllEnding(data, file, 0, 0, |file|, All(data, file))
  {
    hide Lines;
    LinesAreAll(data, file, 0, |file|);
  }

  /**
   Once a drain requested after the last append is done and its frames are delivered, the client holds the whole
   file.
   */
  lemma NothingMissing(data: seq<Byte> -> Option<string>, steps: seq<Step>)
    requires Exec(data, steps).Just?
    requires var s := Exec(data, steps).value;
             s.conn.Just? && s.asked == |s.file| && s.conn.value.reading.Nothing? && s.conn.value.wire == []
    ensures var s := Exec(data, steps).value;
            s.client.buffer == All(data, s.file) && AllEnding(data, s.file, 0, 0, |s.file|, s.client.buffer)
  {
    hide Exec, Between, AllEnding;
    Reached(data, steps);
    var s := Exec(data, steps).value;
    FileIsAll(data, s.file);
    var p := Position(s.conn.value, s.client);
    if s.client.lastSeenId.Just? {
      BetweenSplits(data, s.file, 0, s.client.lastSeenId.value, |s.file|);
    }
    assert p == 0 || s.client.lastSeenId == Just(p);
  }

  /* ----- the client catches up ----- */

  lemma ExecSnoc(data: seq<Byte> -> Option<string>, steps: seq<Step>, step: Step)
    requires Exec(data, steps).Just?
    ensures Exec(data, steps + [step]) == Next(data, Exec(data, steps).value, step)
  {
    assert (steps + [step])[..|steps|] == steps;
  }

  /** Everything on the wire can be delivered. */
  lemma {:induction false} DeliverAll(data: seq<Byte> -> Option<string>, steps: seq<Step>) returns (more: seq<Step>)
    requires Exec(data, steps).Just? && Exec(data, steps).value.conn.Just?
    ensures forall m :: m in more ==> m.Deliver?
    ensures Exec(data, steps + more).Just?
    ensures var s, t := Exec(data, steps).value, Exec(data, steps + more).value;
            && t.file == s.file && t.asked == s.asked && t.conn.Just? && t.conn.value.wire == []
            && t.conn.value.reading == s.conn.value.reading
    decreases |Exec(data, steps).value.conn.value.wire|
  {
    hide Exec;
    if Exec(data, steps).value.conn.value.wire == [] {
      more := [];
      assert steps + [] == steps;
    } else {
      ExecSnoc(data, steps, Deliver);
      var rest := DeliverAll(data, steps + [Deliver]);
      more := [Deliver] + rest;
      assert steps + more == steps + [Deliver] + rest;
    }
  }

  /** The read in progress can end with all of the file, and so can the one it was asked to repeat. */
  lemma ReadAll(data: seq<Byte> -> Option<string>, steps: seq<Step>) returns (more: seq<Step>)
    requires Exec(data, steps).Just? && Exec(data, steps).value.conn.Just?
    requires Exec(data, steps).value.conn.value.reading.Just?
    ensures forall m :: m in more ==> m.ReadEnds?
    ensures Exec(data, steps + more).Just?
    ensures var s, t := Exec(data, steps).value, Exec(data, steps + more).value;
            t.file == s.file && t.asked == s.asked && t.conn.Just? && t.conn.value.reading.Nothing?
  {
    hide Exec, Lines, Rest, Between;
    Reached(data, steps);
    var s := Exec(data, steps).value;
    var read := ReadEnds(|s.file|);
    ExecSnoc(data, steps, read);
    more := [read];
    if s.conn.value.reread {
      ExecSnoc(data, steps + [read], read);
      more := [read, read];
      assert steps + more == steps + [read] + [read];
    }
  }

  /**
   What becomes of an append: the live connection is asked to drain, or a new one, resumed or not, takes its
   place.
   */
  function Noticed(reconnects: bool, honoured: bool): seq<Step> {
    if reconnects then [Drop, Connect(honoured)] else [RequestDrain]
  }

  lemma NoticedReads(data: seq<Byte> -> Option<string>, steps: seq<Step>, reconnects: bool, honoured: bool)
    requires Exec(data, steps).Just? && (Exec(data, steps).value.conn.Just? || reconnects)
    ensures var t := Exec(data, steps + Noticed(reconnects, honoured));
            && t.Just? && t.value.file == Exec(data, steps).value.file && t.value.asked == |t.value.file|
            && t.value.conn.Just? && t.value.conn.value.reading.Just?
  {
    hide Exec;
    if reconnects {
      ExecSnoc(data, steps, Drop);
      ExecSnoc(data, steps + [Drop], Connect(honoured));
      assert steps + [Drop] + [Connect(honoured)] == steps + Noticed(reconnects, honoured);
    } else {
      ExecSnoc(data, steps, RequestDrain);
    }
  }

  /**
   From wherever a run has come to, whatever is appended next can be brought to the client: once it is noticed, or the
   client reconnects, some reads and deliveries leave the client with every line of the file, each once.
   */
  lemma CatchesUp(data: seq<Byte> -> Option<string>, steps: seq<Step>, bytes: seq<Byte>, reconnects: bool,
      honoured: bool) returns (more: seq<Step>)
    requires Exec(data, steps).Just? && (Exec(data, steps).value.conn.Just? || reconnects)
    ensures forall m :: m in more ==> m.ReadEnds? || m.Deliver?
    ensures var t := Exec(data, steps + [Append(bytes)] + Noticed(reconnects, honoured) + more);
            && t.Just? && t.value.file == Exec(data, steps).value.file + bytes
            && AllEnding(data, t.value.file, 0, 0, |t.value.file|, t.value.client.buffer)
  {
    hide Exec, Between, AllEnding, Noticed;
    ExecSnoc(data, steps, Append(bytes));
    NoticedReads(data, steps + [Append(bytes)], reconnects, honoured);
    var noticed := steps + [Append(bytes)] + Noticed(reconnects, honoured);
    var ends := ReadAll(data, noticed);
    var delivers := DeliverAll(data, noticed + ends);
    more := ends + delivers;
    assert noticed + more == noticed + ends + delivers;
    NothingMissing(data, noticed + more);
  }

  /** A connection that the server resumed: its first frame, if still to come, continues what the client has. */
  predicate Resumed(s: System) {
    s.conn.Just? && (s.client.lastSeenId.Nothing? ==> s.client.buffer == []) &&
      (s.client.firstFrame && s.client.lastSeenId.Just? ==> s.conn.value.from == s.client.lastSeenId.value)
  }

  /** A connection resumed at the last id seen never takes back a line that the client shows, however long it lasts. */
  lemma {:induction false} ResumedNeverResets(data: seq<Byte> -> Option<string>, steps: seq<Step>, more: seq<Step>)
    requires Exec(data, steps).Just? && Drop !in more && Exec(data, steps + [Connect(true)] + more).Just?
    ensures var s, t := Exec(data, steps).value, Exec(data, steps + [Connect(true)] + more).value;
            s.client.buffer <= t.client.buffer && Resumed(t)
  {
    hide Exec, Lines, Between, Rest;
    Reached(data, steps);
    var all := steps + [Connect(true)] + more;
    if more == [] {
      assert all == steps + [Connect(true)];
      ExecSnoc(data, steps, Connect(true));
    } else {
      var n := |more| - 1;
      assert all == steps + [Connect(true)] + more[..n] + [more[n]];
      ExecJust(data, steps + [Connect(true)] + more[..n], more[n]);
      ResumedNeverResets(data, steps, more[..n]);
      ExecSnoc(data, steps + [Connect(true)] + more[..n], more[n]);
      Reached(data, steps + [Connect(true)] + more[..n]);
      assert more[n] in more;
      ResumedGrows(data, Exec(data, steps + [Connect(true)] + more[..n]).value, more[n]);
    }
  }

  lemma ExecJust(data: seq<Byte> -> Option<string>, steps: seq<Step>, step: Step)
    ensures Exec(data, steps + [step]).Just? ==> Exec(data, steps).Just?
  {
    assert (steps + [step])[..|steps|] == steps;
  }

  lemma ResumedGrows(data: seq<Byte> -> Option<string>, s: System, step: Step)
    requires Sound(data, s) && Resumed(s) && !step.Drop? && Next(data, s, step).Just?
    ensures var t := Next(data, s, step).value; Resumed(t) && s.client.buffer <= t.client.buffer
  {
    hide Lines, Between, Rest;
    if step.Deliver? { FirstFrame(data, s.file, Position(s.conn.value, s.client), s.conn.value.offset); }
  }
}
