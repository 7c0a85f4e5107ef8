/**
 Framing of the remote protocol (src/remote/protocol.ts, FrameReader): JSON lines and raw segments
 whose length an earlier line declared. The reader works chunk by chunk; its meaning is defined byte by byte.
 */
module Frame {
  import opened Options

  type Byte = bv8

  const LF: Byte := 10

  datatype Item = Line(line: seq<Byte>) | Bytes(bytes: seq<Byte>)

  /** `rest` is the unfinished line, or what has arrived of a segment that still lacks `left` bytes. */
  datatype State = State(rest: seq<Byte>, left: nat, out: seq<Item>)

  const START: State := State([], 0, [])

  /** expectBytes(n), called while handling a line that declares n. An empty segment is complete at once. */
  function Expect(s: State, declared: Option<nat>): State {
    if declared.Nothing? then s
    else if declared.value == 0 then s.(out := s.out + [Bytes([])])
    else s.(left := declared.value)
  }

  /** The meaning of one byte. `declares` is what the line handler expects to follow a line. */
  function FeedByte(declares: seq<Byte> -> Option<nat>, s: State, b: Byte): State {
    if s.left > 1 then s.(rest := s.rest + [b], left := s.left - 1)
    else if s.left == 1 then State([], 0, s.out + [Bytes(s.rest + [b])])
    else if b == LF then Expect(State([], 0, s.out + [Line(s.rest)]), declares(s.rest))
    else s.(rest := s.rest + [b])
  }

  function Feed(declares: seq<Byte> -> Option<nat>, s: State, bytes: seq<Byte>): State {
    if bytes == [] then s else FeedByte(declares, Feed(declares, s, bytes[..|bytes| - 1]), bytes[|bytes| - 1])
  }

  lemma {:induction false} FeedConcat(declares: seq<Byte> -> Option<nat>, s: State, a: seq<Byte>, b: seq<Byte>)
    ensures Feed(declares, s, a + b) == Feed(declares, Feed(declares, s, a), b)
  {
    if b == [] {
      assert a + b == a;
    } else {
      assert (a + b)[..|a + b| - 1] == a + b[..|b| - 1];
      FeedConcat(declares, s, a, b[..|b| - 1]);
    }
  }

  lemma FeedOne(declares: seq<Byte> -> Option<nat>, s: State, b: Byte)
    ensures Feed(declares, s, [b]) == FeedByte(declares, s, b)
  {
    assert [b][..0] == [];
  }

  /** LF-free bytes outside a segment extend the line. */
  lemma {:induction false} FeedText(declares: seq<Byte> -> Option<nat>, s: State, t: seq<Byte>)
    requires s.left == 0 && LF !in t
    ensures Feed(declares, s, t) == s.(rest := s.rest + t)
  {
    if t == [] {
      assert s.rest + t == s.rest;
    } else {
      FeedText(declares, s, t[..|t| - 1]);
      assert s.rest + t[..|t| - 1] + [t[|t| - 1]] == s.rest + t;
    }
  }

  lemma FeedLine(declares: seq<Byte> -> Option<nat>, s: State, t: seq<Byte>)
    requires s.left == 0 && LF !in t
    ensures Feed(declares, s, t + [LF]) == Expect(State([], 0, s.out + [Line(s.rest + t)]), declares(s.rest + t))
  {
    FeedConcat(declares, s, t, [LF]);
    FeedText(declares, s, t);
    FeedOne(declares, s.(rest := s.rest + t), LF);
  }

  /** Bytes inside a segment are taken whatever they are. */
  lemma {:induction false} FeedSegment(declares: seq<Byte> -> Option<nat>, s: State, t: seq<Byte>)
    requires |t| <= s.left
    ensures Feed(declares, s, t) ==
            if t == [] || |t| < s.left then s.(rest := s.rest + t, left := s.left - |t|)
              else State([], 0, s.out + [Bytes(s.rest + t)])
  {
    if t == [] {
      assert s.rest + t == s.rest;
    } else {
      FeedSegment(declares, s, t[..|t| - 1]);
      assert s.rest + t[..|t| - 1] + [t[|t| - 1]] == s.rest + t;
    }
  }

  class FrameReader {
    var buf: seq<Byte>
    var pendingBytes: nat
    var segment: seq<seq<Byte>>
    var out: seq<Item>

    /** Between pushes, a reader inside a segment holds no other bytes. */
    ghost predicate Valid()
      reads this
    {
      if pendingBytes > 0 then buf == [] else LF !in buf && segment == []
    }

    ghost function Meaning(): State
      reads this
    {
      State(if pendingBytes > 0 then Joined(segment) else buf, pendingBytes, out)
    }

    constructor ()
      ensures Valid() && Meaning() == START
    {
      buf, pendingBytes, segment, out := [], 0, [], [];
    }

    method ExpectBytes(n: nat)
      modifies this`pendingBytes, this`segment, this`out
      ensures pendingBytes == n && segment == [] && out == if n == 0 then old(out) + [Bytes([])] else old(out)
    {
      pendingBytes := n;
      segment := [];
      if n == 0 { out := out + [Bytes([])]; }
    }

    function InSegment(): (inside: bool)
      reads this
      ensures inside <==> Meaning().left > 0
    {
      pendingBytes > 0
    }

    method Push(declares: seq<Byte> -> Option<nat>, chunk: seq<Byte>)
      requires Valid()
      modifies this
      ensures Valid() && Meaning() == Feed(declares, old(Meaning()), chunk)
    {
      hide Feed, FeedByte, Joined;
      ghost var goal := Feed(declares, Meaning(), chunk);
      PushStarts(declares, Meaning(), chunk);
      JoinedNothing();
      FeedNothing(declares);
      assert [] + chunk == chunk;
      buf := buf + chunk;
      while buf != []
        invariant pendingBytes == 0 ==> segment == []
        invariant Feed(declares, State(Joined(segment), pendingBytes, out), buf) == goal
        decreases |buf|
      {
        if pendingBytes > 0 {
          var take := if pendingBytes < |buf| then pendingBytes else |buf|;
          Takes(declares, State(Joined(segment), pendingBytes, out), buf, take);
          JoinedSnoc(segment, buf[..take]);
          segment, pendingBytes, buf := segment + [buf[..take]], pendingBytes - take, buf[take..];
          if pendingBytes == 0 {
            out := out + [Bytes(Joined(segment))];
            segment := [];
          }
        } else {
          var nl := IndexOfLf(buf);
          if nl == |buf| {
            FeedText(declares, State([], 0, out), buf);
            assert [] + buf == buf && buf[..nl] == buf;
            return;
          }
          var line := buf[..nl];
          CutsLine(declares, out, buf, nl);
          buf := buf[nl + 1..];
          out := out + [Line(line)];
          if declares(line).Just? { ExpectBytes(declares(line).value); }
        }
      }
    }
  }

  function Joined(parts: seq<seq<Byte>>): seq<Byte> {
    if parts == [] then [] else Joined(parts[..|parts| - 1]) + parts[|parts| - 1]
  }

  lemma JoinedNothing()
    ensures Joined([]) == []
  {}

  lemma FeedNothing(declares: seq<Byte> -> Option<nat>)
    ensures forall s: State :: Feed(declares, s, []) == s
  {}

  lemma JoinedSnoc(parts: seq<seq<Byte>>, p: seq<Byte>)
    ensures Joined(parts + [p]) == Joined(parts) + p
  {
    assert (parts + [p])[..|parts|] == parts;
  }

  method IndexOfLf(s: seq<Byte>) returns (n: nat)
    ensures n <= |s| && LF !in s[..n] && (n < |s| ==> s[n] == LF)
  {
    n := 0;
    while n < |s| && s[n] != LF
      invariant n <= |s| && LF !in s[..n]
    {
      n := n + 1;
    }
  }

  lemma PushStarts(declares: seq<Byte> -> Option<nat>, s: State, chunk: seq<Byte>)
    requires s.left == 0 ==> LF !in s.rest
    ensures s.left == 0 ==> Feed(declares, State([], 0, s.out), s.rest + chunk) == Feed(declares, s, chunk)
  {
    if s.left == 0 {
      FeedConcat(declares, State([], 0, s.out), s.rest, chunk);
      FeedText(declares, State([], 0, s.out), s.rest);
      assert [] + s.rest == s.rest;
    }
  }

  lemma Takes(declares: seq<Byte> -> Option<nat>, s: State, buf: seq<Byte>, take: nat)
    requires 0 < take <= s.left && take <= |buf|
    ensures Feed(declares, s, buf) == Feed(declares,
              if take < s.left then s.(rest := s.rest + buf[..take], left := s.left - take)
                else State([], 0, s.out + [Bytes(s.rest + buf[..take])]),
              buf[take..])
  {
    hide Feed, FeedByte;
    assert buf == buf[..take] + buf[take..];
    FeedConcat(declares, s, buf[..take], buf[take..]);
    FeedSegment(declares, s, buf[..take]);
  }

  lemma CutsLine(declares: seq<Byte> -> Option<nat>, out: seq<Item>, buf: seq<Byte>, nl: nat)
    requires nl < |buf| && buf[nl] == LF && LF !in buf[..nl]
    ensures Feed(declares, State([], 0, out), buf) ==
              Feed(declares, Expect(State([], 0, out + [Line(buf[..nl])]), declares(buf[..nl])), buf[nl + 1..])
  {
    hide Feed, FeedByte, Expect;
    assert buf == buf[..nl] + [LF] + buf[nl + 1..] && [] + buf[..nl] == buf[..nl];
    FeedConcat(declares, State([], 0, out), buf[..nl] + [LF], buf[nl + 1..]);
    FeedLine(declares, State([], 0, out), buf[..nl]);
  }

  /** A declared segment, empty or not. */
  lemma FeedDeclared(declares: seq<Byte> -> Option<nat>, out: seq<Item>, line: seq<Byte>, data: seq<Byte>)
    requires declares(line) == Just(|data|)
    ensures Feed(declares, Expect(State([], 0, out), declares(line)), data) == State([], 0, out + [Bytes(data)])
  {
    if data != [] {
      assert [] + data == data;
      FeedSegment(declares, Expect(State([], 0, out), declares(line)), data);
    }
  }

  /* ----- what a sender writes ----- */

  function Encode(items: seq<Item>): seq<Byte> {
    if items == [] then [] else EncodeOne(items[0]) + Encode(items[1..])
  }

  function EncodeOne(item: Item): seq<Byte> { if item.Line? then item.line + [LF] else item.bytes }

  /** Lines hold no LF, and a segment of the declared length follows exactly the lines that declare one. */
  predicate Framed(declares: seq<Byte> -> Option<nat>, items: seq<Item>)
    decreases |items|
  {
    items == []
    || (items[0].Line? && LF !in items[0].line
        && if declares(items[0].line).Nothing? then Framed(declares, items[1..])
           else
             |items| > 1 && items[1].Bytes? && |items[1].bytes| == declares(items[0].line).value
             && Framed(declares, items[2..]))
  }

  /** The byte after the first `n` of the encoding belongs to a segment. */
  predicate InsideBytes(items: seq<Item>, n: nat) {
    items != [] && if n < |EncodeOne(items[0])| then items[0].Bytes?
      else InsideBytes(items[1..], n - |EncodeOne(items[0])|)
  }

  /** The items that the first `n` bytes of the encoding hold whole. */
  function Whole(items: seq<Item>, n: nat): seq<Item> {
    if items == [] || n < |EncodeOne(items[0])| then []
    else [items[0]] + Whole(items[1..], n - |EncodeOne(items[0])|)
  }

  /** Feeding the encoding emits exactly the items, and nothing is left over. */
  lemma {:induction false} RoundTrip(declares: seq<Byte> -> Option<nat>, out: seq<Item>, items: seq<Item>)
    requires Framed(declares, items)
    ensures Feed(declares, State([], 0, out), Encode(items)) == State([], 0, out + items)
    decreases |items|
  {
    hide Feed, FeedByte;
    FeedNothing(declares);
    if items == [] {
      assert out + items == out;
    } else {
      var line := items[0].line;
      var s := State([], 0, out);
      assert [] + line == line;
      FeedLine(declares, s, line);
      FeedConcat(declares, s, line + [LF], Encode(items[1..]));
      if declares(line).Nothing? {
        RoundTrip(declares, out + [items[0]], items[1..]);
        assert out + [items[0]] + items[1..] == out + items;
      } else {
        var data := items[1].bytes;
        var t := Expect(State([], 0, out + [items[0]]), declares(line));
        assert Encode(items[1..]) == data + Encode(items[2..]) by { assert items[1..][1..] == items[2..]; }
        FeedConcat(declares, t, data, Encode(items[2..]));
        FeedDeclared(declares, out + [items[0]], line, data);
        RoundTrip(declares, out + [items[0]] + [items[1]], items[2..]);
        assert out + [items[0]] + [items[1]] + items[2..] == out + items;
      }
    }
  }

  /**
   Wherever the stream stops, exactly the items that arrived whole have been emitted, and the reader is inside a
   segment exactly when the encoding is.
   */
  lemma {:induction false} StopsInside(declares: seq<Byte> -> Option<nat>, out: seq<Item>, items: seq<Item>, n: nat)
    requires Framed(declares, items) && n <= |Encode(items)|
    ensures var s := Feed(declares, State([], 0, out), Encode(items)[..n]);
            s.out == out + Whole(items, n) && (s.left > 0 <==> InsideBytes(items, n))
    decreases |items|
  {
    hide Feed, FeedByte, Whole, InsideBytes, Encode;
    StopsNowhere();
    FeedNothing(declares);
    if items == [] {
      assert out + [] == out;
    } else {
      var line := items[0].line;
      var s, rest := State([], 0, out), Encode(items[1..]);
      var k := |line| + 1;
      StopsPast(items, n);
      if n < k {
        assert Encode(items)[..n] == line[..n] && out + [] == out;
        FeedText(declares, s, line[..n]);
      } else {
        assert [] + line == line && Encode(items)[..n] == line + [LF] + rest[..n - k];
        FeedLine(declares, s, line);
        FeedConcat(declares, s, line + [LF], rest[..n - k]);
        assert out + [items[0]] + Whole(items[1..], n - k) == out + Whole(items, n);
        if declares(line).Nothing? {
          StopsInside(declares, out + [items[0]], items[1..], n - k);
        } else {
          StopsAfterLine(declares, out + [items[0]], items, n - k);
        }
      }
    }
  }

  lemma StopsNowhere()
    ensures Encode([]) == [] && forall n :: Whole([], n) == [] && !InsideBytes([], n)
  {}

  lemma StopsPast(items: seq<Item>, n: nat)
    requires items != []
    ensures Encode(items) == EncodeOne(items[0]) + Encode(items[1..])
    ensures n < |EncodeOne(items[0])| ==> Whole(items, n) == [] && (InsideBytes(items, n) <==> items[0].Bytes?)
    ensures var k := |EncodeOne(items[0])|;
            n >= k ==> Whole(items, n) == [items[0]] + Whole(items[1..], n - k) &&
                         (InsideBytes(items, n) <==> InsideBytes(items[1..], n - k))
  {}

  lemma {:induction false} StopsAfterLine(declares: seq<Byte> -> Option<nat>, out: seq<Item>, items: seq<Item>, n: nat)
    requires Framed(declares, items) && items != [] && declares(items[0].line).Just? && n <= |Encode(items[1..])|
    ensures var s := Feed(declares, Expect(State([], 0, out), declares(items[0].line)), Encode(items[1..])[..n]);
            s.out == out + Whole(items[1..], n) && (s.left > 0 <==> InsideBytes(items[1..], n))
    decreases |items| - 1, 0
  {
    hide Feed, FeedByte;
    var data, rest := items[1].bytes, Encode(items[2..]);
    var t := Expect(State([], 0, out), declares(items[0].line));
    assert items[1..][1..] == items[2..] && Encode(items[1..]) == data + rest;
    if n < |data| {
      assert Encode(items[1..])[..n] == data[..n];
      FeedSegment(declares, t, data[..n]);
    } else {
      assert Encode(items[1..])[..n] == data + rest[..n - |data|];
      FeedConcat(declares, t, data, rest[..n - |data|]);
      FeedDeclared(declares, out, items[0].line, data);
      StopsInside(declares, out + [items[1]], items[2..], n - |data|);
    }
  }

  /**
   However the encoding is cut into chunks, and wherever it stops, pushing them emits exactly the items that arrived
   whole, which are all of them if all of it arrived, and tells whether it stopped inside a segment.
   */
  method Receive(declares: seq<Byte> -> Option<nat>, chunks: seq<seq<Byte>>, ghost items: seq<Item>, ghost n: nat)
    returns (out: seq<Item>, inside: bool)
    requires Framed(declares, items) && n <= |Encode(items)| && Joined(chunks) == Encode(items)[..n]
    ensures out == Whole(items, n) && (inside <==> InsideBytes(items, n))
    ensures n == |Encode(items)| ==> out == items && !inside
  {
    var reader := new FrameReader();
    var i := 0;
    while i < |chunks|
      invariant i <= |chunks| && reader.Valid() && reader.Meaning() == Feed(declares, START, Joined(chunks[..i]))
      invariant fresh(reader)
    {
      FeedConcat(declares, START, Joined(chunks[..i]), chunks[i]);
      assert chunks[..i + 1][..i] == chunks[..i];
      reader.Push(declares, chunks[i]);
      i := i + 1;
    }
    assert chunks[..i] == chunks && [] + Whole(items, n) == Whole(items, n) && [] + items == items;
    StopsInside(declares, [], items, n);
    if n == |Encode(items)| {
      assert Encode(items)[..n] == Encode(items);
      RoundTrip(declares, [], items);
    }
    return reader.out, reader.InSegment();
  }
}
