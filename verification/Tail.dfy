/**
 Incremental tailing of a JSONL file (src/server/tail.ts): bytes are read in chunks, lines are cut at LF,
 and each line carries the byte offset just past it.
 */
module Tail {
  import opened Options

  type Byte = bv8

  const LF: Byte := 10

  const READ_CHUNK: nat := 65536

  datatype TailLine = TailLine(line: string, offset: nat)

  function Keep(text: seq<Byte> -> Option<string>, raw: seq<Byte>, offset: nat): seq<TailLine> {
    if text(raw).Nothing? then [] else [TailLine(text(raw).value, offset)]
  }

  /** The first LF, or the length if there is none. */
  function FirstLf(s: seq<Byte>): (n: nat)
    ensures n <= |s|
  {
    if s == [] || s[0] == LF then 0 else 1 + FirstLf(s[1..])
  }

  /**
   The complete lines of `s`, which starts at byte `start` of the file; `text` decodes and trims, giving Nothing
   for a blank line.
   */
  function Lines(text: seq<Byte> -> Option<string>, s: seq<Byte>, start: nat): seq<TailLine>
    decreases |s|
  {
    var n := FirstLf(s);
    if n == |s| then [] else Keep(text, s[..n], start + n + 1) + Lines(text, s[n + 1..], start + n + 1)
  }

  /** The bytes after the last LF. */
  function Rest(s: seq<Byte>): (r: seq<Byte>)
    ensures |r| <= |s|
    decreases |s|
  {
    var n := FirstLf(s);
    if n == |s| then s else Rest(s[n + 1..])
  }

  /** indexOf(LF): the position of the first LF, if there is one. */
  lemma {:induction false} FirstLfIs(s: seq<Byte>, n: nat)
    requires n <= |s| && LF !in s[..n] && (n < |s| ==> s[n] == LF)
    ensures FirstLf(s) == n
  {
    if n > 0 {
      assert s[..n][0] == s[0] && s[1..][..n - 1] == s[..n][1..];
      FirstLfIs(s[1..], n - 1);
    }
  }

  lemma {:induction false} FirstLfFinds(s: seq<Byte>)
    ensures LF !in s[..FirstLf(s)] && (FirstLf(s) < |s| ==> s[FirstLf(s)] == LF)
  {
    if s != [] && s[0] != LF {
      FirstLfFinds(s[1..]);
      var n := FirstLf(s);
      assert s[..n] == [s[0]] + s[1..][..n - 1];
    }
  }

  /** The pending bytes are exactly those after the last LF. */
  lemma {:induction false} RestIsAfterLastLf(s: seq<Byte>)
    ensures var r := Rest(s); s[|s| - |r|..] == r && LF !in r && (|r| < |s| ==> s[|s| - |r| - 1] == LF)
    decreases |s|
  {
    var n := FirstLf(s);
    FirstLfFinds(s);
    if n < |s| { RestIsAfterLastLf(s[n + 1..]); } else { assert s[..n] == s; }
  }

  lemma CutOne(text: seq<Byte> -> Option<string>, s: seq<Byte>, start: nat, n: nat)
    requires n < |s| && s[n] == LF && LF !in s[..n]
    ensures Lines(text, s, start) == Keep(text, s[..n], start + n + 1) + Lines(text, s[n + 1..], start + n + 1)
    ensures Rest(s) == Rest(s[n + 1..])
  {
    FirstLfIs(s, n);
  }

  lemma CutNone(text: seq<Byte> -> Option<string>, s: seq<Byte>, start: nat)
    requires LF !in s
    ensures Lines(text, s, start) == [] && Rest(s) == s
  {
    FirstLfIs(s, |s|);
  }

  lemma Associate<T>(a: seq<T>, b: seq<T>, c: seq<T>)
    ensures (a + b) + c == a + (b + c)
  {}

  /** Cutting the file anywhere does not change its lines: what is left over is prepended to what comes next. */
  lemma {:induction false} LinesConcat(text: seq<Byte> -> Option<string>, a: seq<Byte>, b: seq<Byte>, start: nat)
    ensures Lines(text, a + b, start) == Lines(text, a, start) + Lines(text, Rest(a) + b, start + |a| - |Rest(a)|)
    ensures Rest(a + b) == Rest(Rest(a) + b)
    decreases |a|
  {
    hide Lines, Rest, FirstLf, Keep;
    var n := FirstLf(a);
    FirstLfFinds(a);
    if n < |a| {
      var rest := a[n + 1..];
      assert (a + b)[..n] == a[..n] && (a + b)[n] == LF && (a + b)[n + 1..] == rest + b;
      CutOne(text, a + b, start, n);
      CutOne(text, a, start, n);
      LinesConcat(text, rest, b, start + n + 1);
      Associate(Keep(text, a[..n], start + n + 1), Lines(text, rest, start + n + 1),
                Lines(text, Rest(rest) + b, start + n + 1 + |rest| - |Rest(rest)|));
    } else {
      assert a[..n] == a;
      CutNone(text, a, start);
    }
  }

  /* ----- lines by their positions ----- */

  /** The bytes of a file from `b` to the LF before `o` are a whole line, read from `start`, and `x` decodes them. */
  predicate LineFrom(text: seq<Byte> -> Option<string>, file: seq<Byte>, start: nat, b: nat, o: nat, x: string) {
    && start <= b < o <= |file| && file[o - 1] == LF && LF !in file[b..o - 1]
    && (b == start || file[b - 1] == LF) && text(file[b..o - 1]) == Just(x)
  }

  ghost predicate LineEnding(text: seq<Byte> -> Option<string>, file: seq<Byte>, start: nat, o: nat, x: string) {
    exists b: nat :: LineFrom(text, file, start, b, o, x)
  }

  predicate Increasing(lines: seq<TailLine>) {
    forall i, j :: 0 <= i < j < |lines| ==> lines[i].offset < lines[j].offset
  }

  /** `lines` are, each once and in order, the lines that end past `begin` and no later than `end`. */
  ghost predicate AllEnding(text: seq<Byte> -> Option<string>, file: seq<Byte>, start: nat, begin: nat, end: nat,
      lines: seq<TailLine>) {
    && Increasing(lines)
    && forall x, o: nat :: TailLine(x, o) in lines <==> begin < o <= end && LineEnding(text, file, start, o, x)
  }

  lemma {:induction false} OffsetsIncrease(text: seq<Byte> -> Option<string>, s: seq<Byte>, start: nat)
    ensures Increasing(Lines(text, s, start))
    ensures forall i :: 0 <= i < |Lines(text, s, start)| ==> start < Lines(text, s, start)[i].offset <= start + |s|
    decreases |s|
  {
    var n := FirstLf(s);
    if n < |s| { OffsetsIncrease(text, s[n + 1..], start + n + 1); }
  }

  /** The same, of bytes that start at byte `start` of a file. */
  predicate LineAt(text: seq<Byte> -> Option<string>, s: seq<Byte>, start: nat, b: nat, o: nat, x: string) {
    && start <= b < o <= start + |s| && s[o - 1 - start] == LF && LF !in s[b - start..o - 1 - start]
    && (b == start || s[b - 1 - start] == LF) && text(s[b - start..o - 1 - start]) == Just(x)
  }

  lemma {:induction false} LinesByPosition(text: seq<Byte> -> Option<string>, s: seq<Byte>, start: nat, x: string,
      o: nat)
    ensures TailLine(x, o) in Lines(text, s, start) <==> exists b: nat :: LineAt(text, s, start, b, o, x)
    decreases |s|
  {
    hide Lines, LineAt, Keep;
    FirstLfFinds(s);
    var n := FirstLf(s);
    if n == |s| {
      assert s[..n] == s;
      CutNone(text, s, start);
      NoneAt(text, s, start, x, o);
    } else {
      var rest, next := s[n + 1..], start + n + 1;
      CutOne(text, s, start, n);
      LinesByPosition(text, rest, next, x, o);
      if b: nat :| LineAt(text, rest, next, b, o, x) { FirstOrLater(text, s, start, n, b, o, x); }
      if b: nat :| LineAt(text, s, start, b, o, x) { FirstOrLater(text, s, start, n, b, o, x); }
      KeepHas(text, s[..n], next, x, o);
      FirstOrLater(text, s, start, n, start, o, x);
    }
  }

  lemma KeepHas(text: seq<Byte> -> Option<string>, raw: seq<Byte>, offset: nat, x: string, o: nat)
    ensures TailLine(x, o) in Keep(text, raw, offset) <==> text(raw) == Just(x) && o == offset
  {}

  lemma NoneAt(text: seq<Byte> -> Option<string>, s: seq<Byte>, start: nat, x: string, o: nat)
    requires LF !in s
    ensures forall b: nat :: !LineAt(text, s, start, b, o, x)
  {}

  /** A whole line is the first one, or one of those after its LF. */
  lemma FirstOrLater(text: seq<Byte> -> Option<string>, s: seq<Byte>, start: nat, n: nat, b: nat, o: nat, x: string)
    requires n < |s| && s[n] == LF && LF !in s[..n]
    ensures LineAt(text, s, start, b, o, x) <==>
              (b == start && o == start + n + 1 && text(s[..n]) == Just(x))
              || LineAt(text, s[n + 1..], start + n + 1, b, o, x)
  {
    var rest := s[n + 1..];
    assert forall j :: 0 <= j < n ==> s[j] == s[..n][j] && s[j] != LF;
    assert s[0..n] == s[..n];
    if start <= b < o <= start + |s| {
      var p, q := b - start, o - 1 - start;
      assert forall j :: p <= j < q ==> s[p..q][j - p] == s[j];
      if n < p {
        SliceOfSlice(s, n + 1, |s|, p, q);
        assert s[n + 1..|s|] == rest;
      }
    }
  }

  lemma SliceOfSlice(file: seq<Byte>, start: nat, end: nat, i: nat, j: nat)
    requires start <= i <= j <= end <= |file|
    ensures file[start..end][i - start..j - start] == file[i..j]
  {
    var a, b := file[start..end][i - start..j - start], file[i..j];
    assert |a| == |b|;
    assert forall m :: 0 <= m < |a| ==> a[m] == file[start..end][i - start + m] == file[i + m] == b[m];
  }

  lemma SliceAt(text: seq<Byte> -> Option<string>, file: seq<Byte>, start: nat, end: nat, b: nat, o: nat, x: string)
    requires start <= end <= |file|
    ensures LineAt(text, file[start..end], start, b, o, x) <==> o <= end && LineFrom(text, file, start, b, o, x)
  {
    if start <= b < o <= end { SliceOfSlice(file, start, end, b, o - 1); }
  }

  /** The lines of a stretch of the file that starts at a line boundary. */
  lemma LinesAreAll(text: seq<Byte> -> Option<string>, file: seq<Byte>, start: nat, end: nat)
    requires start <= end <= |file|
    ensures AllEnding(text, file, start, start, end, Lines(text, file[start..end], start))
  {
    hide Lines, LineAt;
    var s := file[start..end];
    OffsetsIncrease(text, s, start);
    forall x, o: nat
      ensures TailLine(x, o) in Lines(text, s, start) <==> start < o <= end && LineEnding(text, file, start, o, x) {
      LinesByPosition(text, s, start, x, o);
      forall b: nat ensures LineAt(text, s, start, b, o, x) <==> o <= end && LineFrom(text, file, start, b, o, x) {
        SliceAt(text, file, start, end, b, o, x);
      }
    }
  }

  /** Of increasing lines, those after the first `|a|` are those not among them. */
  lemma LinesAfter(a: seq<TailLine>, b: seq<TailLine>, t: TailLine)
    requires Increasing(a + b)
    ensures t in b <==> t in a + b && t !in a
    ensures Increasing(b)
  {
    var all := a + b;
    assert forall i :: 0 <= i < |b| ==> all[|a| + i] == b[i];
    forall i, j | 0 <= i < |a| && 0 <= j < |b| ensures a[i].offset < b[j].offset {
      assert all[i].offset < all[|a| + j].offset;
    }
  }

  datatype ReadResult = ReadResult(offset: nat, pending: seq<Byte>, lines: seq<TailLine>, reset: bool)

  /** What a reader that started at `start`, a line boundary, knows after reading up to `offset`. */
  ghost predicate Caught(file: seq<Byte>, start: nat, offset: nat, pending: seq<Byte>) {
    start <= offset <= |file| && pending == Rest(file[start..offset])
  }

  /** `lines` are those completed between `begin` and `offset`, in a reader that started at `start`. */
  ghost predicate Delivered(text: seq<Byte> -> Option<string>, file: seq<Byte>, start: nat, begin: nat, offset: nat,
      pending: seq<Byte>, lines: seq<TailLine>) {
    && start <= begin <= offset && Caught(file, start, offset, pending)
    && Lines(text, file[start..offset], start) == Lines(text, file[start..begin], start) + lines
  }

  /** That is, exactly the lines that end there. */
  lemma DeliveredIsAll(text: seq<Byte> -> Option<string>, file: seq<Byte>, start: nat, begin: nat, offset: nat,
      pending: seq<Byte>, lines: seq<TailLine>)
    requires Delivered(text, file, start, begin, offset, pending, lines)
    ensures AllEnding(text, file, start, begin, offset, lines)
  {
    hide Lines, Rest, LineEnding;
    var before, all := Lines(text, file[start..begin], start), Lines(text, file[start..offset], start);
    LinesAreAll(text, file, start, begin);
    LinesAreAll(text, file, start, offset);
    forall x, o: nat
      ensures TailLine(x, o) in lines <==> begin < o <= offset && LineEnding(text, file, start, o, x) {
      LinesAfter(before, lines, TailLine(x, o));
    }
    LinesAfter(before, lines, TailLine("", 0));
  }

  ghost predicate NeverEmpty(sizes: seq<nat>) { forall i :: 0 <= i < |sizes| ==> sizes[i] > 0 }

  /**
   readNewLines: one pass from `offset` to the file's present end. `sizes` is how many bytes each read
   returns; a read of none ends the pass early.
   */
  method ReadNewLines(text: seq<Byte> -> Option<string>, file: Option<seq<Byte>>, offset: nat, pending: seq<Byte>,
      sizes: seq<nat>, ghost start: nat)
    returns (r: ReadResult)
    requires file.Just? && offset <= |file.value| ==> Caught(file.value, start, offset, pending)
    ensures file.Nothing? ==> r == ReadResult(offset, pending, [], false)
    ensures file.Just? ==> r.reset == (|file.value| < offset)
    ensures file.Just? && !r.reset ==> Delivered(text, file.value, start, offset, r.offset, r.pending, r.lines)
    ensures file.Just? && r.reset ==> Delivered(text, file.value, 0, 0, r.offset, r.pending, r.lines)
    ensures file.Just? && NeverEmpty(sizes) && |sizes| >= |file.value| ==> r.offset == |file.value|
    ensures file.Just? && !r.reset ==> AllEnding(text, file.value, start, offset, r.offset, r.lines)
    ensures file.Just? && r.reset ==> AllEnding(text, file.value, 0, 0, r.offset, r.lines)
  {
    if file.Nothing? { return ReadResult(offset, pending, [], false); }
    hide Lines, Rest, FirstLf, Delivered, Caught, AllEnding;
    var reset := |file.value| < offset;
    var at, carry, lines :=
      ReadOn(text, file.value, if reset then 0 else offset, if reset then [] else pending, sizes,
      if reset then 0 else start);
    DeliveredIsAll(text, file.value, if reset then 0 else start, if reset then 0 else offset, at, carry, lines);
    return ReadResult(at, carry, lines, reset);
  }

  /** The read loop. */
  method ReadOn(text: seq<Byte> -> Option<string>, file: seq<Byte>, offset: nat, pending: seq<Byte>, sizes: seq<nat>,
      ghost start: nat)
    returns (at: nat, carry: seq<Byte>, lines: seq<TailLine>)
    requires Caught(file, start, offset, pending) || (start == offset == 0 && pending == [])
    ensures Delivered(text, file, start, offset, at, carry, lines)
    ensures NeverEmpty(sizes) && |sizes| >= |file| ==> at == |file|
  {
    hide Lines, Rest, FirstLf, Delivered, Caught, Keep;
    at, carry, lines := offset, pending, [];
    NothingYet(text, file, start, offset, pending);
    DeliveredWithin(text, file, start, offset, at, carry, lines);
    var i := 0;
    while at < |file| && i < |sizes|
      invariant at <= |file| && |carry| <= at && i <= |sizes| && Delivered(text, file, start, offset, at, carry, lines)
      invariant NeverEmpty(sizes) ==> at >= i
    {
      var want := if READ_CHUNK < |file| - at then READ_CHUNK else |file| - at;
      var got := if sizes[i] < want then sizes[i] else want;
      if got == 0 { break; }
      var more := carry + file[at..at + got];
      OneChunk(text, file, start, offset, at, carry, lines, got, more);
      var cut, left := CutLines(text, more, at - |carry|);
      at, carry, lines, i := at + got, left, lines + cut, i + 1;
      DeliveredWithin(text, file, start, offset, at, carry, lines);
    }
  }

  lemma DeliveredWithin(text: seq<Byte> -> Option<string>, file: seq<Byte>, start: nat, begin: nat, offset: nat,
      pending: seq<Byte>, lines: seq<TailLine>)
    requires Delivered(text, file, start, begin, offset, pending, lines)
    ensures offset <= |file| && |pending| <= offset
  {}

  lemma NothingYet(text: seq<Byte> -> Option<string>, file: seq<Byte>, start: nat, offset: nat, pending: seq<Byte>)
    requires Caught(file, start, offset, pending) || (start == offset == 0 && pending == [])
    ensures Delivered(text, file, start, offset, offset, pending, [])
  {
    if start == offset { assert file[start..offset] == []; }
  }

  lemma OneChunk(text: seq<Byte> -> Option<string>, file: seq<Byte>, start: nat, begin: nat, at: nat,
      pending: seq<Byte>, lines: seq<TailLine>, got: nat, more: seq<Byte>)
    requires Delivered(text, file, start, begin, at, pending, lines) && at + got <= |file| && |pending| <= at
    requires more == pending + file[at..at + got]
    ensures Delivered(text, file, start, begin, at + got, Rest(more), lines + Lines(text, more, at - |pending|))
  {
    hide Lines, Rest;
    var chunk := file[at..at + got];
    assert file[start..at + got] == file[start..at] + chunk;
    LinesConcat(text, file[start..at], chunk, start);
    Associate(Lines(text, file[start..begin], start), lines, Lines(text, pending + chunk, at - |pending|));
  }

  /** The inner loop: cut off one complete line at a time. */
  method CutLines(text: seq<Byte> -> Option<string>, s: seq<Byte>, start: nat)
    returns (lines: seq<TailLine>, pending: seq<Byte>)
    ensures lines == Lines(text, s, start) && pending == Rest(s)
  {
    hide Lines, Rest, Keep, FirstLf;
    lines, pending := [], s;
    var pendingStart := start;
    var nl := FirstLf(pending);
    while nl < |pending|
      invariant nl == FirstLf(pending) && 0 <= pendingStart
      invariant lines + Lines(text, pending, pendingStart) == Lines(text, s, start) && Rest(pending) == Rest(s)
      decreases |pending|
    {
      var lineEnd := pendingStart + nl + 1;
      FirstLfFinds(pending);
      CutOne(text, pending, pendingStart, nl);
      Associate(lines, Keep(text, pending[..nl], lineEnd), Lines(text, pending[nl + 1..], lineEnd));
      lines := lines + Keep(text, pending[..nl], lineEnd);
      pending, pendingStart := pending[nl + 1..], lineEnd;
      nl := FirstLf(pending);
    }
    FirstLfFinds(pending);
    assert pending[..nl] == pending;
    CutNone(text, pending, pendingStart);
  }

  /* ----- many passes ----- */

  lemma PassesJoin(text: seq<Byte> -> Option<string>, file: seq<Byte>, grown: seq<Byte>, start: nat, begin: nat,
      mid: nat, end: nat,
      p: seq<Byte>, q: seq<Byte>, a: seq<TailLine>, b: seq<TailLine>)
    requires Delivered(text, file, start, begin, mid, p, a) && file <= grown &&
               Delivered(text, grown, start, mid, end, q, b)
    ensures Delivered(text, grown, start, begin, end, q, a + b)
  {
    hide Lines, Rest;
    assert grown[start..mid] == file[start..mid] && grown[start..begin] == file[start..begin];
    Associate(Lines(text, file[start..begin], start), a, b);
  }

  /** A pass over the file as it then was, and what it returned. */
  datatype Pass = Pass(file: seq<Byte>, offset: nat, pending: seq<Byte>, lines: seq<TailLine>)

  /** Passes one after another, each from where the one before it stopped, while the file only grows. */
  ghost predicate Passes(text: seq<Byte> -> Option<string>, start: nat, ps: seq<Pass>) {
    ps != [] ==>
      var n := |ps| - 1;
      && Passes(text, start, ps[..n])
      && (n > 0 ==> ps[n - 1].file <= ps[n].file)
      && Delivered(text, ps[n].file, start, if n > 0 then ps[n - 1].offset else start, ps[n].offset, ps[n].pending,
        ps[n].lines)
  }

  function Returned(ps: seq<Pass>): seq<TailLine> {
    if ps == [] then [] else Returned(ps[..|ps| - 1]) + ps[|ps| - 1].lines
  }

  /** Over any number of passes, while the file grows, the results add up to the lines after the start offset. */
  lemma PassesCompose(text: seq<Byte> -> Option<string>, start: nat, ps: seq<Pass>)
    requires ps != [] && Passes(text, start, ps)
    ensures var last := ps[|ps| - 1];
            && start <= last.offset <= |last.file| && last.pending == Rest(last.file[start..last.offset])
            && Returned(ps) == Lines(text, last.file[start..last.offset], start)
            && AllEnding(text, last.file, start, start, last.offset, Returned(ps))
  {
    hide Lines, Rest, Delivered, AllEnding;
    PassesDeliver(text, start, ps);
    var last := ps[|ps| - 1];
    DeliveredIsAll(text, last.file, start, start, last.offset, last.pending, Returned(ps));
    AllDelivered(text, last.file, start, last.offset, last.pending, Returned(ps));
  }

  lemma AllDelivered(text: seq<Byte> -> Option<string>, file: seq<Byte>, start: nat, offset: nat, pending: seq<Byte>,
      lines: seq<TailLine>)
    requires Delivered(text, file, start, start, offset, pending, lines)
    ensures start <= offset <= |file| && pending == Rest(file[start..offset]) &&
              lines == Lines(text, file[start..offset], start)
  {
    assert file[start..start] == [] && [] + lines == lines;
  }

  lemma {:induction false} PassesDeliver(text: seq<Byte> -> Option<string>, start: nat, ps: seq<Pass>)
    requires ps != [] && Passes(text, start, ps)
    ensures var last := ps[|ps| - 1]; Delivered(text, last.file, start, start, last.offset, last.pending, Returned(ps))
  {
    hide Lines, Rest, Delivered;
    var n := |ps| - 1;
    if n == 0 {
      assert [] + ps[0].lines == ps[0].lines && ps[..0] == [];
    } else {
      PassesDeliver(text, start, ps[..n]);
      var p, q := ps[n - 1], ps[n];
      PassesJoin(text, p.file, q.file, start, start, p.offset, q.offset, p.pending, q.pending, Returned(ps[..n]),
        q.lines);
    }
  }

  /** `n` bytes on, just past an LF, the first `count` lines are complete and the rest follow. */
  ghost predicate Splits(text: seq<Byte> -> Option<string>, s: seq<Byte>, start: nat, n: nat, count: nat) {
    var lines := Lines(text, s, start);
    && 0 < n <= |s| && s[n - 1] == LF && count <= |lines|
    && Lines(text, s[..n], start) == lines[..count]
    && Lines(text, s[n..], start + n) == lines[count..]
    && Rest(s[n..]) == Rest(s)
  }

  lemma SplitsFirst(text: seq<Byte> -> Option<string>, s: seq<Byte>, start: nat, m: nat)
    requires m < |s| && s[m] == LF && LF !in s[..m]
    ensures Splits(text, s, start, m + 1, |Keep(text, s[..m], start + m + 1)|)
  {
    hide Lines, Rest, FirstLf, Keep;
    CutOne(text, s, start, m);
    assert s[..m + 1][..m] == s[..m] && s[..m + 1][m + 1..] == [];
    CutOne(text, s[..m + 1], start, m);
    CutNone(text, [], start + m + 1);
  }

  lemma SplitsLater(text: seq<Byte> -> Option<string>, s: seq<Byte>, start: nat, m: nat, n: nat, count: nat)
    requires m < |s| && s[m] == LF && LF !in s[..m] && Splits(text, s[m + 1..], start + m + 1, n, count)
    ensures Splits(text, s, start, m + 1 + n, |Keep(text, s[..m], start + m + 1)| + count)
  {
    hide Lines, Rest, Keep;
    var rest, next := s[m + 1..], start + m + 1;
    var cut := s[..m + 1 + n];
    assert cut[..m] == s[..m] && cut[m + 1..] == rest[..n] && s[m + 1 + n..] == rest[n..];
    CutOne(text, s, start, m);
    CutOne(text, cut, start, m);
    var first, lines := Keep(text, s[..m], next), Lines(text, rest, next);
    assert (first + lines)[..|first| + count] == first + lines[..count];
    assert (first + lines)[|first| + count..] == lines[count..];
  }

  /**
   Restarting just past a delivered line gives exactly the lines after it, with the same offsets and the same
   bytes pending.
   */
  lemma {:induction false} Restart(text: seq<Byte> -> Option<string>, s: seq<Byte>, start: nat, i: nat)
    requires i < |Lines(text, s, start)|
    ensures Lines(text, s, start)[i].offset > start
    ensures Splits(text, s, start, Lines(text, s, start)[i].offset - start, i + 1)
    decreases |s|
  {
    hide Lines, Rest, FirstLf, Splits;
    FirstLfFinds(s);
    var m := FirstLf(s);
    if m == |s| {
      assert s[..m] == s;
      CutNone(text, s, start);
    }
    var k := |Keep(text, s[..m], start + m + 1)|;
    CutOne(text, s, start, m);
    if i < k {
      SplitsFirst(text, s, start, m);
    } else {
      Restart(text, s[m + 1..], start + m + 1, i - k);
      SplitsLater(text, s, start, m, Lines(text, s, start)[i].offset - start - m - 1, i - k + 1);
    }
  }
}
