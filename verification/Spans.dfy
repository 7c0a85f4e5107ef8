/**
 Finding JSON values inside a model's prose (src/worker/schema.ts, balancedJsonSpans): one pass with a
 stack of open brackets, ignoring brackets inside strings. A stray closing bracket forgets what is open.
 */
module Spans {
  datatype Opening = Opening(bracket: char, index: nat)

  /** text[start..end], brackets included. */
  datatype Span = Span(start: nat, end: nat)

  datatype Scan = Scan(stack: seq<Opening>, inString: bool, escaped: bool, spans: seq<Span>)

  const START: Scan := Scan([], false, false, [])

  predicate Opens(c: char) { c == '{' || c == '[' }

  predicate Closes(c: char) { c == '}' || c == ']' }

  function Expected(c: char): char { if c == '}' then '{' else '[' }

  /** One character, at position `i`. */
  function Step(s: Scan, c: char, i: nat): Scan {
    if s.inString then
      if s.escaped then s.(escaped := false)
      else if c == '\\' then s.(escaped := true)
      else if c == '"' then s.(inString := false)
      else s
    else if c == '"' then s.(inString := true)
    else if Opens(c) then s.(stack := s.stack + [Opening(c, i)])
    else if !Closes(c) then s
    else if s.stack == [] || s.stack[|s.stack| - 1].bracket != Expected(c) then s.(stack := [])
    else
      s.(stack := s.stack[..|s.stack| - 1], spans := s.spans + [Span(s.stack[|s.stack| - 1].index, i + 1)])
  }

  /** Scanning `text`, which starts at position `at`. */
  function Feed(s: Scan, text: string, at: nat): Scan {
    if text == "" then s else Step(Feed(s, text[..|text| - 1], at), text[|text| - 1], at + |text| - 1)
  }

  method BalancedJsonSpans(text: string) returns (spans: seq<Span>)
    ensures spans == Feed(START, text, 0).spans
  {
    spans := [];
    var stack: seq<Opening>, inString, escaped := [], false, false;
    var i := 0;
    while i < |text|
      invariant i <= |text| && Feed(START, text[..i], 0) == Scan(stack, inString, escaped, spans)
    {
      var c := text[i];
      assert text[..i + 1][..i] == text[..i];
      if inString {
        if escaped { escaped := false; }
        else if c == '\\' { escaped := true; }
        else if c == '"' { inString := false; }
      } else if c == '"' {
        inString := true;
      } else if Opens(c) {
        stack := stack + [Opening(c, i)];
      } else if Closes(c) {
        if stack == [] || stack[|stack| - 1].bracket != Expected(c) {
          stack := [];
        } else {
          spans := spans + [Span(stack[|stack| - 1].index, i + 1)];
          stack := stack[..|stack| - 1];
        }
      }
      i := i + 1;
    }
    assert text[..i] == text;
  }

  /* ----- on any text: matching brackets, nested or apart ----- */

  predicate Apart(a: Span, b: Span) { a.end <= b.start || b.start < a.start }

  /** Open brackets and spans lie within the text and are what they say. */
  ghost predicate Matched(text: string, s: Scan) {
    && (forall k :: 0 <= k < |s.stack| ==>
      s.stack[k].index < |text| && text[s.stack[k].index] == s.stack[k].bracket && Opens(s.stack[k].bracket))
    && (forall k :: 0 <= k < |s.spans| ==>
         var x := s.spans[k];
           x.start + 1 < x.end <= |text| && Closes(text[x.end - 1]) && text[x.start] == Expected(text[x.end - 1]))
  }

  /** No span reaches over an open bracket, and no two spans cross. */
  ghost predicate Uncrossed(s: Scan) {
    && (forall k, m :: 0 <= k < m < |s.stack| ==> s.stack[k].index < s.stack[m].index)
    && (forall k, m :: 0 <= k < |s.spans| && 0 <= m < |s.stack| ==>
         s.spans[k].end <= s.stack[m].index || s.stack[m].index < s.spans[k].start)
    && (forall k, m :: 0 <= k < m < |s.spans| ==> Apart(s.spans[k], s.spans[m]))
  }

  ghost predicate Sound(text: string, s: Scan) { Matched(text, s) && Uncrossed(s) }

  lemma StepMatched(text: string, s: Scan)
    requires text != "" && Matched(text[..|text| - 1], s)
    ensures Matched(text, Step(s, text[|text| - 1], |text| - 1))
  {
    var before := text[..|text| - 1];
    assert forall k :: 0 <= k < |before| ==> before[k] == text[k];
  }

  lemma PushUncrossed(text: string, s: Scan, c: char)
    requires Matched(text, s) && Uncrossed(s)
    ensures Uncrossed(s.(stack := s.stack + [Opening(c, |text|)]))
  {}

  lemma PopUncrossed(text: string, s: Scan)
    requires Matched(text, s) && Uncrossed(s) && s.stack != []
    ensures var n := |s.stack| - 1;
            Uncrossed(s.(stack := s.stack[..n], spans := s.spans + [Span(s.stack[n].index, |text| + 1)]))
  {}

  lemma StepKeepsSound(text: string, s: Scan)
    requires text != "" && Sound(text[..|text| - 1], s)
    ensures Sound(text, Step(s, text[|text| - 1], |text| - 1))
  {
    hide Matched, Uncrossed;
    var before, c := text[..|text| - 1], text[|text| - 1];
    StepMatched(text, s);
    PushUncrossed(before, s, c);
    SameUncrossed(s);
    if s.stack != [] { PopUncrossed(before, s); }
  }

  lemma SameUncrossed(s: Scan)
    requires Uncrossed(s)
    ensures Uncrossed(s.(stack := [])) && forall a: bool, b: bool :: Uncrossed(s.(inString := a, escaped := b))
  {}

  lemma {:induction false} AlwaysSound(text: string)
    ensures Sound(text, Feed(START, text, 0))
  {
    hide Sound, Step;
    if text == "" {
      NothingScanned();
    } else {
      AlwaysSound(text[..|text| - 1]);
      StepKeepsSound(text, Feed(START, text[..|text| - 1], 0));
    }
  }

  lemma NothingScanned()
    ensures Sound("", START)
  {}

  /**
   Every span is delimited by matching brackets, and of two spans the later one contains the earlier or lies past
   it.
   */
  lemma SpansNest(text: string, k: nat, m: nat)
    requires k < m < |Feed(START, text, 0).spans|
    ensures var a, b := Feed(START, text, 0).spans[k], Feed(START, text, 0).spans[m];
            && b.start + 1 < b.end <= |text| && Closes(text[b.end - 1]) && text[b.start] == Expected(text[b.end - 1])
            && (a.end <= b.start || b.start < a.start)
  {
    AlwaysSound(text);
  }

  /* ----- on balanced text: exactly the bracketed groups ----- */

  /** A character inside a string: plain, or after a backslash. */
  datatype Unit = Plain(c: char) | Escaped(c: char)

  /** Prose, strings and bracketed groups. */
  datatype Piece = Other(c: char) | Quoted(units: seq<Unit>) | Group(curly: bool, inner: seq<Piece>)

  predicate Balanced(ps: seq<Piece>)
    decreases ps
  {
    forall i :: 0 <= i < |ps| ==>
      match ps[i]
      case Other(c) => c != '"' && !Opens(c) && !Closes(c)
      case Quoted(units) => forall j :: 0 <= j < |units| && units[j].Plain? ==> units[j].c != '"' && units[j].c != '\\'
      case Group(_, inner) => Balanced(inner)
  }

  function UnitsText(us: seq<Unit>): string {
    if us == [] then "" else (if us[0].Plain? then [us[0].c] else ['\\', us[0].c]) + UnitsText(us[1..])
  }

  function PieceText(p: Piece): string
    decreases p
  {
    match p
    case Other(c) => [c]
    case Quoted(units) => "\"" + (UnitsText(units) + "\"")
    case Group(curly, inner) => (if curly then "{" else "[") + (Text(inner) + (if curly then "}" else "]"))
  }

  function Text(ps: seq<Piece>): string
    decreases ps
  {
    if ps == [] then "" else PieceText(ps[0]) + Text(ps[1..])
  }

  /** The groups, as spans, in the order they close. */
  function Groups(ps: seq<Piece>, at: nat): seq<Span>
    decreases ps
  {
    if ps == [] then []
    else
      (if ps[0].Group? then Groups(ps[0].inner, at + 1) + [Span(at, at + |PieceText(ps[0])|)] else [])
      + Groups(ps[1..], at + |PieceText(ps[0])|)
  }

  lemma {:induction false} FeedConcat(s: Scan, a: string, b: string, at: nat)
    ensures Feed(s, a + b, at) == Feed(Feed(s, a, at), b, at + |a|)
  {
    if b == "" {
      assert a + b == a;
    } else {
      assert (a + b)[..|a + b| - 1] == a + b[..|b| - 1];
      FeedConcat(s, a, b[..|b| - 1], at);
    }
  }

  lemma FeedOne(s: Scan, c: char, at: nat)
    ensures Feed(s, [c], at) == Step(s, c, at)
  {
    assert [c][..0] == "";
  }

  lemma {:induction false} StringIsSkipped(s: Scan, us: seq<Unit>, at: nat)
    requires s.inString && !s.escaped
    requires forall j :: 0 <= j < |us| && us[j].Plain? ==> us[j].c != '"' && us[j].c != '\\'
    ensures Feed(s, UnitsText(us), at) == s
  {
    hide Feed;
    if us == [] {
      FeedNothing(s, at);
    } else {
      var head := if us[0].Plain? then [us[0].c] else ['\\', us[0].c];
      FeedConcat(s, head, UnitsText(us[1..]), at);
      if us[0].Plain? {
        FeedOne(s, us[0].c, at);
      } else {
        assert head == ['\\'] + [us[0].c];
        FeedConcat(s, ['\\'], [us[0].c], at);
        FeedOne(s, '\\', at);
        FeedOne(s.(escaped := true), us[0].c, at + 1);
      }
      StringIsSkipped(s, us[1..], at + |head|);
    }
  }

  /** Scanning balanced text reports exactly its groups, and leaves what was open before. */
  lemma {:induction false} ScansGroups(s: Scan, ps: seq<Piece>, at: nat)
    requires Balanced(ps) && !s.inString && !s.escaped
    ensures Feed(s, Text(ps), at) == s.(spans := s.spans + Groups(ps, at))
    decreases ps
  {
    hide Feed, Step, PieceText, Groups;
    if ps == [] {
      FeedNothing(s, at);
      NoGroups(at);
      assert s.spans + [] == s.spans;
    } else {
      var p, n := ps[0], at + |PieceText(ps[0])|;
      FeedConcat(s, PieceText(p), Text(ps[1..]), at);
      ScansPiece(s, p, at);
      var own := Groups([p], at);
      ScansGroups(s.(spans := s.spans + own), ps[1..], n);
      GroupsCons(p, ps[1..], at);
      assert ps == [p] + ps[1..];
      assert s.spans + own + Groups(ps[1..], n) == s.spans + (own + Groups(ps[1..], n));
    }
  }

  lemma FeedNothing(s: Scan, at: nat)
    ensures Feed(s, "", at) == s
  {}

  lemma NoGroups(at: nat)
    ensures Groups([], at) == []
  {}

  lemma GroupsCons(p: Piece, ps: seq<Piece>, at: nat)
    ensures Groups([p] + ps, at) == Groups([p], at) + Groups(ps, at + |PieceText(p)|)
    ensures Groups([p], at) == if p.Group? then Groups(p.inner, at + 1) + [Span(at, at + |PieceText(p)|)] else []
  {
    assert ([p] + ps)[1..] == ps && [p][1..] == [];
  }

  lemma {:induction false} ScansPiece(s: Scan, p: Piece, at: nat)
    requires Balanced([p]) && !s.inString && !s.escaped
    ensures Feed(s, PieceText(p), at) == s.(spans := s.spans + Groups([p], at))
    decreases p, 0
  {
    hide Feed;
    GroupsCons(p, [], at);
    assert [p][0] == p && s.spans + [] == s.spans;
    match p
    case Other(c) => FeedOne(s, c, at);
    case Quoted(units) =>
      var body := UnitsText(units);
      FeedConcat(s, "\"", body + "\"", at);
      FeedOne(s, '"', at);
      FeedConcat(s.(inString := true), body, "\"", at + 1);
      StringIsSkipped(s.(inString := true), units, at + 1);
      FeedOne(s.(inString := true), '"', at + 1 + |body|);
    case Group(curly, inner) =>
      var open, close := if curly then '{' else '[', if curly then '}' else ']';
      var body := Text(inner);
      assert PieceText(p) == [open] + (body + [close]);
      FeedConcat(s, [open], body + [close], at);
      FeedOne(s, open, at);
      var t := s.(stack := s.stack + [Opening(open, at)]);
      FeedConcat(t, body, [close], at + 1);
      ScansGroups(t, inner, at + 1);
      var u := t.(spans := s.spans + Groups(inner, at + 1));
      FeedOne(u, close, at + 1 + |body|);
      assert u.stack[..|u.stack| - 1] == s.stack;
      assert s.spans + Groups(inner, at + 1) + [Span(at, at + |PieceText(p)|)] ==
        s.spans + (Groups(inner, at + 1) + [Span(at, at + |PieceText(p)|)]);
  }

  /** So a JSON object or array among prose that quotes and nests properly is found, whole. */
  lemma FindsTheValue(before: seq<Piece>, value: Piece, after: seq<Piece>)
    requires Balanced(before) && Balanced([value]) && Balanced(after) && value.Group?
    ensures var text, at := Text(before) + (PieceText(value) + Text(after)), |Text(before)|;
            var spans := Feed(START, text, 0).spans;
            Span(at, at + |PieceText(value)|) in spans && text[at..at + |PieceText(value)|] == PieceText(value)
  {
    hide Feed, PieceText, Groups, Balanced;
    var at := |Text(before)|;
    FeedConcat(START, Text(before), PieceText(value) + Text(after), 0);
    ScansGroups(START, before, 0);
    var s := START.(spans := START.spans + Groups(before, 0));
    FeedConcat(s, PieceText(value), Text(after), at);
    ScansPiece(s, value, at);
    GroupsCons(value, [], at);
    var t := s.(spans := s.spans + Groups([value], at));
    ScansGroups(t, after, at + |PieceText(value)|);
    assert Span(at, at + |PieceText(value)|) in Groups([value], at);
  }
}
