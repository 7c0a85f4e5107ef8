/**
 The journal as text (src/runtime/journal.ts): append() writes an entry and a newline, a dying process may
 leave any prefix of that behind, and load() skips lines it cannot parse. A torn line costs its own entry,
 as intended, but the next append continues it, so it costs the next entry too, and even an entry that
 was complete but for its newline.
 */
module TornJournal {
  import opened Options
  import opened Keys
  import opened Engine
  import opened Journal

  /** JSON.stringify and JSON.parse, the latter after trimming; Nothing is a blank or unparseable line. */
  datatype Format = Format(parse: string -> Option<Entry>, text: Entry -> string)

  function IndexOfNewline(s: string): (n: nat)
    ensures n <= |s|
  {
    if s == "" || s[0] == '\n' then 0 else 1 + IndexOfNewline(s[1..])
  }

  function One(e: Option<Entry>): seq<Entry> { if e.Just? then [e.value] else [] }

  /** The entries load() finds: one for each line that parses, the last one with or without its newline. */
  function Entries(json: Format, file: string): seq<Entry>
    decreases |file|
  {
    var n := IndexOfNewline(file);
    if n == |file| then One(json.parse(file)) else One(json.parse(file[..n])) + Entries(json, file[n + 1..])
  }

  predicate Prefix(p: string, s: string) { |p| <= |s| && s[..|p|] == p }

  /**
   What is assumed of JSON, for the entries a file ever sees: an entry's text parses back and holds no
   newline, and no part of an entry's text parses, alone (unless whole) or with another entry's text after it.
   */
  ghost predicate IsFormat(known: set<Entry>, json: Format) {
    && json.parse("") == Nothing
    && (forall e :: e in known ==> json.parse(json.text(e)) == Just(e) && json.text(e) != "" && '\n' !in json.text(e))
    && (forall e, p: string :: e in known && Prefix(p, json.text(e)) && |p| < |json.text(e)| ==>
      json.parse(p) == Nothing)
    && (forall e, f, p: string :: e in known && f in known && p != "" && Prefix(p, json.text(e)) ==>
         json.parse(p + json.text(f)) == Nothing)
  }

  predicate Terminated(file: string) { file == "" || file[|file| - 1] == '\n' }

  /* ----- lines ----- */

  lemma {:induction false} IndexIs(s: string, n: nat)
    requires n <= |s| && '\n' !in s[..n] && (n < |s| ==> s[n] == '\n')
    ensures IndexOfNewline(s) == n
  {
    if n > 0 {
      assert s[..n][0] == s[0] && s[1..][..n - 1] == s[..n][1..];
      IndexIs(s[1..], n - 1);
    }
  }

  lemma {:induction false} IndexFinds(s: string)
    ensures var n := IndexOfNewline(s); '\n' !in s[..n] && (n < |s| ==> s[n] == '\n')
  {
    if s != "" && s[0] != '\n' {
      IndexFinds(s[1..]);
      assert s[..IndexOfNewline(s)] == [s[0]] + s[1..][..IndexOfNewline(s) - 1];
    }
  }

  lemma LastLine(json: Format, s: string)
    requires '\n' !in s
    ensures Entries(json, s) == One(json.parse(s))
  {
    assert s[..|s|] == s;
    IndexIs(s, |s|);
  }

  lemma FirstLine(json: Format, line: string, rest: string)
    requires '\n' !in line
    ensures Entries(json, line + "\n" + rest) == One(json.parse(line)) + Entries(json, rest)
  {
    var s := line + "\n" + rest;
    assert s[..|line|] == line && s[|line|] == '\n' && s[|line| + 1..] == rest;
    IndexIs(s, |line|);
  }

  lemma {:induction false} LinesConcat(json: Format, a: string, b: string)
    ensures Entries(json, a + "\n" + b) == Entries(json, a) + Entries(json, b)
    decreases |a|
  {
    hide Entries;
    IndexFinds(a);
    var n := IndexOfNewline(a);
    if n == |a| {
      assert a[..n] == a;
      FirstLine(json, a, b);
      LastLine(json, a);
    } else {
      var line, rest := a[..n], a[n + 1..];
      assert a == line + "\n" + rest;
      assert a + "\n" + b == line + "\n" + (rest + "\n" + b);
      FirstLine(json, line, rest + "\n" + b);
      FirstLine(json, line, rest);
      LinesConcat(json, rest, b);
    }
  }

  /* ----- one append ----- */

  function Append(json: Format, file: string, e: Entry): string { file + json.text(e) + "\n" }

  /** A process died while appending `e`: only the first `n` characters arrived. */
  function Torn(json: Format, file: string, e: Entry, n: nat): string
    requires n <= |json.text(e)|
  {
    file + json.text(e)[..n]
  }

  lemma AppendToTerminated(known: set<Entry>, json: Format, file: string, e: Entry)
    requires IsFormat(known, json) && e in known && Terminated(file)
    ensures Entries(json, Append(json, file, e)) == Entries(json, file) + [e] && Terminated(Append(json, file, e))
  {
    hide Entries;
    var text := json.text(e);
    assert json.parse(text) == Just(e);
    FirstLine(json, text, "");
    LastLine(json, "");
    if file == "" {
      assert Append(json, file, e) == text + "\n" + "";
    } else {
      var body := file[..|file| - 1];
      assert file == body + "\n" + "" && Append(json, file, e) == body + "\n" + (text + "\n" + "");
      LinesConcat(json, body, "");
      LinesConcat(json, body, text + "\n" + "");
    }
  }

  /** A torn append loads nothing new, or, if only the newline is missing, its entry. */
  lemma TornLoads(known: set<Entry>, json: Format, file: string, e: Entry, n: nat)
    requires IsFormat(known, json) && e in known && Terminated(file) && n <= |json.text(e)|
    ensures Entries(json, Torn(json, file, e, n)) == Entries(json, file) + if n == |json.text(e)| then [e] else []
  {
    hide Entries;
    var text := json.text(e);
    var p := text[..n];
    assert '\n' !in text && (n == |text| ==> p == text) && json.parse(text) == Just(e);
    assert n < |text| ==> Prefix(p, text) && json.parse(p) == Nothing;
    LastLine(json, p);
    LastLine(json, "");
    if file == "" {
      assert Torn(json, file, e, n) == p;
    } else {
      var body := file[..|file| - 1];
      assert file == body + "\n" + "" && Torn(json, file, e, n) == body + "\n" + p;
      LinesConcat(json, body, "");
      LinesConcat(json, body, p);
    }
  }

  lemma JoinedIsUnreadable(known: set<Entry>, json: Format, e: Entry, n: nat, f: Entry)
    requires IsFormat(known, json) && {e, f} <= known && 0 < n <= |json.text(e)|
    ensures var line := json.text(e)[..n] + json.text(f); '\n' !in line && json.parse(line) == Nothing
  {
    assert e in known && f in known;
    var p := json.text(e)[..n];
    assert Prefix(p, json.text(e)) && '\n' !in json.text(e) && '\n' !in json.text(f);
  }

  /** The next append continues the torn line, and the two entries are both lost. */
  lemma AppendToTorn(known: set<Entry>, json: Format, file: string, e: Entry, n: nat, f: Entry)
    requires IsFormat(known, json) && {e, f} <= known && Terminated(file) && 0 < n <= |json.text(e)|
    ensures Entries(json, Append(json, Torn(json, file, e, n), f)) == Entries(json, file)
  {
    hide Entries, IsFormat;
    var line := json.text(e)[..n] + json.text(f);
    JoinedIsUnreadable(known, json, e, n, f);
    FirstLine(json, line, "");
    LastLine(json, "");
    var now := Append(json, Torn(json, file, e, n), f);
    if file == "" {
      assert now == line + "\n" + "";
    } else {
      var body := file[..|file| - 1];
      assert file == body + "\n" + "" && now == body + "\n" + (line + "\n" + "");
      LinesConcat(json, body, "");
      LinesConcat(json, body, line + "\n" + "");
    }
  }

  /**
   After a crash in the middle of an append, or none (n == 0), the next append adds exactly its entry to what
   load() finds if and only if the file then ends with a newline or is empty.
   */
  lemma AppendAddsExactlyWhenTerminated(known: set<Entry>, json: Format, file: string, e: Entry, n: nat, f: Entry)
    requires IsFormat(known, json) && {e, f} <= known && Terminated(file) && n <= |json.text(e)|
    ensures var now := Torn(json, file, e, n);
            Entries(json, Append(json, now, f)) == Entries(json, now) + [f] <==> Terminated(now)
  {
    hide Entries, IsFormat;
    assert e in known && f in known;
    var now := Torn(json, file, e, n);
    if n == 0 {
      assert now == file;
      AppendToTerminated(known, json, file, f);
    } else {
      TornEnds(known, json, file, e, n);
      TornLoads(known, json, file, e, n);
      AppendToTorn(known, json, file, e, n, f);
      assert |Entries(json, now) + [f]| > |Entries(json, file)|;
    }
  }

  lemma TornEnds(known: set<Entry>, json: Format, file: string, e: Entry, n: nat)
    requires IsFormat(known, json) && e in known && 0 < n <= |json.text(e)|
    ensures !Terminated(Torn(json, file, e, n))
  {
    var now := Torn(json, file, e, n);
    assert '\n' !in json.text(e) && now[|now| - 1] == json.text(e)[n - 1];
    assert json.text(e)[n - 1] in json.text(e);
  }

  /* ----- what that costs ----- */

  /**
   A success that lacked only its newline is replayed by the next attempt and forgotten by the one after,
   which replays only what was recorded before it.
   */
  lemma SuccessIsForgotten(known: set<Entry>, json: Format, file: string, e: Entry, f: Entry)
    requires IsFormat(known, json) && {e, f} <= known && Terminated(file) && e.ResultEntry? && e.status.Completed?
    ensures var torn := Torn(json, file, e, |json.text(e)|);
            && e.key in Recordings(Entries(json, torn))
            && Recordings(Entries(json, torn))[e.key] == Recorded(e.value, e.usage)
            && Recordings(Entries(json, Append(json, torn, f))) == Recordings(Entries(json, file))
  {
    hide Entries, Load;
    assert e in known && json.text(e) != "";
    TornLoads(known, json, file, e, |json.text(e)|);
    AppendToTorn(known, json, file, e, |json.text(e)|, f);
    var before := Entries(json, file);
    ResultKept(before + [e], |before|);
  }

  /** A torn first line loses the next attempt's seed and base time as well, so the attempt after draws its own. */
  lemma MetaIsForgotten(known: set<Entry>, json: Format, e: Entry, n: nat, f: Entry)
    requires IsFormat(known, json) && {e, f} <= known && e.Meta? && f.Meta? && 0 < n < |json.text(e)|
    ensures var file := Torn(json, "", e, n);
            Load(Entries(json, file)).meta == Nothing && Load(Entries(json, Append(json, file, f))).meta == Nothing
  {
    hide Entries, IsFormat;
    assert e in known;
    NothingWritten(known, json);
    TornLoads(known, json, "", e, n);
    AppendToTorn(known, json, "", e, n, f);
  }

  lemma NothingWritten(known: set<Entry>, json: Format)
    requires IsFormat(known, json)
    ensures Entries(json, "") == []
  {
    LastLine(json, "");
  }

  /* ----- whole files ----- */

  /** Attempts that find the file terminated: every append but the last is whole. */
  function Written(json: Format, es: seq<Entry>): string {
    if es == [] then "" else Append(json, Written(json, es[..|es| - 1]), es[|es| - 1])
  }

  /** A file of whole appends, and at most one torn at its end, loads every entry that was written whole. */
  lemma {:induction false} WholeAppendsLoad(known: set<Entry>, json: Format, es: seq<Entry>)
    requires IsFormat(known, json) && forall i :: 0 <= i < |es| ==> es[i] in known
    ensures Entries(json, Written(json, es)) == es && Terminated(Written(json, es))
    ensures forall e, n: nat :: e in known && n <= |json.text(e)| ==>
              Entries(json, Torn(json, Written(json, es), e, n)) == es + if n == |json.text(e)| then [e] else []
  {
    hide Entries, IsFormat, Append, Torn, Terminated;
    if es == [] {
      NothingWritten(known, json);
      EmptyIsTerminated();
    } else {
      WholeAppendsLoad(known, json, es[..|es| - 1]);
      AppendToTerminated(known, json, Written(json, es[..|es| - 1]), es[|es| - 1]);
    }
    forall e, n: nat | e in known && n <= |json.text(e)|
      ensures Entries(json, Torn(json, Written(json, es), e, n)) == es + if n == |json.text(e)| then [e] else []
    {
      TornLoads(known, json, Written(json, es), e, n);
    }
  }

  lemma EmptyIsTerminated()
    ensures Terminated("")
  {}

  /* ----- the file itself ----- */

  class JournalFile {
    const json: Format
    var file: string

    constructor (json: Format, file: string)
      ensures this.json == json && this.file == file
    {
      this.json, this.file := json, file;
    }

    /** Journal.append. */
    method AppendEntry(e: Entry, ghost known: set<Entry>)
      modifies this`file
      ensures file == Append(json, old(file), e)
      ensures IsFormat(known, json) && e in known && Terminated(old(file)) ==>
                Entries(json, file) == Entries(json, old(file)) + [e] && Terminated(file)
    {
      hide Entries, IsFormat, Terminated;
      ghost var before := file;
      file := file + json.text(e) + "\n";
      if IsFormat(known, json) && e in known && Terminated(before) { AppendToTerminated(known, json, before, e); }
    }

    /** Journal.load: the last meta, the last result and the last index of each key, over the lines that parse. */
    method Read() returns (out: Loaded)
      ensures out == Load(Entries(json, file))
    {
      hide Load, Entries, IndexOfNewline;
      LoadsNothing();
      out := NOTHING_LOADED;
      ghost var done: seq<Entry> := [];
      var rest, more := file, true;
      while more
        invariant out == Load(done)
        invariant done + (if more then Entries(json, rest) else []) == Entries(json, file)
        decreases more, |rest|
      {
        var n := IndexOfNewline(rest);
        CutsOneLine(json, rest, done);
        var entry := json.parse(rest[..n]);
        if entry.Just? {
          var e := entry.value;
          LoadsOneMore(done, e);
          done := done + [e];
          if e.Meta? { out := out.(meta := Just(e)); }
          if e.ResultEntry? { out := out.(results := out.results[e.key := e]); }
          if !e.Meta? { out := out.(indexByKey := out.indexByKey[e.key := e.index]); }
        }
        more := n < |rest|;
        if more { rest := rest[n + 1..]; }
      }
      assert done + [] == done;
    }
  }

  lemma CutsOneLine(json: Format, rest: string, done: seq<Entry>)
    ensures var n := IndexOfNewline(rest);
            done + Entries(json, rest) ==
              done + One(json.parse(rest[..n])) + if n < |rest| then Entries(json, rest[n + 1..]) else []
    ensures done + One(Nothing) == done
  {
    assert rest[..|rest|] == rest;
  }

  lemma LoadsNothing()
    ensures Load([]) == NOTHING_LOADED
  {}

  lemma LoadsOneMore(done: seq<Entry>, e: Entry)
    ensures Load(done + [e]) == Absorb(Load(done), e)
  {
    assert (done + [e])[..|done|] == done;
  }

  /* ----- there are such formats ----- */

  function Marks(n: nat): string { if n == 0 then "" else "x" + Marks(n - 1) }

  function Bracketed(n: nat): string { "(" + Marks(n) + ")" }

  lemma {:induction false} MarksAre(n: nat)
    ensures |Marks(n)| == n && forall i :: 0 <= i < n ==> Marks(n)[i] == 'x'
  {
    if n > 0 { MarksAre(n - 1); }
  }

  lemma Brackets(n: nat)
    ensures var s := Bracketed(n);
            |s| == n + 2 && forall i :: 0 <= i < |s| ==>
              (s[i] == '(' <==> i == 0) && (s[i] == ')' <==> i == n + 1) && s[i] != '\n'
  {
    MarksAre(n);
  }

  function Place(order: seq<Entry>, e: Entry): (n: nat)
    ensures e in order ==> n < |order| && order[n] == e
  {
    if order == [] || order[0] == e then 0 else 1 + Place(order[1..], e)
  }

  ghost function Numbered(order: seq<Entry>): Format {
    Format(s => if exists e :: e in order && Bracketed(Place(order, e)) == s
                then Just(var e :| e in order && Bracketed(Place(order, e)) == s; e) else Nothing,
           e => Bracketed(Place(order, e)))
  }

  lemma {:induction false} Listing(known: set<Entry>) returns (order: seq<Entry>)
    ensures forall e :: e in known <==> e in order
  {
    if known == {} {
      order := [];
    } else {
      var e :| e in known;
      var rest := Listing(known - {e});
      order := rest + [e];
    }
  }

  /** Whatever entries a file sees, some format meets what is assumed. */
  lemma FormatExists(known: set<Entry>) returns (json: Format)
    ensures IsFormat(known, json)
  {
    var order := Listing(known);
    json := Numbered(order);
    forall n: nat ensures |Bracketed(n)| == n + 2 { Brackets(n); }
    forall e, p: string | e in known && Prefix(p, json.text(e)) && |p| < |json.text(e)|
      ensures json.parse(p) == Nothing {
      NoPartIsBracketed(Place(order, e), p);
    }
    forall e, f, p: string | e in known && f in known && p != "" && Prefix(p, json.text(e))
      ensures json.parse(p + json.text(f)) == Nothing {
      NoTwoAreBracketed(Place(order, e), Place(order, f), p);
    }
    forall e | e in known ensures json.parse(json.text(e)) == Just(e) && '\n' !in json.text(e) {
      Brackets(Place(order, e));
    }
    hide Bracketed;
  }

  /**
   So after a run's first line a success can be loaded once and then be gone, whatever it is and whatever comes
   next.
   */
  lemma SuccessCanBeForgotten(first: Entry, e: Entry, f: Entry) returns (json: Format, file: string)
    requires first.Meta? && e.ResultEntry? && e.status.Completed?
    ensures Load(Entries(json, file)).meta == Just(first) && e.key in Recordings(Entries(json, file))
    ensures var later := Entries(json, Append(json, file, f)); later == [first] && Recordings(later) == map[]
  {
    var known := {first, e, f};
    json := FormatExists(known);
    NothingWritten(known, json);
    AppendToTerminated(known, json, "", first);
    assert [] + [first] == [first];
    var start := Append(json, "", first);
    file := Torn(json, start, e, |json.text(e)|);
    SuccessIsForgotten(known, json, start, e, f);
    TornLoads(known, json, start, e, |json.text(e)|);
    AppendToTorn(known, json, start, e, |json.text(e)|, f);
    OneMeta(first, e);
  }

  lemma OneMeta(first: Entry, e: Entry)
    requires first.Meta? && e.ResultEntry?
    ensures Load([first] + [e]).meta == Just(first) && Recordings([first]) == map[]
  {
    assert ([first] + [e])[..1] == [first] && [first][..0] == [];
    assert Load([first]) == NOTHING_LOADED.(meta := Just(first));
  }

  lemma NoPartIsBracketed(n: nat, p: string)
    requires Prefix(p, Bracketed(n)) && |p| < n + 2
    ensures forall m: nat :: Bracketed(m) != p
  {
    Brackets(n);
    assert p != "" ==> p[|p| - 1] == Bracketed(n)[|p| - 1] != ')';
    forall m: nat ensures Bracketed(m) != p {
      Brackets(m);
      assert Bracketed(m)[m + 1] == ')';
    }
  }

  lemma NoTwoAreBracketed(n: nat, k: nat, p: string)
    requires Prefix(p, Bracketed(n)) && p != ""
    ensures forall m: nat :: Bracketed(m) != p + Bracketed(k)
  {
    forall m: nat ensures Bracketed(m) != p + Bracketed(k) {
      Brackets(m);
      assert (p + Bracketed(k))[|p|] == '(';
    }
  }
}
