/**
 The transcript writer coalesces text deltas on a timer (src/runtime/transcript.ts); the viewer turns
 transcripts into a feed (viewer/src/lib/to-thread-events.ts). The coalescing cannot be seen in the feed.
 */
module Transcript {
  import opened Options
  import Keys

  datatype State = Running | Done | Failed

  /** `input` is the serialized tool input. */
  datatype Chunk =
    | Meta(meta: string)
    | Text(text: string)
    | Reasoning(text: string)
    | Tool(id: Option<string>, name: string, input: Option<string>)
    | ToolResult(id: Option<string>, called: Option<string>, output: Option<string>, isError: bool)
    | Status(state: State, error: Option<string>)

  const TEXT_FLUSH_BYTES: nat := 2048

  const TOOL_OUTPUT_MAX: nat := 32768

  const TOOL_INPUT_MAX: nat := 8192

  /* ----- the feed ----- */

  datatype ToolKind = Command | File | Other

  datatype ToolStatus = Pending | Completed | Errored

  /** Command text, file changes and arguments are functions of a tool's name and input, so an item keeps those. */
  datatype Item =
    | AgentMessage(id: string, text: string)
    | Thought(id: string, text: string)
    | ToolItem(id: string, kind: ToolKind, name: string, input: Option<string>, status: ToolStatus,
               output: Option<string>, exitCode: Option<int>, error: Option<string>)

  const COMMAND_TOOLS: set<string> := {"command", "commandExecution", "Bash", "bash", "shell", "exec"}

  const FILE_TOOLS: set<string> := {
    "fileChange", "filechange", "Edit", "edit", "Write", "write", "MultiEdit", "multiedit",
    "ApplyPatch", "apply_patch", "applypatch", "str_replace_editor"}

  function KindOf(name: string): ToolKind {
    if name in COMMAND_TOOLS then Command else if name in FILE_TOOLS then File else Other
  }

  /** The fold's state. Tools awaiting a result are positions in `items` (AlwaysPlaced). */
  datatype Feed = Feed(
    meta: Option<string>, items: seq<Item>, state: Option<State>, error: Option<string>,
    toolById: map<string, nat>, lastTool: Option<nat>, textBuf: string, reasonBuf: string, autoId: nat)

  const NO_FEED: Feed := Feed(Nothing, [], Nothing, Nothing, map[], Nothing, "", "", 0)

  function FlushText(f: Feed): Feed {
    if f.textBuf == "" then f
    else f.(items := f.items + [AgentMessage("msg-" + Keys.Decimal(f.autoId), f.textBuf)], textBuf := "",
      autoId := f.autoId + 1)
  }

  function FlushReason(f: Feed): Feed {
    if f.reasonBuf == "" then f
    else f.(items := f.items + [Thought("reason-" + Keys.Decimal(f.autoId), f.reasonBuf)], reasonBuf := "",
      autoId := f.autoId + 1)
  }

  /** An id that is absent is generated; an empty one is kept but pairs with nothing. */
  function IdFor(f: Feed, id: Option<string>): (string, Feed) {
    if id.Just? then (id.value, f) else ("tool-" + Keys.Decimal(f.autoId), f.(autoId := f.autoId + 1))
  }

  predicate Pairs(id: Option<string>) { id.Just? && id.value != "" }

  function ApplyResult(item: Item, output: Option<string>, isError: bool): Item {
    if !item.ToolItem? then item
    else
      var done := item.(status := if isError then Errored else Completed);
      match item.kind
      case Command =>
        done.(output := if output.Just? && output.value != "" then output else item.output,
          exitCode := Just(if isError then 1 else 0))
      case File => done
      case Other =>
        done.(output := if output.Just? then output else item.output,
              error := if isError && output.Just? && output.value != "" then output else item.error)
  }

  function FeedTool(f: Feed, id: Option<string>, name: string, input: Option<string>): Feed {
    var (shown, g) := IdFor(FlushReason(FlushText(f)), id);
    g.(items := g.items + [ToolItem(shown, KindOf(name), name, input, Pending, Nothing, Nothing, Nothing)],
       toolById := if Pairs(id) then g.toolById[id.value := |g.items|] else g.toolById,
       lastTool := Just(|g.items|))
  }

  /** The tool a result belongs to: by id if it has one, else the last tool still open. */
  function Target(f: Feed, id: Option<string>): Option<nat> {
    if Pairs(id) then (if id.value in f.toolById then Just(f.toolById[id.value]) else Nothing) else f.lastTool
  }

  function FeedResult(f: Feed, id: Option<string>, called: Option<string>, output: Option<string>,
      isError: bool): Feed {
    var target := Target(f, id);
    if target.Just? && target.value < |f.items| then
      f.(items := f.items[target.value := ApplyResult(f.items[target.value], output, isError)],
         toolById := if Pairs(id) then f.toolById - {id.value} else f.toolById,
         lastTool := if target == f.lastTool then Nothing else f.lastTool)
    else
      var (shown, g) := IdFor(FlushReason(FlushText(f)), id);
      g.(items := g.items + [ToolItem(shown, Other, if called.Just? then called.value else "result", Nothing,
                                      if isError then Errored else Completed, output, Nothing, if isError then output
                                        else Nothing)])
  }

  function FeedChunk(f: Feed, c: Chunk): Feed {
    match c
    case Meta(m) => f.(meta := Just(m))
    case Text(t) => var g := FlushReason(f); g.(textBuf := g.textBuf + t)
    case Reasoning(t) => var g := FlushText(f); g.(reasonBuf := g.reasonBuf + t)
    case Tool(id, name, input) => FeedTool(f, id, name, input)
    case ToolResult(id, called, output, isError) => FeedResult(f, id, called, output, isError)
    case Status(s, e) => f.(state := Just(s), error := if e.Just? && e.value != "" then e else f.error)
  }

  function FeedAll(chunks: seq<Chunk>): Feed {
    if chunks == [] then NO_FEED else FeedChunk(FeedAll(chunks[..|chunks| - 1]), chunks[|chunks| - 1])
  }

  /** toThreadFeed: what the viewer shows. */
  datatype ThreadFeed = ThreadFeed(meta: Option<string>, items: seq<Item>, state: Option<State>, error: Option<string>)

  function Shown(f: Feed): ThreadFeed {
    var g := FlushReason(FlushText(f));
    ThreadFeed(g.meta, g.items, g.state, g.error)
  }

  method ToThreadFeed(chunks: seq<Chunk>) returns (feed: ThreadFeed)
    ensures feed == Shown(FeedAll(chunks))
  {
    var f := NO_FEED;
    var i := 0;
    while i < |chunks|
      invariant i <= |chunks| && f == FeedAll(chunks[..i])
    {
      assert chunks[..i + 1][..i] == chunks[..i];
      f := FeedChunk(f, chunks[i]);
      i := i + 1;
    }
    assert chunks[..i] == chunks;
    return Shown(f);
  }

  /** Positions the fold remembers are of tools it has listed, so every result finds its tool or is an orphan. */
  ghost predicate Placed(f: Feed) {
    && (f.lastTool.Just? ==> f.lastTool.value < |f.items| && f.items[f.lastTool.value].ToolItem?)
    && forall k :: k in f.toolById ==> f.toolById[k] < |f.items| && f.items[f.toolById[k]].ToolItem?
  }

  lemma ItemsGrow(f: Feed, g: Feed)
    requires Placed(f) && f.items <= g.items && f.toolById == g.toolById && f.lastTool == g.lastTool
    ensures Placed(g)
  {}

  lemma FlushGrows(f: Feed)
    ensures var g := FlushReason(FlushText(f));
              f.items <= g.items && f.toolById == g.toolById && f.lastTool == g.lastTool
    ensures f.items <= FlushText(f).items && f.items <= FlushReason(f).items
  {}

  lemma ToolPlaced(f: Feed, id: Option<string>, name: string, input: Option<string>)
    requires Placed(f)
    ensures Placed(FeedTool(f, id, name, input))
  {
    hide FlushReason, FlushText, KindOf;
    FlushGrows(f);
    ItemsGrow(f, IdFor(FlushReason(FlushText(f)), id).1);
  }

  lemma ResultPlaced(f: Feed, id: Option<string>, called: Option<string>, output: Option<string>, isError: bool)
    requires Placed(f)
    ensures Placed(FeedResult(f, id, called, output, isError))
  {
    hide FlushReason, FlushText, ApplyResult;
    FlushGrows(f);
    var target := Target(f, id);
    if target.Just? {
      ResultKeepsTools(f.items[target.value], output, isError);
    } else {
      ItemsGrow(f, FeedResult(f, id, called, output, isError));
    }
  }

  lemma ResultKeepsTools(item: Item, output: Option<string>, isError: bool)
    ensures item.ToolItem? ==> ApplyResult(item, output, isError).ToolItem?
  {}

  lemma {:induction false} AlwaysPlaced(chunks: seq<Chunk>)
    ensures Placed(FeedAll(chunks))
  {
    hide Placed, FlushText, FlushReason, FeedTool, FeedResult;
    if chunks == [] {
      NothingPlaced();
    } else {
      var f, c := FeedAll(chunks[..|chunks| - 1]), chunks[|chunks| - 1];
      AlwaysPlaced(chunks[..|chunks| - 1]);
      FlushKeeps(f);
      match c
      case Tool(id, name, input) => ToolPlaced(f, id, name, input);
      case ToolResult(id, called, output, isError) => ResultPlaced(f, id, called, output, isError);
      case Text(_) => ItemsGrow(f, FeedChunk(f, c));
      case Reasoning(_) => ItemsGrow(f, FeedChunk(f, c));
      case Meta(_) => ItemsGrow(f, FeedChunk(f, c));
      case Status(_, _) => ItemsGrow(f, FeedChunk(f, c));
    }
  }

  lemma FlushKeeps(f: Feed)
    ensures var g := FlushReason(f); f.items <= g.items && f.toolById == g.toolById && f.lastTool == g.lastTool
    ensures var g := FlushText(f); f.items <= g.items && f.toolById == g.toolById && f.lastTool == g.lastTool
  {}

  lemma NothingPlaced()
    ensures Placed(NO_FEED)
  {}

  /**
   A result that names an unseen or already answered id never touches another tool's item: it is listed as
   an item of its own, and every item before it stays as it was.
   */
  lemma OrphansTouchNoTool(chunks: seq<Chunk>, id: string, called: Option<string>, output: Option<string>,
      isError: bool)
    requires id != "" && id !in FeedAll(chunks).toolById
    ensures var f, g := FeedAll(chunks), FeedResult(FeedAll(chunks), Just(id), called, output, isError);
            && Shown(f).items <= g.items && f.items < g.items && |g.items| == |Shown(f).items| + 1
            && g.toolById == f.toolById && g.lastTool == f.lastTool
            && g.items[|g.items| - 1] ==
               ToolItem(id, Other, if called.Just? then called.value else "result", Nothing,
                        if isError then Errored else Completed, output, Nothing, if isError then output else Nothing)
  {
    hide FlushReason, FlushText;
    FlushGrows(FeedAll(chunks));
  }

  /** A result is applied once: its id is forgotten, so a second result with that id is an orphan. */
  lemma ResultsPairOnce(chunks: seq<Chunk>, id: string, called: Option<string>, output: Option<string>, isError: bool)
    requires id != "" && id in FeedAll(chunks).toolById
    ensures var f, g := FeedAll(chunks), FeedResult(FeedAll(chunks), Just(id), called, output, isError);
            var at := f.toolById[id];
            && at < |f.items| && g.items == f.items[at := ApplyResult(f.items[at], output, isError)]
            && g.items[at].ToolItem? && g.items[at].status == (if isError then Errored else Completed)
            && id !in g.toolById && g.toolById.Keys == f.toolById.Keys - {id}
            && g.lastTool == (if f.lastTool == Just(at) then Nothing else f.lastTool)
  {
    hide FeedAll;
    AlwaysPlaced(chunks);
  }

  /**
   A result without an id, or with an empty one, settles the last tool still open, whatever that one's id, and only the
   first such result does.
   */
  lemma UnnamedResultsPair(chunks: seq<Chunk>, id: Option<string>, name: string, input: Option<string>,
      unnamed: Option<string>, output: Option<string>, isError: bool)
    requires unnamed.Nothing? || unnamed.value == ""
    ensures var f := FeedAll(chunks + [Tool(id, name, input)]);
            var g := FeedResult(f, unnamed, Nothing, output, isError);
            var at := |f.items| - 1;
            && f.items != [] && f.items[at].ToolItem? && f.items[at].name == name && f.items[at].status.Pending?
            && g.items == f.items[at := ApplyResult(f.items[at], output, isError)] && g.lastTool.Nothing?
            && g.items[at].ToolItem? && g.items[at].status == (if isError then Errored else Completed)
            && g.items < FeedResult(g, unnamed, Nothing, output, isError).items
  {
    hide FlushReason, FlushText, FeedAll;
    FeedSnoc(chunks, Tool(id, name, input));
    var f := FeedAll(chunks + [Tool(id, name, input)]);
    FlushGrows(FeedAll(chunks));
    FlushGrows(FeedResult(f, unnamed, Nothing, output, isError));
  }

  /** What a tool's item shows once its result came: a command's exit code, anything else's error, and its output. */
  function Answered(id: string, name: string, input: Option<string>, output: Option<string>, isError: bool): Item {
    var status := if isError then Errored else Completed;
    var said := if output.Just? && output.value == "" then Nothing else output;
    if name in COMMAND_TOOLS then
      ToolItem(id, Command, name, input, status, said, Just(if isError then 1 else 0), Nothing)
    else if name in FILE_TOOLS then ToolItem(id, File, name, input, status, Nothing, Nothing, Nothing)
    else ToolItem(id, Other, name, input, status, output, Nothing, if isError then said else Nothing)
  }

  /** A tool call is listed as pending, after the prose before it; its result turns that item into its answer. */
  lemma ToolIsAnswered(chunks: seq<Chunk>, id: string, name: string, input: Option<string>, called: Option<string>,
      output: Option<string>, isError: bool)
    requires id != ""
    ensures var f := FeedAll(chunks);
            var g := FeedAll(chunks + [Tool(Just(id), name, input)]);
            var h := FeedAll(chunks + [Tool(Just(id), name, input)] + [ToolResult(Just(id), called, output, isError)]);
            var kind := if name in COMMAND_TOOLS then Command else if name in FILE_TOOLS then File else Other;
            && g.items == Shown(f).items + [ToolItem(id, kind, name, input, Pending, Nothing, Nothing, Nothing)]
            && h.items == Shown(f).items + [Answered(id, name, input, output, isError)]
            && h.lastTool.Nothing? && id !in h.toolById
  {
    hide FlushReason, FlushText, FeedAll;
    FeedSnoc(chunks, Tool(Just(id), name, input));
    FeedSnoc(chunks + [Tool(Just(id), name, input)], ToolResult(Just(id), called, output, isError));
  }

  /** A named tool that an unnamed result settled can still get its own; then what only the first one said is kept. */
  lemma AnsweredAgain(chunks: seq<Chunk>, id: string, name: string, input: Option<string>, called: Option<string>,
      first: Option<string>, firstFails: bool, second: Option<string>, fails: bool)
    requires id != ""
    ensures var called1 := FeedAll(chunks + [Tool(Just(id), name, input)]);
            var g := FeedResult(called1, Nothing, called, first, firstFails);
            var h := FeedResult(g, Just(id), called, second, fails);
            var once := Answered(id, name, input, first, firstFails);
            var again := Answered(id, name, input, second, fails);
            && h.items == Shown(FeedAll(chunks)).items + [again.(
                 output := if again.output.Just? then again.output else once.output,
                 error := if again.error.Just? then again.error else once.error)]
  {
    hide FlushReason, FlushText, FeedAll, ApplyResult, Answered, KindOf;
    FeedSnoc(chunks, Tool(Just(id), name, input));
    AppliedTwice(id, name, input, first, firstFails, second, fails);
  }

  lemma AppliedTwice(id: string, name: string, input: Option<string>, first: Option<string>, firstFails: bool,
      second: Option<string>, fails: bool)
    ensures var listed := ToolItem(id, KindOf(name), name, input, Pending, Nothing, Nothing, Nothing);
            var once := Answered(id, name, input, first, firstFails);
            var again := Answered(id, name, input, second, fails);
            && ApplyResult(listed, first, firstFails) == once
            && ApplyResult(once, second, fails) == again.(
                 output := if again.output.Just? then again.output else once.output,
                 error := if again.error.Just? then again.error else once.error)
  {}

  /** An unnamed pair of call and result likewise, under an id of the feed's own. */
  lemma UnnamedToolIsAnswered(chunks: seq<Chunk>, name: string, input: Option<string>, called: Option<string>,
      output: Option<string>, isError: bool)
    ensures var before := Shown(FeedAll(chunks)).items;
            var after := FeedAll(chunks + [Tool(Nothing, name, input)]
              + [ToolResult(Nothing, called, output, isError)]);
            |after.items| == |before| + 1 && before <= after.items
            && after.items[|before|] == Answered(after.items[|before|].id, name, input, output, isError)
  {
    hide FlushReason, FlushText, FeedAll;
    FeedSnoc(chunks, Tool(Nothing, name, input));
    FeedSnoc(chunks + [Tool(Nothing, name, input)], ToolResult(Nothing, called, output, isError));
  }

  /* ----- the feed's own ids, and its header ----- */

  /** Prose and reasoning are numbered before `f.autoId`, no two alike. */
  ghost predicate Numbered(f: Feed) {
    && (forall i :: 0 <= i < |f.items| && f.items[i].AgentMessage? ==>
         exists n: nat :: n < f.autoId && f.items[i].id == "msg-" + Keys.Decimal(n))
    && (forall i :: 0 <= i < |f.items| && f.items[i].Thought? ==>
         exists n: nat :: n < f.autoId && f.items[i].id == "reason-" + Keys.Decimal(n))
    && OwnIdsDiffer(f.items)
  }

  /** No two items of prose, or of reasoning, have one id. */
  ghost predicate OwnIdsDiffer(items: seq<Item>) {
    forall i, j :: 0 <= i < j < |items| && !items[i].ToolItem? && !items[j].ToolItem? ==> items[i].id != items[j].id
  }

  lemma IdsDiffer(m: nat, n: nat)
    ensures "msg-" + Keys.Decimal(m) == "msg-" + Keys.Decimal(n) ==> m == n
    ensures "reason-" + Keys.Decimal(m) == "reason-" + Keys.Decimal(n) ==> m == n
    ensures "msg-" + Keys.Decimal(m) != "reason-" + Keys.Decimal(n)
  {
    Keys.DecimalRoundTrip(m);
    Keys.DecimalRoundTrip(n);
    assert ("msg-" + Keys.Decimal(m))[4..] == Keys.Decimal(m) && ("msg-" + Keys.Decimal(n))[4..] == Keys.Decimal(n);
    assert ("reason-" + Keys.Decimal(m))[7..] == Keys.Decimal(m);
    assert ("reason-" + Keys.Decimal(n))[7..] == Keys.Decimal(n);
    assert ("msg-" + Keys.Decimal(m))[0] == 'm' && ("reason-" + Keys.Decimal(n))[0] == 'r';
  }

  lemma OwnItemNumbered(f: Feed, item: Item)
    requires Numbered(f) && !item.ToolItem?
    requires item.id == (if item.AgentMessage? then "msg-" else "reason-") + Keys.Decimal(f.autoId)
    ensures forall g: Feed :: g.items == f.items + [item] && g.autoId == f.autoId + 1 ==> Numbered(g)
  {
    forall m: nat ensures (m < f.autoId ==>
      "msg-" + Keys.Decimal(m) != item.id && "reason-" + Keys.Decimal(m) != item.id) {
      IdsDiffer(m, f.autoId);
      IdsDiffer(f.autoId, m);
    }
    forall g: Feed | g.items == f.items + [item] && g.autoId == f.autoId + 1 ensures Numbered(g) {
      forall i | 0 <= i < |g.items| && g.items[i].AgentMessage?
        ensures exists n: nat :: n < g.autoId && g.items[i].id == "msg-" + Keys.Decimal(n) {
        if i < |f.items| {
          var n: nat :| n < f.autoId && f.items[i].id == "msg-" + Keys.Decimal(n);
        }
      }
      forall i | 0 <= i < |g.items| && g.items[i].Thought?
        ensures exists n: nat :: n < g.autoId && g.items[i].id == "reason-" + Keys.Decimal(n) {
        if i < |f.items| {
          var n: nat :| n < f.autoId && f.items[i].id == "reason-" + Keys.Decimal(n);
        }
      }
    }
  }

  lemma FlushNumbers(f: Feed)
    requires Numbered(f)
    ensures Numbered(FlushText(f)) && Numbered(FlushReason(f))
  {
    hide Numbered;
    OwnItemNumbered(f, AgentMessage("msg-" + Keys.Decimal(f.autoId), f.textBuf));
    OwnItemNumbered(f, Thought("reason-" + Keys.Decimal(f.autoId), f.reasonBuf));
  }

  /** Tools come and change without touching the numbering. */
  lemma ToolsNumbered(f: Feed, g: Feed)
    requires Numbered(f) && g.autoId >= f.autoId && |g.items| >= |f.items|
    requires forall i :: 0 <= i < |g.items| ==>
               if i < |f.items| then g.items[i] == f.items[i] || (g.items[i].ToolItem? && f.items[i].ToolItem?)
               else g.items[i].ToolItem?
    ensures Numbered(g)
  {
    forall i | 0 <= i < |g.items| && g.items[i].AgentMessage?
      ensures exists n: nat :: n < g.autoId && g.items[i].id == "msg-" + Keys.Decimal(n) {
      var n: nat :| n < f.autoId && f.items[i].id == "msg-" + Keys.Decimal(n);
    }
    forall i | 0 <= i < |g.items| && g.items[i].Thought?
      ensures exists n: nat :: n < g.autoId && g.items[i].id == "reason-" + Keys.Decimal(n) {
      var n: nat :| n < f.autoId && f.items[i].id == "reason-" + Keys.Decimal(n);
    }
  }

  lemma {:induction false} AlwaysNumbered(chunks: seq<Chunk>)
    ensures Numbered(FeedAll(chunks))
  {
    hide Numbered, FlushText, FlushReason, ApplyResult, Placed;
    if chunks == [] {
      NothingNumbered();
    } else {
      var f, c := FeedAll(chunks[..|chunks| - 1]), chunks[|chunks| - 1];
      AlwaysNumbered(chunks[..|chunks| - 1]);
      AlwaysPlaced(chunks[..|chunks| - 1]);
      FlushNumbers(f);
      FlushNumbers(FlushText(f));
      match c
      case Tool(id, name, input) => ToolsNumbered(FlushReason(FlushText(f)), FeedTool(f, id, name, input));
      case ToolResult(id, called, output, isError) => ResultNumbered(f, id, called, output, isError);
      case Text(_) => ToolsNumbered(FlushReason(f), FeedChunk(f, c));
      case Reasoning(_) => ToolsNumbered(FlushText(f), FeedChunk(f, c));
      case Meta(_) => ToolsNumbered(f, FeedChunk(f, c));
      case Status(_, _) => ToolsNumbered(f, FeedChunk(f, c));
    }
  }

  lemma ResultNumbered(f: Feed, id: Option<string>, called: Option<string>, output: Option<string>, isError: bool)
    requires Numbered(f) && Placed(f) && Numbered(FlushReason(FlushText(f)))
    ensures Numbered(FeedResult(f, id, called, output, isError))
  {
    hide Numbered, FlushText, FlushReason, ApplyResult;
    var target, g := Target(f, id), FeedResult(f, id, called, output, isError);
    if target.Just? {
      ResultKeepsTools(f.items[target.value], output, isError);
      ToolsNumbered(f, g);
    } else {
      ToolsNumbered(FlushReason(FlushText(f)), g);
    }
  }

  lemma NothingNumbered()
    ensures Numbered(NO_FEED)
  {}

  /** No two items of prose or reasoning that are shown have one id. */
  lemma ShownIdsDiffer(chunks: seq<Chunk>)
    ensures OwnIdsDiffer(Shown(FeedAll(chunks)).items)
  {
    AlwaysNumbered(chunks);
    hide FlushText, FlushReason, FeedAll;
    FlushNumbers(FeedAll(chunks));
    FlushNumbers(FlushText(FeedAll(chunks)));
  }

  /** The feed numbers what it names itself from 0 on, whatever its kind. */
  lemma NumberedInOrder(name: string)
    ensures var items := Shown(FeedAll([Text("a")] + [Reasoning("b")] + [Tool(Nothing, name, Nothing)]
              + [Text("c")])).items;
            |items| == 4 && items[0] == AgentMessage("msg-0", "a") && items[1] == Thought("reason-1", "b")
            && items[2].ToolItem? && items[2].id == "tool-2" && items[3] == AgentMessage("msg-3", "c")
  {
    FeedSnoc([Text("a")] + [Reasoning("b")] + [Tool(Nothing, name, Nothing)], Text("c"));
    FeedSnoc([Text("a")] + [Reasoning("b")], Tool(Nothing, name, Nothing));
    FeedSnoc([Text("a")], Reasoning("b"));
    assert [] + [Text("a")] == [Text("a")];
    FeedSnoc([], Text("a"));
    assert Keys.Decimal(0) == "0" && Keys.Decimal(1) == "1" && Keys.Decimal(2) == "2" && Keys.Decimal(3) == "3";
  }

  /** The last chunk of meta, the last status, and the last error that any status gave. */
  function LastMeta(chunks: seq<Chunk>): Option<string> {
    if chunks == [] then Nothing
    else if chunks[|chunks| - 1].Meta? then Just(chunks[|chunks| - 1].meta) else LastMeta(chunks[..|chunks| - 1])
  }

  function LastState(chunks: seq<Chunk>): Option<State> {
    if chunks == [] then Nothing
    else if chunks[|chunks| - 1].Status? then Just(chunks[|chunks| - 1].state) else LastState(chunks[..|chunks| - 1])
  }

  function LastError(chunks: seq<Chunk>): Option<string> {
    if chunks == [] then Nothing
    else
      var c := chunks[|chunks| - 1];
      if c.Status? && c.error.Just? && c.error.value != "" then c.error else LastError(chunks[..|chunks| - 1])
  }

  predicate SameHeader(f: Feed, g: Feed) { f.meta == g.meta && f.state == g.state && f.error == g.error }

  lemma FlushKeepsHeader(f: Feed)
    ensures SameHeader(FlushText(f), f) && SameHeader(FlushReason(f), f)
  {}

  lemma ToolKeepsHeader(f: Feed, id: Option<string>, name: string, input: Option<string>)
    ensures SameHeader(FeedTool(f, id, name, input), f)
  {
    hide FlushText, FlushReason, KindOf;
    FlushKeepsHeader(f);
    FlushKeepsHeader(FlushText(f));
  }

  lemma ResultKeepsHeader(f: Feed, id: Option<string>, called: Option<string>, output: Option<string>, isError: bool)
    ensures SameHeader(FeedResult(f, id, called, output, isError), f)
  {
    hide FlushText, FlushReason, ApplyResult, Target;
    FlushKeepsHeader(f);
    FlushKeepsHeader(FlushText(f));
  }

  /** The header shown is that of the last meta, the last status, and the last status that gave an error. */
  lemma {:induction false} HeaderIsLast(chunks: seq<Chunk>)
    ensures var f := FeedAll(chunks);
            f.meta == LastMeta(chunks) && f.state == LastState(chunks) && f.error == LastError(chunks)
    ensures var shown := Shown(FeedAll(chunks));
            shown.meta == LastMeta(chunks) && shown.state == LastState(chunks) && shown.error == LastError(chunks)
  {
    hide FlushText, FlushReason, FeedTool, FeedResult;
    var f := FeedAll(chunks);
    if chunks != [] {
      var g, c := FeedAll(chunks[..|chunks| - 1]), chunks[|chunks| - 1];
      HeaderIsLast(chunks[..|chunks| - 1]);
      FlushKeepsHeader(g);
      match c
      case Tool(id, name, input) => ToolKeepsHeader(g, id, name, input);
      case ToolResult(id, called, output, isError) => ResultKeepsHeader(g, id, called, output, isError);
      case _ =>
    }
    FlushKeepsHeader(f);
    FlushKeepsHeader(FlushText(f));
  }

  /** The prose, and the reasoning, of a feed in order. */
  function Prose(items: seq<Item>): string {
    if items == [] then ""
    else Prose(items[..|items| - 1]) + if items[|items| - 1].AgentMessage? then items[|items| - 1].text else ""
  }

  function Thinking(items: seq<Item>): string {
    if items == [] then ""
    else Thinking(items[..|items| - 1]) + if items[|items| - 1].Thought? then items[|items| - 1].text else ""
  }

  function Said(chunks: seq<Chunk>): string {
    if chunks == [] then ""
      else Said(chunks[..|chunks| - 1]) + if chunks[|chunks| - 1].Text? then chunks[|chunks| - 1].text else ""
  }

  function Reasoned(chunks: seq<Chunk>): string {
    if chunks == [] then ""
      else Reasoned(chunks[..|chunks| - 1]) + if chunks[|chunks| - 1].Reasoning? then chunks[|chunks| - 1].text else ""
  }

  /** What a feed under construction has of each, buffers included. */
  predicate Holds(f: Feed, prose: string, thinking: string) {
    Prose(f.items) + f.textBuf == prose && Thinking(f.items) + f.reasonBuf == thinking &&
      (f.textBuf == "" || f.reasonBuf == "")
  }

  lemma ItemsSnoc(items: seq<Item>, i: Item)
    ensures Prose(items + [i]) == Prose(items) + if i.AgentMessage? then i.text else ""
    ensures Thinking(items + [i]) == Thinking(items) + if i.Thought? then i.text else ""
  {
    assert (items + [i])[..|items|] == items;
  }

  lemma {:induction false} ItemsSet(items: seq<Item>, at: nat, i: Item)
    requires at < |items| && items[at].ToolItem? && i.ToolItem?
    ensures Prose(items[at := i]) == Prose(items) && Thinking(items[at := i]) == Thinking(items)
  {
    var n := |items| - 1;
    if at < n {
      ItemsSet(items[..n], at, i);
      assert items[at := i][..n] == items[..n][at := i];
    } else {
      assert items[at := i][..n] == items[..n];
    }
  }

  lemma FlushHolds(f: Feed, prose: string, thinking: string)
    requires Holds(f, prose, thinking)
    ensures Holds(FlushText(f), prose, thinking) && FlushText(f).textBuf == ""
    ensures Holds(FlushReason(f), prose, thinking) && FlushReason(f).reasonBuf == ""
  {
    ItemsSnoc(f.items, AgentMessage("msg-" + Keys.Decimal(f.autoId), f.textBuf));
    ItemsSnoc(f.items, Thought("reason-" + Keys.Decimal(f.autoId), f.reasonBuf));
    assert Prose(f.items) + "" == Prose(f.items) && Thinking(f.items) + "" == Thinking(f.items);
  }

  lemma ToolHolds(f: Feed, i: Item, prose: string, thinking: string)
    requires Holds(f, prose, thinking) && i.ToolItem?
    ensures forall g: Feed :: g.items == f.items + [i] && g.textBuf == f.textBuf && g.reasonBuf == f.reasonBuf ==>
              Holds(g, prose, thinking)
  {
    ItemsSnoc(f.items, i);
    assert Prose(f.items) + "" == Prose(f.items) && Thinking(f.items) + "" == Thinking(f.items);
  }

  lemma ResultHolds(f: Feed, id: Option<string>, called: Option<string>, output: Option<string>, isError: bool,
      prose: string, thinking: string)
    requires Holds(f, prose, thinking) && Placed(f)
    ensures Holds(FeedResult(f, id, called, output, isError), prose, thinking)
  {
    hide FlushText, FlushReason, ApplyResult, Prose, Thinking;
    var target := Target(f, id);
    if target.Just? {
      ResultKeepsTools(f.items[target.value], output, isError);
      ItemsSet(f.items, target.value, ApplyResult(f.items[target.value], output, isError));
    } else {
      FlushHolds(f, prose, thinking);
      FlushHolds(FlushText(f), prose, thinking);
      var g := FlushReason(FlushText(f));
      var h := FeedResult(f, id, called, output, isError);
      ToolHolds(g, h.items[|g.items|], prose, thinking);
    }
  }

  /** Every character of prose and of reasoning is shown once, in order. */
  lemma {:induction false} NoTextIsLost(chunks: seq<Chunk>)
    ensures Holds(FeedAll(chunks), Said(chunks), Reasoned(chunks))
    ensures Prose(Shown(FeedAll(chunks)).items) == Said(chunks) &&
              Thinking(Shown(FeedAll(chunks)).items) == Reasoned(chunks)
  {
    hide FlushText, FlushReason, FeedResult, Prose, Thinking;
    if chunks == [] {
      NothingSaid();
    } else {
      var before, c := chunks[..|chunks| - 1], chunks[|chunks| - 1];
      NoTextIsLost(before);
      ChunkHolds(before, c);
    }
    var f := FeedAll(chunks);
    FlushHolds(f, Said(chunks), Reasoned(chunks));
    FlushHolds(FlushText(f), Said(chunks), Reasoned(chunks));
    FlushEmpties(f);
  }

  lemma NothingSaid()
    ensures Holds(NO_FEED, "", "")
  {}

  lemma FlushEmpties(f: Feed)
    ensures var g := FlushReason(FlushText(f)); g.textBuf == "" && g.reasonBuf == ""
  {}

  lemma ChunkHolds(before: seq<Chunk>, c: Chunk)
    requires Holds(FeedAll(before), Said(before), Reasoned(before))
    ensures Holds(FeedChunk(FeedAll(before), c), Said(before) + (if c.Text? then c.text else ""),
              Reasoned(before) + (if c.Reasoning? then c.text else ""))
  {
    hide FlushText, FlushReason, FeedResult, FeedAll, Said, Reasoned, Prose, Thinking;
    var f, p, q := FeedAll(before), Said(before), Reasoned(before);
    FlushHolds(f, p, q);
    FlushHolds(FlushText(f), p, q);
    assert p + "" == p && q + "" == q;
    match c
    case Text(t) => var g := FlushReason(f); assert Prose(g.items) + g.textBuf + t == Prose(g.items) + (g.textBuf + t);
    case Reasoning(t) => var g := FlushText(f);
      assert Thinking(g.items) + g.reasonBuf + t == Thinking(g.items) + (g.reasonBuf + t);
    case Tool(id, name, input) =>
      var g := FlushReason(FlushText(f));
      ToolHolds(g, FeedTool(f, id, name, input).items[|g.items|], p, q);
    case ToolResult(id, called, output, isError) =>
      AlwaysPlaced(before);
      ResultHolds(f, id, called, output, isError, p, q);
    case Meta(_) =>
    case Status(_, _) =>
  }

  /* ----- the writer ----- */

  /** Head and tail of an oversized string around a marker; `marker` is the text between them. */
  function Truncate(marker: nat -> string, s: string, max: nat): string {
    if |s| <= max then s
    else
      var head := max * 3 / 4;
      s[..head] + marker(|s| - max) + s[|s| - (max - head)..]
  }

  function Capped(marker: nat -> string, c: Chunk): Chunk {
    if c.ToolResult? && c.output.Just? then c.(output := Just(Truncate(marker, c.output.value, TOOL_OUTPUT_MAX)))
    else if c.Tool? && c.input.Just? then c.(input := Just(Truncate(marker, c.input.value, TOOL_INPUT_MAX)))
    else c
  }

  predicate UnderCaps(c: Chunk) {
    && (c.ToolResult? && c.output.Just? ==> |c.output.value| <= TOOL_OUTPUT_MAX)
    && (c.Tool? && c.input.Just? ==> |c.input.value| <= TOOL_INPUT_MAX)
  }

  predicate IsDelta(c: Chunk) { c.Text? || c.Reasoning? }

  /** `lines` is what has been written, `pending` a delta being collected. */
  datatype Writer = Writer(lines: seq<Chunk>, pending: Option<Chunk>, timer: bool)

  function Flushed(w: Writer): Writer {
    Writer(if w.pending.Just? then w.lines + [w.pending.value] else w.lines, Nothing, false)
  }

  function Extend(p: Chunk, text: string): Chunk
    requires IsDelta(p)
  {
    p.(text := p.text + text)
  }

  function Wrote(marker: nat -> string, w: Writer, c: Chunk): Writer
    requires w.pending.Just? ==> IsDelta(w.pending.value)
  {
    if !IsDelta(c) then
      var v := Flushed(w);
      v.(lines := v.lines + [Capped(marker, c)])
    else
      var v := if w.pending.Just? && w.pending.value.Text? != c.Text? then Flushed(w) else w;
      var p := if v.pending.Just? then Extend(v.pending.value, c.text) else c;
      var u := v.(pending := Just(p));
      if |p.text| >= TEXT_FLUSH_BYTES then Flushed(u) else u.(timer := true)
  }

  class AgentTranscript {
    var lines: seq<Chunk>
    var pending: Option<Chunk>
    var timer: bool

    function State(): Writer
      reads this
    {
      Writer(lines, pending, timer)
    }

    /** A timer runs exactly while a delta is pending, so no delta waits forever. */
    ghost predicate Valid()
      reads this
    {
      (pending.Just? ==> IsDelta(pending.value)) && (timer <==> pending.Just?)
    }

    constructor ()
      ensures Valid() && State() == Writer([], Nothing, false)
    {
      lines, pending, timer := [], Nothing, false;
    }

    method Write(marker: nat -> string, c: Chunk)
      requires Valid()
      modifies this
      ensures Valid() && State() == Wrote(marker, old(State()), c)
    {
      if IsDelta(c) {
        if pending.Just? && pending.value.Text? != c.Text? { FlushPending(); }
        pending := Just(if pending.Nothing? then c else Extend(pending.value, c.text));
        if |pending.value.text| >= TEXT_FLUSH_BYTES { FlushPending(); } else { timer := true; }
        return;
      }
      FlushPending();
      lines := lines + [Capped(marker, c)];
    }

    /** On the timer, at a boundary, or on close. */
    method FlushPending()
      requires pending.Just? ==> IsDelta(pending.value)
      modifies this
      ensures Valid() && State() == Flushed(old(State()))
    {
      timer := false;
      if pending.Nothing? { return; }
      lines := lines + [pending.value];
      pending := Nothing;
    }
  }

  /* ----- what coalescing and capping do ----- */

  /** Two deltas of one kind that stay under the limit together are pending as one, and nothing is written. */
  lemma DeltasCoalesce(marker: nat -> string, w: Writer, a: Chunk, text: string)
    requires w.pending.Just? ==> IsDelta(w.pending.value)
    requires a.Text? || a.Reasoning?
    requires var before := if w.pending.Just? && w.pending.value.Text? == a.Text? then |w.pending.value.text| else 0;
             before + |a.text| + |text| < TEXT_FLUSH_BYTES
    ensures var v := Wrote(marker, w, a);
            var u := Wrote(marker, v, a.(text := text));
            && u == Wrote(marker, w, a.(text := a.text + text))
            && v.timer && v.pending.Just? && u.lines == v.lines
            && (w.pending.Just? && w.pending.value.Text? == a.Text? ==> u.lines == w.lines)
            && (w.pending.Nothing? ==> u.lines == w.lines)
  {
    if w.pending.Just? && w.pending.value.Text? == a.Text? {
      assert w.pending.value.text + a.text + text == w.pending.value.text + (a.text + text);
    }
  }

  /**
   An oversized text keeps three quarters of the limit from its start, the rest of it from its end, and says what
   it lost.
   */
  lemma TruncationKeepsEnds(marker: nat -> string, s: string, max: nat)
    ensures |s| <= max ==> Truncate(marker, s, max) == s
    ensures |s| > max ==>
              var t, head := Truncate(marker, s, max), max * 3 / 4;
              && |t| == max + |marker(|s| - max)|
              && t[..head] == s[..head] && t[|t| - (max - head)..] == s[|s| - (max - head)..]
              && t[head..|t| - (max - head)] == marker(|s| - max)
  {
    if |s| > max {
      var t, head := Truncate(marker, s, max), max * 3 / 4;
      assert |t| == head + |marker(|s| - max)| + (max - head);
    }
  }

  /** Within the caps, but for the marker. */
  predicate WithinCaps(c: Chunk, slack: nat) {
    && (c.ToolResult? && c.output.Just? ==> |c.output.value| <= TOOL_OUTPUT_MAX + slack)
    && (c.Tool? && c.input.Just? ==> |c.input.value| <= TOOL_INPUT_MAX + slack)
  }

  /** Whatever was written, no line of the transcript exceeds the caps by more than a marker. */
  lemma {:induction false} WrittenIsCapped(marker: nat -> string, slack: nat, es: seq<Event>)
    requires forall n: nat :: |marker(n)| <= slack
    ensures forall i :: 0 <= i < |After(marker, es).lines| ==> WithinCaps(After(marker, es).lines[i], slack)
  {
    hide Truncate;
    if es != [] {
      WrittenIsCapped(marker, slack, es[..|es| - 1]);
      if es[|es| - 1].Write? { CappedIsWithin(marker, slack, es[|es| - 1].chunk); }
    }
  }

  lemma CappedIsWithin(marker: nat -> string, slack: nat, c: Chunk)
    requires forall n: nat :: |marker(n)| <= slack
    ensures WithinCaps(Capped(marker, c), slack)
  {
    if c.ToolResult? && c.output.Just? { TruncationKeepsEnds(marker, c.output.value, TOOL_OUTPUT_MAX); }
    if c.Tool? && c.input.Just? { TruncationKeepsEnds(marker, c.input.value, TOOL_INPUT_MAX); }
    hide Truncate;
  }

  /* ----- coalescing is invisible ----- */

  /** What happens to a transcript: a write, or the timer. */
  datatype Event = Write(chunk: Chunk) | TimerFires

  function After(marker: nat -> string, es: seq<Event>): (w: Writer)
    ensures w.pending.Just? ==> IsDelta(w.pending.value)
  {
    if es == [] then Writer([], Nothing, false)
    else
      var w := After(marker, es[..|es| - 1]);
      match es[|es| - 1]
      case Write(c) => Wrote(marker, w, c)
      case TimerFires => Flushed(w)
  }

  function Raw(es: seq<Event>): seq<Chunk> {
    if es == [] then []
    else Raw(es[..|es| - 1]) + if es[|es| - 1].Write? then [es[|es| - 1].chunk] else []
  }

  lemma FeedSnoc(chunks: seq<Chunk>, c: Chunk)
    ensures FeedAll(chunks + [c]) == FeedChunk(FeedAll(chunks), c)
  {
    assert (chunks + [c])[..|chunks|] == chunks;
  }

  /** Two deltas of one kind, even empty ones, feed like their concatenation. */
  lemma DeltasMerge(f: Feed, p: Chunk, text: string)
    requires IsDelta(p)
    ensures FeedChunk(FeedChunk(f, p), p.(text := text)) == FeedChunk(f, Extend(p, text))
  {
    assert f.textBuf + p.text + text == f.textBuf + (p.text + text);
    assert f.reasonBuf + p.text + text == f.reasonBuf + (p.text + text);
    assert FlushReason(FlushReason(f)) == FlushReason(f) && FlushText(FlushText(f)) == FlushText(f);
  }

  /** The written lines, with the pending delta, feed like the raw stream. */
  lemma {:induction false} WrittenFeedsLikeRaw(marker: nat -> string, es: seq<Event>)
    requires forall i :: 0 <= i < |es| && es[i].Write? ==> UnderCaps(es[i].chunk)
    ensures FeedAll(Flushed(After(marker, es)).lines) == FeedAll(Raw(es))
  {
    hide FeedChunk, FeedAll, Extend;
    if es != [] {
      var before := es[..|es| - 1];
      WrittenFeedsLikeRaw(marker, before);
      var w := After(marker, before);
      match es[|es| - 1]
      case TimerFires =>
        assert Raw(es) == Raw(before);
      case Write(c) =>
        FeedSnoc(Raw(before), c);
        if IsDelta(c) && w.pending.Just? && w.pending.value.Text? == c.Text? {
          FeedSnoc(w.lines, w.pending.value);
          FeedSnoc(w.lines, Extend(w.pending.value, c.text));
          DeltasMerge(FeedAll(w.lines), w.pending.value, c.text);
          assert w.pending.value.(text := c.text) == c;
        } else {
          FeedSnoc(Flushed(w).lines, c);
          CapsKeep(marker, c);
        }
    }
  }

  lemma CapsKeep(marker: nat -> string, c: Chunk)
    requires UnderCaps(c)
    ensures Capped(marker, c) == c
  {}

  /**
   For any chunks with tool input and output under the caps, and any firing of the timer between them, the
   closed transcript shows exactly what the raw chunks show: items, ids, status and all.
   */
  lemma CoalescingIsInvisible(marker: nat -> string, es: seq<Event>)
    requires forall i :: 0 <= i < |es| && es[i].Write? ==> UnderCaps(es[i].chunk)
    ensures Shown(FeedAll(Flushed(After(marker, es)).lines)) == Shown(FeedAll(Raw(es)))
  {
    WrittenFeedsLikeRaw(marker, es);
  }

  /** And nothing is ever lost to coalescing: flushing often or seldom writes the same text in the same order. */
  lemma TimersDoNotMatter(marker: nat -> string, es: seq<Event>, fs: seq<Event>)
    requires Raw(es) == Raw(fs)
    requires forall i :: 0 <= i < |es| && es[i].Write? ==> UnderCaps(es[i].chunk)
    requires forall i :: 0 <= i < |fs| && fs[i].Write? ==> UnderCaps(fs[i].chunk)
    ensures Shown(FeedAll(Flushed(After(marker, es)).lines)) == Shown(FeedAll(Flushed(After(marker, fs)).lines))
  {
    WrittenFeedsLikeRaw(marker, es);
    WrittenFeedsLikeRaw(marker, fs);
  }
}
