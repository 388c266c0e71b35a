/** The Codex engine runner: how the JSON events printed by `codex exec --json`
    become Takopi events, the todo-list and file-change summaries used as
    action titles, and the per-run state (note counter, final answer, turn
    counter) that `translate` keeps. */
module Codex {
  import opened Wrappers
  import opened Model
  import Json
  import Text
  import Runner

  const ENGINE: EngineId := "codex"

  /** `_ACTION_KIND_MAP`: the action kind of each item type Codex reports. */
  function KindOfItemType(itemType: string): (r: Option<ActionKind>)
    ensures r == Some(Tool) <==> itemType == "mcp_tool_call" || itemType == "tool_call"
    ensures r == Some(Note) <==> itemType == "reasoning" || itemType == "todo_list"
    ensures r.None? <==> itemType !in {"command_execution", "mcp_tool_call", "tool_call", "web_search",
                                       "file_change", "reasoning", "todo_list"}
  {
    if itemType == "command_execution" then Some(Command)
    else if itemType == "mcp_tool_call" || itemType == "tool_call" then Some(Tool)
    else if itemType == "web_search" then Some(WebSearch)
    else if itemType == "file_change" then Some(FileChange)
    else if itemType == "reasoning" || itemType == "todo_list" then Some(Note)
    else None
  }

  /** `_short_tool_name`: the truthy parts of server and tool joined by a dot,
      or `"tool"` when neither is set. */
  function ShortToolName(item: Json.Fields): (r: string)
    ensures r != []
    ensures !Json.Truthy(Json.GetV(item, "server")) && !Json.Truthy(Json.GetV(item, "tool")) ==> r == "tool"
    ensures Json.NonEmptyStr(Json.GetV(item, "server")) && Json.NonEmptyStr(Json.GetV(item, "tool")) ==>
      r == Json.GetV(item, "server").s + "." + Json.GetV(item, "tool").s
  {
    var server := Json.GetV(item, "server");
    var tool := Json.GetV(item, "tool");
    var parts := (if Json.Truthy(server) then [Json.ToStr(server)] else [])
               + (if Json.Truthy(tool) then [Json.ToStr(tool)] else []);
    var name := Text.Join(parts, ".");
    if name == [] then "tool" else name
  }

  predicate HasContent(result: Json.Fields) {
    Json.Lookup(result, "content").Some? && !Json.Lookup(result, "content").value.Null?
  }

  predicate HasStructured(result: Json.Fields) {
    Json.HasKey(result, "structured_content") || Json.HasKey(result, "structured")
  }

  /** `_summarize_tool_result`: the number of content blocks (a list counts its
      entries, any other content counts one) and whether structured content
      is present; `None` when the result is not a dict or says neither. */
  function SummarizeToolResult(result: Json.Value): (r: Option<Json.Fields>)
    ensures r.Some? <==> result.Obj? && (HasContent(result.fields) || HasStructured(result.fields))
    ensures r.Some? && HasContent(result.fields) && Json.Lookup(result.fields, "content").value.Arr? ==>
      Json.Lookup(r.value, "content_blocks") == Some(Json.Int(|Json.Lookup(result.fields, "content").value.items|))
    ensures r.Some? && HasContent(result.fields) && !Json.Lookup(result.fields, "content").value.Arr? ==>
      Json.Lookup(r.value, "content_blocks") == Some(Json.Int(1))
    ensures r.Some? && !HasContent(result.fields) ==> Json.Lookup(r.value, "content_blocks").None?
  {
    if !result.Obj? then None
    else
      var f := result.fields;
      var content := Json.Lookup(f, "content");
      var blocks: Json.Fields :=
        if content.Some? && content.value.Arr? then [("content_blocks", Json.Int(|content.value.items|))]
        else if content.Some? && !content.value.Null? then [("content_blocks", Json.Int(1))]
        else [];
      var key: Option<string> :=
        if Json.HasKey(f, "structured_content") then Some("structured_content")
        else if Json.HasKey(f, "structured") then Some("structured")
        else None;
      var summary := if key.Some? then blocks + [("has_structured", Json.Bool(!Json.GetV(f, key.value).Null?))] else blocks;
      if summary == [] then None else Some(summary)
  }

  /** `item.get("changes") or []`, read as a list. */
  function ChangesOf(item: Json.Fields): seq<Json.Value> {
    var changes := Json.Or(Json.GetV(item, "changes"), Json.Arr([]));
    if changes.Arr? then changes.items else []
  }

  function PathOf(change: Json.Value): Json.Value {
    Json.Get(change, "path").GetOr(Json.Null)
  }

  /** `[c.get("path") for c in changes if c.get("path")]`. */
  function TruthyPaths(changes: seq<Json.Value>): (r: seq<Json.Value>)
    ensures |r| <= |changes|
    ensures forall i :: 0 <= i < |r| ==> Json.Truthy(r[i])
    ensures r == [] <==> forall i :: 0 <= i < |changes| ==> !Json.Truthy(PathOf(changes[i]))
  {
    if changes == [] then []
    else (if Json.Truthy(PathOf(changes[0])) then [PathOf(changes[0])] else []) + TruthyPaths(changes[1..])
  }

  /** `_format_change_summary`: the changed paths joined by `", "`; without
      any path, `"N files"` for N changes, or `"files"` when there are none. */
  function FormatChangeSummary(item: Json.Fields): (r: string)
  {
    var changes := ChangesOf(item);
    var paths := TruthyPaths(changes);
    if paths == [] then
      if |changes| <= 0 then "files" else Text.IntToString(|changes|) + " files"
    else Text.Join(seq(|paths|, i requires 0 <= i < |paths| => Json.ToStr(paths[i])), ", ")
  }

  /** The summary names the paths when some change has one, and otherwise
      counts the changes. */
  lemma FormatChangeSummaryCases(item: Json.Fields)
    ensures ChangesOf(item) == [] ==> FormatChangeSummary(item) == "files"
    ensures ChangesOf(item) != [] && (forall i :: 0 <= i < |ChangesOf(item)| ==> !Json.Truthy(PathOf(ChangesOf(item)[i]))) ==>
      FormatChangeSummary(item) == Text.IntToString(|ChangesOf(item)|) + " files"
    ensures |ChangesOf(item)| == 1 && PathOf(ChangesOf(item)[0]).Str? && PathOf(ChangesOf(item)[0]).s != [] ==>
      FormatChangeSummary(item) == PathOf(ChangesOf(item)[0]).s
  {
    var changes := ChangesOf(item);
    if |changes| == 1 {
      assert changes[1..] == [];
    }
  }

  /** When every change has a truthy path, all the paths are kept, in order. */
  lemma {:induction false} AllTruthyPaths(changes: seq<Json.Value>)
    requires forall i :: 0 <= i < |changes| ==> Json.Truthy(PathOf(changes[i]))
    ensures TruthyPaths(changes) == seq(|changes|, i requires 0 <= i < |changes| => PathOf(changes[i]))
  {
    if changes != [] {
      AllTruthyPaths(changes[1..]);
    }
  }

  /** When every change names a file, the summary lists the names in order,
      separated by `", "`. */
  lemma ChangeSummaryNamesPaths(item: Json.Fields)
    requires ChangesOf(item) != []
    requires forall i :: 0 <= i < |ChangesOf(item)| ==> PathOf(ChangesOf(item)[i]).Str? && PathOf(ChangesOf(item)[i]).s != []
    ensures FormatChangeSummary(item)
         == Text.Join(seq(|ChangesOf(item)|, i requires 0 <= i < |ChangesOf(item)| => PathOf(ChangesOf(item)[i]).s), ", ")
  {
    var changes := ChangesOf(item);
    AllTruthyPaths(changes);
    var paths := TruthyPaths(changes);
    assert |paths| == |changes| && paths != [];
    var shown := seq(|paths|, i requires 0 <= i < |paths| => Json.ToStr(paths[i]));
    var names := seq(|changes|, i requires 0 <= i < |changes| => PathOf(changes[i]).s);
    assert FormatChangeSummary(item) == Text.Join(shown, ", ");
    assert shown == names by {
      forall i | 0 <= i < |paths| ensures shown[i] == names[i] {
        assert paths[i] == PathOf(changes[i]);
      }
    }
    var stated := seq(|ChangesOf(item)|, i requires 0 <= i < |ChangesOf(item)| => PathOf(ChangesOf(item)[i]).s);
    assert names == stated by {
      forall i | 0 <= i < |names| ensures names[i] == stated[i] {
      }
    }
  }

  // ---------------------------------------------------------------------------
  // Todo lists

  datatype TodoSummary = TodoSummary(done: nat, total: nat, nextText: Option<string>)

  /** `raw_item.get("completed") is True`, for a dict item. */
  predicate IsDone(raw: Json.Value) {
    raw.Obj? && Json.Lookup(raw.fields, "completed") == Some(Json.Bool(true))
  }

  /** `str(text) if text is not None else None` for the item's `text`. */
  function TextOf(raw: Json.Value): (r: Option<string>)
    ensures r.Some? ==> raw.Obj?
  {
    if !raw.Obj? then None
    else
      var t := Json.GetV(raw.fields, "text");
      if t.Null? then None else Some(Json.ToStr(t))
  }

  /** One turn of the loop of `_summarize_todo_list`: a non-dict is skipped; a
      completed dict counts as done; an open one supplies the next text if
      none was taken yet. */
  function TodoStep(s: TodoSummary, raw: Json.Value): TodoSummary {
    if !raw.Obj? then s
    else if IsDone(raw) then s.(done := s.done + 1, total := s.total + 1)
    else s.(total := s.total + 1, nextText := if s.nextText.None? then TextOf(raw) else s.nextText)
  }

  /** The summary of a list of todo items, item by item from the front. */
  function Summarize(items: seq<Json.Value>): (r: TodoSummary)
    ensures r.done <= r.total
    decreases |items|
  {
    if items == [] then TodoSummary(0, 0, None)
    else TodoStep(Summarize(items[..|items| - 1]), items[|items| - 1])
  }

  /** `_summarize_todo_list` on any value: a non-list gives the empty summary. */
  function TodoSummaryOf(items: Json.Value): TodoSummary {
    if items.Arr? then Summarize(items.items) else TodoSummary(0, 0, None)
  }

  /** Reference counts: the dict items, and the completed ones among them. */
  function CountDicts(items: seq<Json.Value>): nat {
    if items == [] then 0 else (if items[0].Obj? then 1 else 0) + CountDicts(items[1..])
  }

  function CountDone(items: seq<Json.Value>): nat {
    if items == [] then 0 else (if IsDone(items[0]) then 1 else 0) + CountDone(items[1..])
  }

  /** The text of the first open dict item that has one. */
  function FirstOpenText(items: seq<Json.Value>): (r: Option<string>)
    ensures r.Some? ==> exists i :: 0 <= i < |items| && items[i].Obj? && !IsDone(items[i]) && TextOf(items[i]) == r
  {
    if items == [] then None
    else if items[0].Obj? && !IsDone(items[0]) && TextOf(items[0]).Some? then TextOf(items[0])
    else
      var rest := FirstOpenText(items[1..]);
      if rest.Some? then
        var i :| 0 <= i < |items[1..]| && items[1..][i].Obj? && !IsDone(items[1..][i]) && TextOf(items[1..][i]) == rest;
        assert items[i + 1] == items[1..][i];
        rest
      else None
  }

  lemma {:induction false} CountsAppend(a: seq<Json.Value>, b: seq<Json.Value>)
    ensures CountDicts(a + b) == CountDicts(a) + CountDicts(b)
    ensures CountDone(a + b) == CountDone(a) + CountDone(b)
    ensures FirstOpenText(a + b) == OrElse(FirstOpenText(a), FirstOpenText(b))
    decreases |a|
  {
    if a != [] {
      assert (a + b)[0] == a[0] && (a + b)[1..] == a[1..] + b;
      CountsAppend(a[1..], b);
    } else {
      assert a + b == b;
    }
  }

  /** The loop agrees with the reference definitions: `total` counts the dict
      items, `done` the completed ones, and `next_text` is the text of the
      first open item that has one. */
  lemma {:induction false} SummarizeCounts(items: seq<Json.Value>)
    ensures Summarize(items) == TodoSummary(CountDone(items), CountDicts(items), FirstOpenText(items))
    decreases |items|
  {
    if items != [] {
      var init, last := items[..|items| - 1], items[|items| - 1];
      SummarizeCounts(init);
      CountsAppend(init, [last]);
      assert init + [last] == items;
      assert [last][1..] == [];
    }
  }

  /** Items that are not dicts leave the summary as it would be without them. */
  lemma NonDictSkipped(a: seq<Json.Value>, x: Json.Value, b: seq<Json.Value>)
    requires !x.Obj?
    ensures Summarize(a + [x] + b) == Summarize(a + b)
  {
    SummarizeCounts(a + [x] + b);
    SummarizeCounts(a + b);
    CountsAppend(a + [x], b);
    CountsAppend(a, [x]);
    CountsAppend(a, b);
    assert [x][1..] == [];
  }

  /** `_summarize_todo_list`, as the loop it is. */
  method SummarizeTodoList(items: Json.Value) returns (s: TodoSummary)
    ensures s == TodoSummaryOf(items)
    ensures s.done <= s.total
    ensures items.Arr? ==> s == TodoSummary(CountDone(items.items), CountDicts(items.items), FirstOpenText(items.items))
    ensures !items.Arr? ==> s == TodoSummary(0, 0, None)
  {
    if !items.Arr? {
      return TodoSummary(0, 0, None);
    }
    var xs := items.items;
    var done: nat := 0;
    var total: nat := 0;
    var nextText: Option<string> := None;
    for i := 0 to |xs|
      invariant TodoSummary(done, total, nextText) == Summarize(xs[..i])
    {
      assert xs[..i + 1][..i] == xs[..i];
      var raw := xs[i];
      if !raw.Obj? {
        continue;
      }
      total := total + 1;
      if IsDone(raw) {
        done := done + 1;
        continue;
      }
      if nextText.None? {
        nextText := TextOf(raw);
      }
    }
    assert xs[..|xs|] == xs;
    s := TodoSummary(done, total, nextText);
    SummarizeCounts(xs);
  }

  /** `_todo_title`: `"todo"` for an empty list, else `"todo d/t: "` followed by
      the next open item, or by `"done"` when there is none. */
  function TodoTitle(s: TodoSummary): (r: string)
    ensures r == "todo" <==> s.total == 0
    ensures s.total > 0 ==> Text.StartsWith(r, "todo " + Text.NatToString(s.done) + "/" + Text.NatToString(s.total) + ": ")
    ensures s.total > 0 && s.nextText.Some? && s.nextText.value != [] ==> Text.EndsWith(r, s.nextText.value)
    ensures s.total > 0 && (s.nextText.None? || s.nextText.value == []) ==> Text.EndsWith(r, "done")
  {
    if s.total <= 0 then "todo"
    else
      var head := "todo " + Text.NatToString(s.done) + "/" + Text.NatToString(s.total) + ": ";
      var r := if s.nextText.Some? && s.nextText.value != [] then head + s.nextText.value else head + "done";
      assert r[..|head|] == head;
      assert |r| > 4;
      r
  }

  // ---------------------------------------------------------------------------
  // Item events

  /** `item.get("type") or item.get("item_type")`, with `assistant_message`
      read as `agent_message`. */
  function ItemTypeOf(item: Json.Fields): Json.Value {
    var raw := Json.Or(Json.GetV(item, "type"), Json.GetV(item, "item_type"));
    if raw == Json.Str("assistant_message") then Json.Str("agent_message") else raw
  }

  /** The item's `id` when it is a non-empty string. */
  function ActionIdOf(item: Json.Fields): (r: Option<string>)
    ensures r.Some? ==> r.value != [] && Json.Lookup(item, "id") == Some(Json.Str(r.value))
  {
    match Json.Lookup(item, "id")
    case Some(Str(id)) => if id != [] then Some(id) else None
    case _ => None
  }

  /** The item types that produce an event: `error` and those of `_ACTION_KIND_MAP`. */
  predicate KnownItemType(t: Json.Value) {
    t.Str? && (t.s == "error" || KindOfItemType(t.s).Some?)
  }

  /** `_action_event` for the Codex engine. */
  function ActionEvt(phase: ActionPhase, id: string, kind: ActionKind, title: string, detail: Json.Fields,
                     ok: Option<bool>): Event {
    ActionEv(ActionEvent(ENGINE, Action(id, kind, title, detail), phase, ok, None, None))
  }

  /** `isinstance(exit_code, int)` also holds for a bool, and `True == 0` is false. */
  predicate ExitOk(exitCode: Json.Value) {
    match exitCode
    case Int(i) => i == 0
    case Bool(b) => !b
    case _ => true
  }

  predicate NotFailed(item: Json.Fields) {
    Json.GetV(item, "status") != Json.Str("failed")
  }

  function ErrorItemEvent(id: string, item: Json.Fields): Event {
    var message := Json.ToStr(Json.Or(Json.GetV(item, "message"), Json.Str("codex item error")));
    ActionEv(ActionEvent(ENGINE, Action(id, Warning, message, [("message", Json.Str(message))]), PhaseCompleted,
      Some(false), Some(message), Some(LevelWarning)))
  }

  function CommandEvent(phase: ActionPhase, id: string, item: Json.Fields, relativize: string -> string): Event {
    var title := relativize(Json.ToStr(Json.Or(Json.GetV(item, "command"), Json.Str(""))));
    if phase != PhaseCompleted then ActionEvt(phase, id, Command, title, [], None)
    else
      var exitCode := Json.GetV(item, "exit_code");
      ActionEvt(PhaseCompleted, id, Command, title,
        [("exit_code", exitCode), ("status", Json.GetV(item, "status"))], Some(NotFailed(item) && ExitOk(exitCode)))
  }

  /** The `error_message` of a tool call: the error's `message` when it is a dict. */
  function ErrorMessage(error: Json.Value): string {
    Json.ToStr(if error.Obj? then Json.GetV(error.fields, "message") else error)
  }

  function ToolEvent(itemType: string, phase: ActionPhase, id: string, item: Json.Fields): Event {
    var args: Json.Fields := if Json.HasKey(item, "arguments") then [("arguments", Json.GetV(item, "arguments"))] else [];
    var name := Json.GetV(item, "name");
    var title := if itemType == "tool_call" then (if Json.Truthy(name) then Json.ToStr(name) else "tool") else ShortToolName(item);
    var detail: Json.Fields :=
      if itemType == "tool_call" then [("name", name), ("status", Json.GetV(item, "status"))] + args
      else [("server", Json.GetV(item, "server")), ("tool", Json.GetV(item, "tool")), ("status", Json.GetV(item, "status"))] + args;
    if phase != PhaseCompleted then ActionEvt(phase, id, Tool, title, detail, None)
    else
      var error := Json.GetV(item, "error");
      var withError := if Json.Truthy(error) then detail + [("error_message", Json.Str(ErrorMessage(error)))] else detail;
      var summary := SummarizeToolResult(Json.GetV(item, "result"));
      var full := if summary.Some? then withError + [("result_summary", Json.Obj(summary.value))] else withError;
      ActionEvt(PhaseCompleted, id, Tool, title, full, Some(NotFailed(item) && !Json.Truthy(error)))
  }

  function WebSearchEvent(phase: ActionPhase, id: string, item: Json.Fields): Event {
    var query := Json.GetV(item, "query");
    ActionEvt(phase, id, WebSearch, Json.ToStr(Json.Or(query, Json.Str(""))), [("query", query)],
      if phase == PhaseCompleted then Some(true) else None)
  }

  function FileChangeEvent(id: string, item: Json.Fields): Event {
    ActionEvt(PhaseCompleted, id, FileChange, FormatChangeSummary(item),
      [("changes", Json.Or(Json.GetV(item, "changes"), Json.Arr([]))),
       ("status", Json.GetV(item, "status")), ("error", Json.GetV(item, "error"))],
      Some(NotFailed(item)))
  }

  function NoteEvent(itemType: string, phase: ActionPhase, id: string, item: Json.Fields): Event {
    var summary := TodoSummaryOf(Json.GetV(item, "items"));
    var title := if itemType == "todo_list" then TodoTitle(summary) else Json.ToStr(Json.Or(Json.GetV(item, "text"), Json.Str("")));
    var detail: Json.Fields := if itemType == "todo_list" then [("done", Json.Int(summary.done)), ("total", Json.Int(summary.total))] else [];
    ActionEvt(phase, id, Note, title, detail, if phase == PhaseCompleted then Some(true) else None)
  }

  /** `_translate_item_event`: at most one action event, carrying the item's id
      and the phase of the Codex event. No event comes from an item without a
      type, an agent message, an item without a non-empty string id, or an
      unknown type; error items and file changes report only on completion.
      The phase is taken already parsed from `item.started`, `item.updated`
      or `item.completed`, the only event types it is called with. */
  function TranslateItemEvent(phase: ActionPhase, item: Json.Fields, relativize: string -> string): (r: seq<Event>)
    ensures |r| <= 1
    ensures r != [] <==>
      ActionIdOf(item).Some? && KnownItemType(ItemTypeOf(item))
      && (ItemTypeOf(item) == Json.Str("error") || ItemTypeOf(item) == Json.Str("file_change") ==> phase == PhaseCompleted)
    ensures r != [] ==> r[0].ActionEv? && r[0].act.engine == ENGINE && r[0].act.phase == phase
                        && Some(r[0].act.action.id) == ActionIdOf(item)
    ensures r != [] ==> (r[0].act.ok.Some? <==> phase == PhaseCompleted)
    ensures r != [] && ItemTypeOf(item) == Json.Str("error") ==>
      r[0].act.action.kind == Warning && r[0].act.ok == Some(false) && r[0].act.level == Some(LevelWarning)
    ensures r != [] && ItemTypeOf(item) != Json.Str("error") ==>
      Some(r[0].act.action.kind) == KindOfItemType(ItemTypeOf(item).s) && r[0].act.level.None?
  {
    var itemType := ItemTypeOf(item);
    if !Json.Truthy(itemType) || itemType == Json.Str("agent_message") then []
    else match ActionIdOf(item)
      case None => []
      case Some(id) =>
        if itemType == Json.Str("error") then
          if phase == PhaseCompleted then [ErrorItemEvent(id, item)] else []
        else if !itemType.Str? then []
        else match KindOfItemType(itemType.s)
          case None => []
          case Some(kind) =>
            match kind
            case Command => [CommandEvent(phase, id, item, relativize)]
            case Tool => [ToolEvent(itemType.s, phase, id, item)]
            case WebSearch => [WebSearchEvent(phase, id, item)]
            case FileChange => if phase == PhaseCompleted then [FileChangeEvent(id, item)] else []
            case Note => [NoteEvent(itemType.s, phase, id, item)]
            case _ => []
  }

  /** The phase named by an `item.*` event type. */
  function ItemPhase(etype: Json.Value): Option<ActionPhase> {
    if etype == Json.Str("item.started") then Some(PhaseStarted)
    else if etype == Json.Str("item.updated") then Some(PhaseUpdated)
    else if etype == Json.Str("item.completed") then Some(PhaseCompleted)
    else None
  }

  /** `event.get("item") or {}`, read as a dict. */
  function ItemFields(event: Json.Fields): Json.Fields {
    var item := Json.Or(Json.GetV(event, "item"), Json.Obj([]));
    if item.Obj? then item.fields else []
  }

  /** `translate_codex_event`: `thread.started` with a thread id starts the
      session of that id; `item.*` events go through the item translator;
      anything else is dropped. Nothing here completes a run. */
  function TranslateCodexEvent(event: Json.Fields, title: string, relativize: string -> string): (r: seq<Event>)
    ensures |r| <= 1 && CountCompleted(r) == 0
    ensures CountStarted(r) == 1 <==>
      Json.GetV(event, "type") == Json.Str("thread.started") && Json.Truthy(Json.GetV(event, "thread_id"))
    ensures CountStarted(r) == 1 ==>
      r[0].Started? && r[0].started.engine == ENGINE && r[0].started.title == Some(title)
      && r[0].started.resume == ResumeToken(ENGINE, Json.ToStr(Json.GetV(event, "thread_id")))
    ensures ItemPhase(Json.GetV(event, "type")).None? && CountStarted(r) == 0 ==> r == []
  {
    var etype := Json.GetV(event, "type");
    var r :=
      if etype == Json.Str("thread.started") then
        var threadId := Json.GetV(event, "thread_id");
        if Json.Truthy(threadId) then [Started(StartedEvent(ENGINE, ResumeToken(ENGINE, Json.ToStr(threadId)), Some(title), None))]
        else []
      else match ItemPhase(etype)
        case None => []
        case Some(phase) => TranslateItemEvent(phase, ItemFields(event), relativize);
    assert |r| == 1 ==> r[1..] == [];
    r
  }

  // ---------------------------------------------------------------------------
  // The runner and its per-run state

  /** The fields of `CodexRunState`, as a value. */
  datatype RunSnapshot = RunSnapshot(noteSeq: nat, finalAnswer: Option<string>, turnIndex: nat)

  /** `state.final_answer or ""`. */
  function AnswerOf(s: RunSnapshot): string {
    s.finalAnswer.GetOr("")
  }

  /** An `error` event is fatal unless its `fatal` flag is set to something other than `True`. */
  predicate FatalError(data: Json.Fields) {
    Json.GetV(data, "type") == Json.Str("error")
    && (Json.GetV(data, "fatal") == Json.Bool(true) || Json.GetV(data, "fatal") == Json.Null)
  }

  /** The completed event of a run: the session found, else the resume token asked for. */
  function CompletedFor(ok: bool, s: RunSnapshot, resume: Option<ResumeToken>, found: Option<ResumeToken>,
                        error: Option<string>, usage: Option<Json.Value>): Event {
    Completed(CompletedEvent(ENGINE, ok, AnswerOf(s), OrElse(found, resume), error, usage))
  }

  function RateLimitMessage(retry: Json.Value): string {
    if retry.Int? || retry.Bool? then "rate limited (retry after " + Json.ToStr(retry) + "ms)" else "rate limited"
  }

  /** The final answer after an `item.completed` event: the text of an agent
      message replaces any earlier one. */
  function RecordAnswer(s: RunSnapshot, data: Json.Fields): RunSnapshot {
    var item := ItemFields(data);
    var text := Json.GetV(item, "text");
    if Json.GetV(data, "type") == Json.Str("item.completed") && ItemTypeOf(item) == Json.Str("agent_message") && text.Str?
    then s.(finalAnswer := Some(text.s))
    else s
  }

  /** `CodexRunner.translate` on the run state `s`: the events it returns and
      the state it leaves. A fatal error and a failed turn complete the run
      unsuccessfully, a completed turn successfully, each with the answer so
      far and the session found, else the resume token. A non-fatal error and
      a rate limit become warning notes under the next note id; a started
      turn is announced under the next turn id; the rest goes through
      `translate_codex_event`, after an agent message was recorded. */
  function TranslateStep(data: Json.Fields, s: RunSnapshot, resume: Option<ResumeToken>, found: Option<ResumeToken>,
                     title: string, relativize: string -> string): (r: (seq<Event>, RunSnapshot))
    ensures |r.0| <= 1 && CountStarted(r.0) <= 1 && CountCompleted(r.0) <= 1
    ensures CountCompleted(r.0) == 1 ==>
      r.0[0].completed.engine == ENGINE && r.0[0].completed.answer == AnswerOf(s)
      && r.0[0].completed.resume == (if found.Some? then found else resume)
    ensures CountCompleted(r.0) == 1 ==>
      (r.0[0].completed.ok <==> Json.GetV(data, "type") == Json.Str("turn.completed"))
      && (r.0[0].completed.ok <==> r.0[0].completed.error.None?)
    ensures FatalError(data) ==> CountCompleted(r.0) == 1 && !r.0[0].completed.ok && r.1 == s
    ensures CountCompleted(r.0) == 1 ==> r.1 == s
    ensures r.1.noteSeq == s.noteSeq || r.1.noteSeq == s.noteSeq + 1
    ensures r.1.turnIndex == s.turnIndex || r.1.turnIndex == s.turnIndex + 1
  {
    var etype := Json.GetV(data, "type");
    var r :=
      if etype == Json.Str("error") then
        var message := Json.ToStr(Json.Or(Json.GetV(data, "message"), Json.Str("codex error")));
        if FatalError(data) then ([CompletedFor(false, s, resume, found, Some(message), None)], s)
        else
          var n := s.noteSeq + 1;
          ([Runner.NoteEvent(ENGINE, Runner.NoteId(ENGINE, n), message, false,
              [("code", Json.GetV(data, "code")), ("fatal", Json.GetV(data, "fatal"))])],
           s.(noteSeq := n))
      else if etype == Json.Str("turn.failed") then
        var error := Json.Or(Json.GetV(data, "error"), Json.Obj([]));
        var message := Json.ToStr(Json.Or(Json.Get(error, "message").GetOr(Json.Null), Json.Str("codex turn failed")));
        ([CompletedFor(false, s, resume, found, Some(message), None)], s)
      else if etype == Json.Str("turn.rate_limited") then
        var n := s.noteSeq + 1;
        ([Runner.NoteEvent(ENGINE, Runner.NoteId(ENGINE, n), RateLimitMessage(Json.GetV(data, "retry_after_ms")), false, [])],
         s.(noteSeq := n))
      else if etype == Json.Str("turn.started") then
        ([ActionEvt(PhaseStarted, "turn_" + Text.NatToString(s.turnIndex), Turn, "turn started", [], None)],
         s.(turnIndex := s.turnIndex + 1))
      else if etype == Json.Str("turn.completed") then
        var usage := Json.GetV(data, "usage");
        ([CompletedFor(true, s, resume, found, None, if usage.Null? then None else Some(usage))], s)
      else
        (TranslateCodexEvent(data, title, relativize), RecordAnswer(s, data));
    assert |r.0| == 1 ==> r.0[1..] == [];
    r
  }

  /** Two turns started one after the other get different action ids. */
  lemma TurnIdsDistinct(d1: Json.Fields, d2: Json.Fields, s: RunSnapshot, resume: Option<ResumeToken>,
                        found: Option<ResumeToken>, title: string, relativize: string -> string)
    requires Json.GetV(d1, "type") == Json.Str("turn.started") && Json.GetV(d2, "type") == Json.Str("turn.started")
    ensures var first := TranslateStep(d1, s, resume, found, title, relativize);
            var second := TranslateStep(d2, first.1, resume, found, title, relativize);
            first.0[0].act.action.id != second.0[0].act.action.id
  {
    var first := TranslateStep(d1, s, resume, found, title, relativize);
    var a := "turn_" + Text.NatToString(s.turnIndex);
    var b := "turn_" + Text.NatToString(s.turnIndex + 1);
    if a == b {
      assert a[5..] == Text.NatToString(s.turnIndex) && b[5..] == Text.NatToString(s.turnIndex + 1);
      Text.NatToStringInjective(s.turnIndex, s.turnIndex + 1);
    }
  }

  /** The answer of a completed turn is the text of the last agent message
      recorded before it. */
  lemma LastAgentMessageAnswers(msg: Json.Fields, done: Json.Fields, s: RunSnapshot, text: string,
                                resume: Option<ResumeToken>, found: Option<ResumeToken>, title: string,
                                relativize: string -> string)
    requires Json.GetV(msg, "type") == Json.Str("item.completed")
    requires ItemTypeOf(ItemFields(msg)) == Json.Str("agent_message")
    requires Json.GetV(ItemFields(msg), "text") == Json.Str(text)
    requires Json.GetV(done, "type") == Json.Str("turn.completed")
    ensures var first := TranslateStep(msg, s, resume, found, title, relativize);
            var second := TranslateStep(done, first.1, resume, found, title, relativize);
            first.0 == [] && second.0[0].completed.ok && second.0[0].completed.answer == text
  {
    AgentMessageStep(msg, s, text, resume, found, title, relativize);
    TurnCompletedStep(done, s.(finalAnswer := Some(text)), resume, found, title, relativize);
  }

  lemma AgentMessageStep(msg: Json.Fields, s: RunSnapshot, text: string,
                         resume: Option<ResumeToken>, found: Option<ResumeToken>, title: string,
                         relativize: string -> string)
    requires Json.GetV(msg, "type") == Json.Str("item.completed")
    requires ItemTypeOf(ItemFields(msg)) == Json.Str("agent_message")
    requires Json.GetV(ItemFields(msg), "text") == Json.Str(text)
    ensures TranslateStep(msg, s, resume, found, title, relativize) == ([], s.(finalAnswer := Some(text)))
  {
    var etype := Json.GetV(msg, "type");
    assert etype != Json.Str("error") && etype != Json.Str("turn.failed") && etype != Json.Str("turn.rate_limited")
        && etype != Json.Str("turn.started") && etype != Json.Str("turn.completed");
    OtherTypeStep(msg, s, resume, found, title, relativize);
    assert TranslateItemEvent(PhaseCompleted, ItemFields(msg), relativize) == [];
    assert TranslateCodexEvent(msg, title, relativize) == [];
  }

  /** An event type the runner does not handle itself goes to the event translator. */
  lemma OtherTypeStep(data: Json.Fields, s: RunSnapshot,
                      resume: Option<ResumeToken>, found: Option<ResumeToken>, title: string,
                      relativize: string -> string)
    requires var etype := Json.GetV(data, "type");
      etype != Json.Str("error") && etype != Json.Str("turn.failed") && etype != Json.Str("turn.rate_limited")
      && etype != Json.Str("turn.started") && etype != Json.Str("turn.completed")
    ensures TranslateStep(data, s, resume, found, title, relativize)
         == (TranslateCodexEvent(data, title, relativize), RecordAnswer(s, data))
  {
  }

  lemma TurnCompletedStep(done: Json.Fields, s: RunSnapshot,
                          resume: Option<ResumeToken>, found: Option<ResumeToken>, title: string,
                          relativize: string -> string)
    requires Json.GetV(done, "type") == Json.Str("turn.completed")
    ensures var r := TranslateStep(done, s, resume, found, title, relativize);
            r.0 != [] && r.0[0].Completed? && r.0[0].completed.ok && r.0[0].completed.answer == AnswerOf(s)
  {
  }

  /** `stream_end_events`: without a session the run fails with the resume
      token asked for; with one it succeeds on that session. */
  function StreamEndEvents(resume: Option<ResumeToken>, found: Option<ResumeToken>, s: RunSnapshot): (es: seq<Event>)
    ensures |es| == 1 && es[0].Completed? && es[0].completed.engine == ENGINE
    ensures es[0].completed.ok <==> found.Some?
    ensures es[0].completed.resume == (if found.Some? then found else resume)
    ensures es[0].completed.answer == AnswerOf(s)
    ensures es[0].completed.error.None? <==> found.Some?
  {
    if found.None? then
      [CompletedFor(false, s, resume, found, Some("codex exec finished but no session_id/thread_id was captured"), None)]
    else [CompletedFor(true, s, resume, found, None, None)]
  }

  /** `process_error_events`: a warning note under the next note id, then a
      failed completion carrying the answer so far. */
  function ProcessErrorStep(rc: int, resume: Option<ResumeToken>, found: Option<ResumeToken>, stderrTail: string,
                              s: RunSnapshot): (r: (seq<Event>, RunSnapshot))
    ensures |r.0| == 2 && r.0[0].ActionEv? && r.0[1].Completed?
    ensures r.0[0].act.action.id == Runner.NoteId(ENGINE, s.noteSeq + 1) && r.0[0].act.level == Some(LevelWarning)
    ensures !r.0[1].completed.ok && r.0[1].completed.answer == AnswerOf(s)
    ensures r.0[1].completed.resume == (if found.Some? then found else resume)
    ensures r.0[0].act.message.Some? && r.0[1].completed.error == r.0[0].act.message
    ensures r.1 == s.(noteSeq := s.noteSeq + 1)
  {
    var message := "codex exec failed (rc=" + Text.IntToString(rc) + ").";
    var n := s.noteSeq + 1;
    ([Runner.NoteEvent(ENGINE, Runner.NoteId(ENGINE, n), message, false, [("stderr_tail", Json.Str(stderrTail))]),
      CompletedFor(false, s, resume, found, Some(message), None)],
     s.(noteSeq := n))
  }

  /** `CodexRunner.handle_started_event`: the generic check, with Codex's own messages. */
  function HandleStartedEvent(event: StartedEvent, expected: Option<ResumeToken>, found: Option<ResumeToken>)
    : (r: Result<(Option<ResumeToken>, bool)>)
  {
    if event.engine != ENGINE then Err("codex emitted session token for engine " + Text.Repr(event.engine))
    else if expected.Some? && event.resume != expected.value then Err("codex emitted a different session id than expected")
    else if found.None? then Ok((Some(event.resume), true))
    else if event.resume != found.value then Err("codex emitted a different session id than expected")
    else Ok((found, false))
  }

  /** Codex accepts and rejects exactly the `Started` events the shared runner
      protocol does, with the same outcome. */
  lemma HandleStartedAgrees(event: StartedEvent, expected: Option<ResumeToken>, found: Option<ResumeToken>)
    ensures var r := HandleStartedEvent(event, expected, found);
            var g := Runner.HandleStartedEvent(ENGINE, event, expected, found);
            r.Ok? == g.Ok? && (r.Ok? ==> r.value == g.value)
  {
  }

  /** `CodexRunState` with the runner's `next_note_id` on it. */
  class CodexRunState {
    var noteSeq: nat
    var finalAnswer: Option<string>
    var turnIndex: nat

    constructor ()
      ensures noteSeq == 0 && finalAnswer.None? && turnIndex == 0
    {
      noteSeq := 0;
      finalAnswer := None;
      turnIndex := 0;
    }

    function Snapshot(): RunSnapshot
      reads this
    {
      RunSnapshot(noteSeq, finalAnswer, turnIndex)
    }

    /** `next_note_id`. */
    method NextNoteId() returns (id: string)
      modifies this
      ensures noteSeq == old(noteSeq) + 1 && id == Runner.NoteId(ENGINE, noteSeq)
      ensures finalAnswer == old(finalAnswer) && turnIndex == old(turnIndex)
    {
      noteSeq := noteSeq + 1;
      id := Runner.NoteId(ENGINE, noteSeq);
    }
  }

  /** `CodexRunner`: the session title given to `Started` events. */
  class CodexRunner {
    const sessionTitle: string

    constructor (title: string)
      ensures sessionTitle == title
    {
      sessionTitle := title;
    }

    /** `translate`, updating the run state in place. */
    method Translate(data: Json.Fields, state: CodexRunState, resume: Option<ResumeToken>, found: Option<ResumeToken>,
                     relativize: string -> string) returns (es: seq<Event>)
      modifies state
      ensures (es, state.Snapshot()) == TranslateStep(data, old(state.Snapshot()), resume, found, sessionTitle, relativize)
    {
      var etype := Json.GetV(data, "type");
      if etype == Json.Str("error") {
        var message := Json.ToStr(Json.Or(Json.GetV(data, "message"), Json.Str("codex error")));
        var fatalFlag := Json.GetV(data, "fatal");
        if fatalFlag == Json.Bool(true) || fatalFlag == Json.Null {
          return [Completed(CompletedEvent(ENGINE, false, state.finalAnswer.GetOr(""), OrElse(found, resume), Some(message), None))];
        }
        var noteId := state.NextNoteId();
        return [Runner.NoteEvent(ENGINE, noteId, message, false, [("code", Json.GetV(data, "code")), ("fatal", fatalFlag)])];
      }
      if etype == Json.Str("turn.failed") {
        var error := Json.Or(Json.GetV(data, "error"), Json.Obj([]));
        var message := Json.ToStr(Json.Or(Json.Get(error, "message").GetOr(Json.Null), Json.Str("codex turn failed")));
        return [Completed(CompletedEvent(ENGINE, false, state.finalAnswer.GetOr(""), OrElse(found, resume), Some(message), None))];
      }
      if etype == Json.Str("turn.rate_limited") {
        var message := RateLimitMessage(Json.GetV(data, "retry_after_ms"));
        var noteId := state.NextNoteId();
        return [Runner.NoteEvent(ENGINE, noteId, message, false, [])];
      }
      if etype == Json.Str("turn.started") {
        var actionId := "turn_" + Text.NatToString(state.turnIndex);
        state.turnIndex := state.turnIndex + 1;
        return [ActionEvt(PhaseStarted, actionId, Turn, "turn started", [], None)];
      }
      if etype == Json.Str("turn.completed") {
        var usage := Json.GetV(data, "usage");
        return [Completed(CompletedEvent(ENGINE, true, state.finalAnswer.GetOr(""), OrElse(found, resume), None,
          if usage.Null? then None else Some(usage)))];
      }
      if etype == Json.Str("item.completed") {
        var item := ItemFields(data);
        var text := Json.GetV(item, "text");
        if ItemTypeOf(item) == Json.Str("agent_message") && text.Str? {
          state.finalAnswer := Some(text.s);
        }
      }
      es := TranslateCodexEvent(data, sessionTitle, relativize);
    }

    /** `process_error_events`, taking the note id from the run state. */
    method ProcessErrorEvents(rc: int, state: CodexRunState, resume: Option<ResumeToken>, found: Option<ResumeToken>,
                              stderrTail: string) returns (es: seq<Event>)
      modifies state
      ensures (es, state.Snapshot()) == ProcessErrorStep(rc, resume, found, stderrTail, old(state.Snapshot()))
    {
      var message := "codex exec failed (rc=" + Text.IntToString(rc) + ").";
      var noteId := state.NextNoteId();
      es := [Runner.NoteEvent(ENGINE, noteId, message, false, [("stderr_tail", Json.Str(stderrTail))]),
             Completed(CompletedEvent(ENGINE, false, state.finalAnswer.GetOr(""), OrElse(found, resume), Some(message), None))];
    }
  }
}
