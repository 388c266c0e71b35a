/** The Claude Code engine runner: how the `stream-json` events of `claude -p`
    become Takopi events. A tool call announced by the assistant waits in the
    table of pending actions until a user turn carries its result; the
    `result` event reports permission denials and then completes the run. */
module Claude {
  import opened Wrappers
  import opened Model
  import Json
  import Text
  import Runner
  import ToolActions

  const ENGINE: EngineId := "claude"

  /** The keys `_tool_input_path` tries, in order. */
  const PATH_KEYS: seq<string> := ["file_path", "path"]

  // ---------------------------------------------------------------------------
  // Helpers

  /** The text of one entry of a list result: a dict's string `text`, or the string itself. */
  function PartOf(item: Json.Value): string {
    if item.Obj? && Json.GetV(item.fields, "text").Str? then Json.GetV(item.fields, "text").s
    else if item.Str? then item.s
    else []
  }

  /** The non-empty texts of a list result, in order. */
  function ResultParts(items: seq<Json.Value>): (r: seq<string>)
    ensures |r| <= |items|
    ensures forall i :: 0 <= i < |r| ==> r[i] != []
  {
    if items == [] then []
    else (if PartOf(items[0]) != [] then [PartOf(items[0])] else []) + ResultParts(items[1..])
  }

  /** `_normalize_tool_result`: a list becomes its texts joined by newlines,
      `None` the empty string, a string itself, anything else its `str`. */
  function NormalizeToolResult(content: Json.Value): (r: string)
    ensures content.Null? ==> r == []
    ensures content.Str? ==> r == content.s
  {
    match content
    case Arr(items) => Text.Join(ResultParts(items), "\n")
    case Null => []
    case _ => Json.ToStr(content)
  }

  /** The texts of a list result can be recovered by splitting it on newlines
      when none of them holds a newline. */
  lemma NormalizeSplitsBack(items: seq<Json.Value>)
    requires ResultParts(items) != []
    requires forall i :: 0 <= i < |ResultParts(items)| ==> '\n' !in ResultParts(items)[i]
    ensures Text.Split(NormalizeToolResult(Json.Arr(items)), '\n') == ResultParts(items)
  {
    Text.SplitJoin(ResultParts(items), '\n');
  }

  /** `x if isinstance(x, str) else None`. */
  function StrOrNone(v: Json.Value): (r: Option<string>)
    ensures r.Some? <==> v.Str?
  {
    if v.Str? then Some(v.s) else None
  }

  /** The tool names Claude's own table knows, spelt exactly. */
  const CLAUDE_TOOLS: set<string> := {
    "Bash", "Shell", "KillShell", "Edit", "Write", "NotebookEdit", "MultiEdit", "Read", "Glob", "Grep",
    "WebSearch", "WebFetch", "TodoWrite", "TodoRead", "AskUserQuestion", "Task", "Agent"}

  /** `_tool_kind_and_title` of the Claude runner: exact names, no `Find` or
      `LS`, and `Task` or `Agent` shown as plain tools. */
  function ClaudeKindAndTitle(name: string, input: Json.Fields, relativizeCommand: string -> string,
                              relativizePath: string -> string): (r: (ActionKind, string))
    ensures name !in CLAUDE_TOOLS ==> r == (Tool, name)
  {
    if name in {"Bash", "Shell", "KillShell"} then
      (Command, relativizeCommand(Json.ToStr(Json.Or(Json.GetV(input, "command"), Json.Str(name)))))
    else if name in {"Edit", "Write", "NotebookEdit", "MultiEdit"} then
      match ToolActions.ToolInputPath(input, PATH_KEYS)
      case Some(p) => (FileChange, relativizePath(p))
      case None => (FileChange, name)
    else if name == "Read" then
      match ToolActions.ToolInputPath(input, PATH_KEYS)
      case Some(p) => (Tool, "read: `" + relativizePath(p) + "`")
      case None => (Tool, "read")
    else if name == "Glob" then (Tool, ToolActions.PatternTitle("glob", Json.GetV(input, "pattern"), true))
    else if name == "Grep" then (Tool, ToolActions.PatternTitle("grep", Json.GetV(input, "pattern"), false))
    else if name == "WebSearch" then (WebSearch, Json.ToStr(Json.Or(Json.GetV(input, "query"), Json.Str("search"))))
    else if name == "WebFetch" then (WebSearch, Json.ToStr(Json.Or(Json.GetV(input, "url"), Json.Str("fetch"))))
    else if name in {"TodoWrite", "TodoRead"} then (Note, if name == "TodoWrite" then "update todos" else "read todos")
    else if name == "AskUserQuestion" then (Note, "ask user")
    else if name in {"Task", "Agent"} then
      (Tool, Json.ToStr(Json.Or(Json.Or(Json.GetV(input, "description"), Json.GetV(input, "prompt")), Json.Str(name))))
    else (Tool, name)
  }

  /** On the names Claude's table knows, it says what the shared table says
      with the keys `file_path`, `path` and tasks shown as tools. */
  lemma ClaudeAgreesWithShared(name: string, input: Json.Fields, relativizeCommand: string -> string,
                               relativizePath: string -> string)
    requires name in CLAUDE_TOOLS
    ensures ClaudeKindAndTitle(name, input, relativizeCommand, relativizePath)
         == ToolActions.ToolKindAndTitle(name, input, PATH_KEYS, Tool, relativizeCommand, relativizePath)
  {
    if name == "Bash" || name == "Shell" || name == "KillShell" {
      AgreeCommands(name, input, relativizeCommand, relativizePath);
    } else if name == "Edit" || name == "Write" || name == "NotebookEdit" || name == "MultiEdit" {
      AgreeEdits(name, input, relativizeCommand, relativizePath);
    } else if name == "Read" || name == "Glob" || name == "Grep" {
      AgreeReads(name, input, relativizeCommand, relativizePath);
    } else if name == "WebSearch" || name == "WebFetch" {
      AgreeWebTools(name, input, relativizeCommand, relativizePath);
    } else if name == "TodoWrite" || name == "TodoRead" || name == "AskUserQuestion" {
      AgreeNotes(name, input, relativizeCommand, relativizePath);
    } else {
      AgreeTasks(name, input, relativizeCommand, relativizePath);
    }
  }

  lemma AgreeCommands(name: string, input: Json.Fields, relativizeCommand: string -> string, relativizePath: string -> string)
    requires name == "Bash" || name == "Shell" || name == "KillShell"
    ensures ClaudeKindAndTitle(name, input, relativizeCommand, relativizePath)
         == ToolActions.ToolKindAndTitle(name, input, PATH_KEYS, Tool, relativizeCommand, relativizePath)
  {
    if name == "Bash" {
      AgreeBash(input, relativizeCommand, relativizePath);
    } else if name == "Shell" {
      AgreeShell(input, relativizeCommand, relativizePath);
    } else {
      AgreeKillShell(input, relativizeCommand, relativizePath);
    }
  }

  lemma AgreeEdits(name: string, input: Json.Fields, relativizeCommand: string -> string, relativizePath: string -> string)
    requires name == "Edit" || name == "Write" || name == "NotebookEdit" || name == "MultiEdit"
    ensures ClaudeKindAndTitle(name, input, relativizeCommand, relativizePath)
         == ToolActions.ToolKindAndTitle(name, input, PATH_KEYS, Tool, relativizeCommand, relativizePath)
  {
    if name == "Edit" {
      AgreeEdit(input, relativizeCommand, relativizePath);
    } else if name == "Write" {
      AgreeWrite(input, relativizeCommand, relativizePath);
    } else if name == "NotebookEdit" {
      AgreeNotebookEdit(input, relativizeCommand, relativizePath);
    } else {
      AgreeMultiEdit(input, relativizeCommand, relativizePath);
    }
  }

  lemma AgreeReads(name: string, input: Json.Fields, relativizeCommand: string -> string, relativizePath: string -> string)
    requires name == "Read" || name == "Glob" || name == "Grep"
    ensures ClaudeKindAndTitle(name, input, relativizeCommand, relativizePath)
         == ToolActions.ToolKindAndTitle(name, input, PATH_KEYS, Tool, relativizeCommand, relativizePath)
  {
    if name == "Read" {
      AgreeRead(input, relativizeCommand, relativizePath);
    } else if name == "Glob" {
      AgreeGlob(input, relativizeCommand, relativizePath);
    } else {
      AgreeGrep(input, relativizeCommand, relativizePath);
    }
  }

  lemma AgreeWebTools(name: string, input: Json.Fields, relativizeCommand: string -> string, relativizePath: string -> string)
    requires name == "WebSearch" || name == "WebFetch"
    ensures ClaudeKindAndTitle(name, input, relativizeCommand, relativizePath)
         == ToolActions.ToolKindAndTitle(name, input, PATH_KEYS, Tool, relativizeCommand, relativizePath)
  {
    if name == "WebSearch" {
      AgreeWebSearch(input, relativizeCommand, relativizePath);
    } else {
      AgreeWebFetch(input, relativizeCommand, relativizePath);
    }
  }

  lemma AgreeNotes(name: string, input: Json.Fields, relativizeCommand: string -> string, relativizePath: string -> string)
    requires name == "TodoWrite" || name == "TodoRead" || name == "AskUserQuestion"
    ensures ClaudeKindAndTitle(name, input, relativizeCommand, relativizePath)
         == ToolActions.ToolKindAndTitle(name, input, PATH_KEYS, Tool, relativizeCommand, relativizePath)
  {
    if name == "TodoWrite" {
      AgreeTodoWrite(input, relativizeCommand, relativizePath);
    } else if name == "TodoRead" {
      AgreeTodoRead(input, relativizeCommand, relativizePath);
    } else {
      AgreeAskUserQuestion(input, relativizeCommand, relativizePath);
    }
  }

  lemma AgreeTasks(name: string, input: Json.Fields, relativizeCommand: string -> string, relativizePath: string -> string)
    requires name == "Task" || name == "Agent"
    ensures ClaudeKindAndTitle(name, input, relativizeCommand, relativizePath)
         == ToolActions.ToolKindAndTitle(name, input, PATH_KEYS, Tool, relativizeCommand, relativizePath)
  {
    if name == "Task" {
      AgreeTask(input, relativizeCommand, relativizePath);
    } else {
      AgreeAgent(input, relativizeCommand, relativizePath);
    }
  }

  // The two tables on each name Claude knows.

  lemma AgreeBash(input: Json.Fields, relativizeCommand: string -> string, relativizePath: string -> string)
    ensures ClaudeKindAndTitle("Bash", input, relativizeCommand, relativizePath)
         == ToolActions.ToolKindAndTitle("Bash", input, PATH_KEYS, Tool, relativizeCommand, relativizePath)
  {
    var expected := (Command, relativizeCommand(Json.ToStr(Json.Or(Json.GetV(input, "command"), Json.Str("Bash")))));
    assert ClaudeKindAndTitle("Bash", input, relativizeCommand, relativizePath) == expected;
    assert Text.Lower("Bash") == "bash";
    assert ToolActions.ToolKindAndTitle("Bash", input, PATH_KEYS, Tool, relativizeCommand, relativizePath) == expected;
  }

  lemma AgreeShell(input: Json.Fields, relativizeCommand: string -> string, relativizePath: string -> string)
    ensures ClaudeKindAndTitle("Shell", input, relativizeCommand, relativizePath)
         == ToolActions.ToolKindAndTitle("Shell", input, PATH_KEYS, Tool, relativizeCommand, relativizePath)
  {
    var expected := (Command, relativizeCommand(Json.ToStr(Json.Or(Json.GetV(input, "command"), Json.Str("Shell")))));
    assert ClaudeKindAndTitle("Shell", input, relativizeCommand, relativizePath) == expected;
    assert Text.Lower("Shell") == "shell";
    assert ToolActions.ToolKindAndTitle("Shell", input, PATH_KEYS, Tool, relativizeCommand, relativizePath) == expected;
  }

  lemma AgreeKillShell(input: Json.Fields, relativizeCommand: string -> string, relativizePath: string -> string)
    ensures ClaudeKindAndTitle("KillShell", input, relativizeCommand, relativizePath)
         == ToolActions.ToolKindAndTitle("KillShell", input, PATH_KEYS, Tool, relativizeCommand, relativizePath)
  {
    var expected := (Command, relativizeCommand(Json.ToStr(Json.Or(Json.GetV(input, "command"), Json.Str("KillShell")))));
    assert ClaudeKindAndTitle("KillShell", input, relativizeCommand, relativizePath) == expected;
    assert Text.Lower("KillShell") == "killshell";
    assert ToolActions.ToolKindAndTitle("KillShell", input, PATH_KEYS, Tool, relativizeCommand, relativizePath) == expected;
  }

  lemma AgreeEdit(input: Json.Fields, relativizeCommand: string -> string, relativizePath: string -> string)
    ensures ClaudeKindAndTitle("Edit", input, relativizeCommand, relativizePath)
         == ToolActions.ToolKindAndTitle("Edit", input, PATH_KEYS, Tool, relativizeCommand, relativizePath)
  {
    var expected := (FileChange, match ToolActions.ToolInputPath(input, PATH_KEYS) case Some(p) => relativizePath(p) case None => "Edit");
    assert ClaudeKindAndTitle("Edit", input, relativizeCommand, relativizePath) == expected;
    assert Text.Lower("Edit") == "edit";
    assert ToolActions.ToolKindAndTitle("Edit", input, PATH_KEYS, Tool, relativizeCommand, relativizePath) == expected;
  }

  lemma AgreeWrite(input: Json.Fields, relativizeCommand: string -> string, relativizePath: string -> string)
    ensures ClaudeKindAndTitle("Write", input, relativizeCommand, relativizePath)
         == ToolActions.ToolKindAndTitle("Write", input, PATH_KEYS, Tool, relativizeCommand, relativizePath)
  {
    var expected := (FileChange, match ToolActions.ToolInputPath(input, PATH_KEYS) case Some(p) => relativizePath(p) case None => "Write");
    assert ClaudeKindAndTitle("Write", input, relativizeCommand, relativizePath) == expected;
    assert Text.Lower("Write") == "write";
    assert ToolActions.ToolKindAndTitle("Write", input, PATH_KEYS, Tool, relativizeCommand, relativizePath) == expected;
  }

  lemma AgreeNotebookEdit(input: Json.Fields, relativizeCommand: string -> string, relativizePath: string -> string)
    ensures ClaudeKindAndTitle("NotebookEdit", input, relativizeCommand, relativizePath)
         == ToolActions.ToolKindAndTitle("NotebookEdit", input, PATH_KEYS, Tool, relativizeCommand, relativizePath)
  {
    var expected := (FileChange, match ToolActions.ToolInputPath(input, PATH_KEYS) case Some(p) => relativizePath(p) case None => "NotebookEdit");
    assert ClaudeKindAndTitle("NotebookEdit", input, relativizeCommand, relativizePath) == expected;
    assert Text.Lower("NotebookEdit") == "notebookedit";
    assert ToolActions.ToolKindAndTitle("NotebookEdit", input, PATH_KEYS, Tool, relativizeCommand, relativizePath) == expected;
  }

  lemma AgreeMultiEdit(input: Json.Fields, relativizeCommand: string -> string, relativizePath: string -> string)
    ensures ClaudeKindAndTitle("MultiEdit", input, relativizeCommand, relativizePath)
         == ToolActions.ToolKindAndTitle("MultiEdit", input, PATH_KEYS, Tool, relativizeCommand, relativizePath)
  {
    var expected := (FileChange, match ToolActions.ToolInputPath(input, PATH_KEYS) case Some(p) => relativizePath(p) case None => "MultiEdit");
    assert ClaudeKindAndTitle("MultiEdit", input, relativizeCommand, relativizePath) == expected;
    assert Text.Lower("MultiEdit") == "multiedit";
    assert ToolActions.ToolKindAndTitle("MultiEdit", input, PATH_KEYS, Tool, relativizeCommand, relativizePath) == expected;
  }

  lemma AgreeRead(input: Json.Fields, relativizeCommand: string -> string, relativizePath: string -> string)
    ensures ClaudeKindAndTitle("Read", input, relativizeCommand, relativizePath)
         == ToolActions.ToolKindAndTitle("Read", input, PATH_KEYS, Tool, relativizeCommand, relativizePath)
  {
    var expected := (Tool, match ToolActions.ToolInputPath(input, PATH_KEYS) case Some(p) => "read: `" + relativizePath(p) + "`" case None => "read");
    assert ClaudeKindAndTitle("Read", input, relativizeCommand, relativizePath) == expected;
    assert Text.Lower("Read") == "read";
    assert ToolActions.ToolKindAndTitle("Read", input, PATH_KEYS, Tool, relativizeCommand, relativizePath) == expected;
  }

  lemma AgreeGlob(input: Json.Fields, relativizeCommand: string -> string, relativizePath: string -> string)
    ensures ClaudeKindAndTitle("Glob", input, relativizeCommand, relativizePath)
         == ToolActions.ToolKindAndTitle("Glob", input, PATH_KEYS, Tool, relativizeCommand, relativizePath)
  {
    var expected := (Tool, ToolActions.PatternTitle("glob", Json.GetV(input, "pattern"), true));
    assert ClaudeKindAndTitle("Glob", input, relativizeCommand, relativizePath) == expected;
    assert Text.Lower("Glob") == "glob";
    assert ToolActions.ToolKindAndTitle("Glob", input, PATH_KEYS, Tool, relativizeCommand, relativizePath) == expected;
  }

  lemma AgreeGrep(input: Json.Fields, relativizeCommand: string -> string, relativizePath: string -> string)
    ensures ClaudeKindAndTitle("Grep", input, relativizeCommand, relativizePath)
         == ToolActions.ToolKindAndTitle("Grep", input, PATH_KEYS, Tool, relativizeCommand, relativizePath)
  {
    var expected := (Tool, ToolActions.PatternTitle("grep", Json.GetV(input, "pattern"), false));
    assert ClaudeKindAndTitle("Grep", input, relativizeCommand, relativizePath) == expected;
    assert Text.Lower("Grep") == "grep";
    assert ToolActions.ToolKindAndTitle("Grep", input, PATH_KEYS, Tool, relativizeCommand, relativizePath) == expected;
  }

  lemma AgreeWebSearch(input: Json.Fields, relativizeCommand: string -> string, relativizePath: string -> string)
    ensures ClaudeKindAndTitle("WebSearch", input, relativizeCommand, relativizePath)
         == ToolActions.ToolKindAndTitle("WebSearch", input, PATH_KEYS, Tool, relativizeCommand, relativizePath)
  {
    var expected := (WebSearch, Json.ToStr(Json.Or(Json.GetV(input, "query"), Json.Str("search"))));
    assert ClaudeKindAndTitle("WebSearch", input, relativizeCommand, relativizePath) == expected;
    assert Text.Lower("WebSearch") == "websearch";
    assert ToolActions.ToolKindAndTitle("WebSearch", input, PATH_KEYS, Tool, relativizeCommand, relativizePath) == expected;
  }

  lemma AgreeWebFetch(input: Json.Fields, relativizeCommand: string -> string, relativizePath: string -> string)
    ensures ClaudeKindAndTitle("WebFetch", input, relativizeCommand, relativizePath)
         == ToolActions.ToolKindAndTitle("WebFetch", input, PATH_KEYS, Tool, relativizeCommand, relativizePath)
  {
    var expected := (WebSearch, Json.ToStr(Json.Or(Json.GetV(input, "url"), Json.Str("fetch"))));
    assert ClaudeKindAndTitle("WebFetch", input, relativizeCommand, relativizePath) == expected;
    assert Text.Lower("WebFetch") == "webfetch";
    assert ToolActions.ToolKindAndTitle("WebFetch", input, PATH_KEYS, Tool, relativizeCommand, relativizePath) == expected;
  }

  lemma AgreeTodoWrite(input: Json.Fields, relativizeCommand: string -> string, relativizePath: string -> string)
    ensures ClaudeKindAndTitle("TodoWrite", input, relativizeCommand, relativizePath)
         == ToolActions.ToolKindAndTitle("TodoWrite", input, PATH_KEYS, Tool, relativizeCommand, relativizePath)
  {
    var expected := (Note, "update todos");
    assert ClaudeKindAndTitle("TodoWrite", input, relativizeCommand, relativizePath) == expected;
    assert Text.Lower("TodoWrite") == "todowrite";
    assert ToolActions.ToolKindAndTitle("TodoWrite", input, PATH_KEYS, Tool, relativizeCommand, relativizePath) == expected;
  }

  lemma AgreeTodoRead(input: Json.Fields, relativizeCommand: string -> string, relativizePath: string -> string)
    ensures ClaudeKindAndTitle("TodoRead", input, relativizeCommand, relativizePath)
         == ToolActions.ToolKindAndTitle("TodoRead", input, PATH_KEYS, Tool, relativizeCommand, relativizePath)
  {
    var expected := (Note, "read todos");
    assert ClaudeKindAndTitle("TodoRead", input, relativizeCommand, relativizePath) == expected;
    assert Text.Lower("TodoRead") == "todoread";
    assert ToolActions.ToolKindAndTitle("TodoRead", input, PATH_KEYS, Tool, relativizeCommand, relativizePath) == expected;
  }

  lemma AgreeAskUserQuestion(input: Json.Fields, relativizeCommand: string -> string, relativizePath: string -> string)
    ensures ClaudeKindAndTitle("AskUserQuestion", input, relativizeCommand, relativizePath)
         == ToolActions.ToolKindAndTitle("AskUserQuestion", input, PATH_KEYS, Tool, relativizeCommand, relativizePath)
  {
    var expected := (Note, "ask user");
    assert ClaudeKindAndTitle("AskUserQuestion", input, relativizeCommand, relativizePath) == expected;
    assert Text.Lower("AskUserQuestion") == "askuserquestion";
    assert ToolActions.ToolKindAndTitle("AskUserQuestion", input, PATH_KEYS, Tool, relativizeCommand, relativizePath) == expected;
  }

  lemma AgreeTask(input: Json.Fields, relativizeCommand: string -> string, relativizePath: string -> string)
    ensures ClaudeKindAndTitle("Task", input, relativizeCommand, relativizePath)
         == ToolActions.ToolKindAndTitle("Task", input, PATH_KEYS, Tool, relativizeCommand, relativizePath)
  {
    var expected := (Tool, Json.ToStr(Json.Or(Json.Or(Json.GetV(input, "description"), Json.GetV(input, "prompt")), Json.Str("Task"))));
    assert ClaudeKindAndTitle("Task", input, relativizeCommand, relativizePath) == expected;
    assert Text.Lower("Task") == "task";
    assert ToolActions.ToolKindAndTitle("Task", input, PATH_KEYS, Tool, relativizeCommand, relativizePath) == expected;
  }

  lemma AgreeAgent(input: Json.Fields, relativizeCommand: string -> string, relativizePath: string -> string)
    ensures ClaudeKindAndTitle("Agent", input, relativizeCommand, relativizePath)
         == ToolActions.ToolKindAndTitle("Agent", input, PATH_KEYS, Tool, relativizeCommand, relativizePath)
  {
    var expected := (Tool, Json.ToStr(Json.Or(Json.Or(Json.GetV(input, "description"), Json.GetV(input, "prompt")), Json.Str("Agent"))));
    assert ClaudeKindAndTitle("Agent", input, relativizeCommand, relativizePath) == expected;
    assert Text.Lower("Agent") == "agent";
    assert ToolActions.ToolKindAndTitle("Agent", input, PATH_KEYS, Tool, relativizeCommand, relativizePath) == expected;
  }

  /** `str(content.get("name") or "tool")`. */
  function ToolName(content: Json.Fields): string {
    Json.ToStr(Json.Or(Json.GetV(content, "name"), Json.Str("tool")))
  }

  /** `content.get("input")` when it is a dict, else `{}`. */
  function ToolInput(content: Json.Fields): Json.Fields {
    var v := Json.GetV(content, "input");
    if v.Obj? then v.fields else []
  }

  /** `_tool_action`: the action of a `tool_use` block, keyed by its id; a
      block without a non-empty string id gives none. A file change also
      records the path it changes. */
  function ToolAction(content: Json.Fields, messageId: Option<string>, parentId: Option<string>,
                      relativizeCommand: string -> string, relativizePath: string -> string): (r: Option<Action>)
    ensures r.Some? <==> Json.NonEmptyStr(Json.GetV(content, "id"))
    ensures r.Some? ==> r.value.id == Json.GetV(content, "id").s
    ensures r.Some? ==> (r.value.kind, r.value.title)
                        == ClaudeKindAndTitle(ToolName(content), ToolInput(content), relativizeCommand, relativizePath)
    ensures r.Some? ==> Json.Lookup(r.value.detail, "name") == Some(Json.Str(ToolName(content)))
  {
    var toolId := Json.GetV(content, "id");
    if !Json.NonEmptyStr(toolId) then None
    else
      var name := ToolName(content);
      var input := ToolInput(content);
      var kt := ClaudeKindAndTitle(name, input, relativizeCommand, relativizePath);
      var base: Json.Fields := [("name", Json.Str(name)), ("input", Json.Obj(input))];
      var withMessage := if messageId.Some? && messageId.value != [] then base + [("message_id", Json.Str(messageId.value))] else base;
      var withParent := if parentId.Some? && parentId.value != [] then withMessage + [("parent_tool_use_id", Json.Str(parentId.value))] else withMessage;
      var path := ToolActions.ToolInputPath(input, PATH_KEYS);
      var detail := if kt.0 == FileChange && path.Some? then
          withParent + [("changes", Json.Arr([Json.Obj([("path", Json.Str(path.value)), ("kind", Json.Str("update"))])]))]
        else withParent;
      Some(Action(toolId.s, kt.0, kt.1, detail))
  }

  /** `_tool_result_event`: the completion of `action`, failed exactly when the
      block says `is_error` is `True`, with the normalised result and its
      length added to the action's detail. */
  function ToolResultEvent(content: Json.Fields, action: Action, messageId: Option<string>): (e: Event)
    ensures e.ActionEv? && e.act.engine == ENGINE && e.act.phase == PhaseCompleted
    ensures e.act.action.id == action.id && e.act.action.kind == action.kind && e.act.action.title == action.title
    ensures e.act.ok == Some(Json.GetV(content, "is_error") != Json.Bool(true))
    ensures Json.Lookup(e.act.action.detail, "result_len")
         == Some(Json.Int(|NormalizeToolResult(Json.GetV(content, "content"))|))
    ensures Json.Lookup(e.act.action.detail, "is_error") == Some(Json.Bool(Json.GetV(content, "is_error") == Json.Bool(true)))
  {
    var isError := Json.GetV(content, "is_error") == Json.Bool(true);
    var normalized := NormalizeToolResult(Json.GetV(content, "content"));
    var detail := ResultDetail(content, action, messageId, isError, normalized);
    ActionEv(ActionEvent(ENGINE, Action(action.id, action.kind, action.title, detail), PhaseCompleted, Some(!isError), None, None))
  }

  function ResultDetail(content: Json.Fields, action: Action, messageId: Option<string>, isError: bool, normalized: string): (detail: Json.Fields)
    ensures Json.Lookup(detail, "result_len") == Some(Json.Int(|normalized|))
    ensures Json.Lookup(detail, "is_error") == Some(Json.Bool(isError))
  {
    var d1 := Json.Put(action.detail, "tool_use_id", Json.GetV(content, "tool_use_id"));
    var d2 := Json.Put(d1, "result_preview", Json.Str(normalized));
    var d3 := Json.Put(d2, "result_len", Json.Int(|normalized|));
    var d4 := Json.Put(d3, "is_error", Json.Bool(isError));
    if messageId.Some? && messageId.value != [] then Json.Put(d4, "message_id", Json.Str(messageId.value)) else d4
  }

  /** The first usable message of an `errors` list: a dict's non-empty string
      `message` (or `error` when `message` is falsy), or a non-empty string. */
  function FirstListedError(items: seq<Json.Value>): (r: Option<string>)
    ensures r.Some? ==> r.value != []
  {
    if items == [] then None
    else
      var item := items[0];
      var m := if item.Obj? then Json.Or(Json.GetV(item.fields, "message"), Json.GetV(item.fields, "error")) else item;
      if Json.NonEmptyStr(m) then Some(m.s) else FirstListedError(items[1..])
  }

  /** `_extract_error`: the event's `error` string, else the first usable entry
      of `errors`, else `"claude run failed"` when `is_error` is set. */
  function ExtractError(event: Json.Fields): (r: Option<string>)
    ensures r.Some? ==> r.value != []
    ensures Json.NonEmptyStr(Json.GetV(event, "error")) ==> r == Some(Json.GetV(event, "error").s)
    ensures Json.Truthy(Json.GetV(event, "is_error")) ==> r.Some?
  {
    var error := Json.GetV(event, "error");
    if Json.NonEmptyStr(error) then Some(error.s)
    else
      var errors := Json.GetV(event, "errors");
      var listed := if errors.Arr? then FirstListedError(errors.items) else None;
      if listed.Some? then listed
      else if Json.Truthy(Json.GetV(event, "is_error")) then Some("claude run failed")
      else None
  }

  /** The entries of `f` under `keys`, in the order of `keys`: those present
      when `skipNull` is false, those not `None` when it is true. */
  function CopyKeys(f: Json.Fields, keys: seq<string>, skipNull: bool): (r: Json.Fields)
    ensures forall i :: 0 <= i < |r| ==> r[i].0 in keys && Json.Lookup(f, r[i].0) == Some(r[i].1)
    ensures skipNull ==> forall i :: 0 <= i < |r| ==> !r[i].1.Null?
    ensures forall k :: k in keys && Json.Lookup(f, k).Some? && !(skipNull && Json.Lookup(f, k).value.Null?) ==>
      Json.HasKey(r, k)
  {
    if keys == [] then []
    else
      var v := Json.Lookup(f, keys[0]);
      var head: Json.Fields := if v.Some? && !(skipNull && v.value.Null?) then [(keys[0], v.value)] else [];
      var rest := CopyKeys(f, keys[1..], skipNull);
      CopiedEntries(f, keys, head, rest);
      CopiedKeys(f, keys, skipNull, head, rest);
      NullsSkipped(skipNull, head, rest);
      head + rest
  }

  /** The entry of the first key, put before the copied rest, keeps what
      `CopyKeys` promises: each copied entry is the dict's own, */
  lemma CopiedEntries(f: Json.Fields, keys: seq<string>, head: Json.Fields, rest: Json.Fields)
    requires keys != []
    requires head == [] || (head == [(keys[0], Json.Lookup(f, keys[0]).GetOr(Json.Null))] && Json.Lookup(f, keys[0]).Some?)
    requires forall i :: 0 <= i < |rest| ==> rest[i].0 in keys[1..] && Json.Lookup(f, rest[i].0) == Some(rest[i].1)
    ensures forall i :: 0 <= i < |head + rest| ==>
      (head + rest)[i].0 in keys && Json.Lookup(f, (head + rest)[i].0) == Some((head + rest)[i].1)
  {
    var r := head + rest;
    forall i | 0 <= i < |r|
      ensures r[i].0 in keys && Json.Lookup(f, r[i].0) == Some(r[i].1)
    {
      if i >= |head| {
        assert r[i] == rest[i - |head|];
        assert forall k :: k in keys[1..] ==> k in keys;
      }
    }
  }

  /** no `None` is copied when `None`s are skipped, */
  lemma NullsSkipped(skipNull: bool, head: Json.Fields, rest: Json.Fields)
    requires skipNull ==> head == [] || (|head| == 1 && !head[0].1.Null?)
    requires skipNull ==> forall i :: 0 <= i < |rest| ==> !rest[i].1.Null?
    ensures skipNull ==> forall i :: 0 <= i < |head + rest| ==> !(head + rest)[i].1.Null?
  {
    var r := head + rest;
    if skipNull {
      forall i | 0 <= i < |r| ensures !r[i].1.Null? {
        if i >= |head| {
          assert r[i] == rest[i - |head|];
        }
      }
    }
  }

  /** and every wanted key is copied. */
  lemma CopiedKeys(f: Json.Fields, keys: seq<string>, skipNull: bool, head: Json.Fields, rest: Json.Fields)
    requires keys != []
    requires var v := Json.Lookup(f, keys[0]);
      head == if v.Some? && !(skipNull && v.value.Null?) then [(keys[0], v.value)] else []
    requires forall k :: k in keys[1..] && Json.Lookup(f, k).Some? && !(skipNull && Json.Lookup(f, k).value.Null?) ==>
      Json.HasKey(rest, k)
    ensures forall k :: k in keys && Json.Lookup(f, k).Some? && !(skipNull && Json.Lookup(f, k).value.Null?) ==>
      Json.HasKey(head + rest, k)
  {
    var r := head + rest;
    forall k | k in keys && Json.Lookup(f, k).Some? && !(skipNull && Json.Lookup(f, k).value.Null?)
      ensures Json.HasKey(r, k)
    {
      if k == keys[0] {
        assert Json.Keys(r)[0] == k;
      } else {
        assert k in keys[1..] by {
          var j :| 0 <= j < |keys| && keys[j] == k;
          assert keys[1..][j - 1] == k;
        }
        var j :| 0 <= j < |Json.Keys(rest)| && Json.Keys(rest)[j] == k;
        assert r[|head| + j] == rest[j];
        assert Json.Keys(r)[|head| + j] == k;
      }
    }
  }

  /** The keys `_usage_payload` copies, when not `None`. */
  const USAGE_KEYS: seq<string> := ["total_cost_usd", "duration_ms", "duration_api_ms", "num_turns", "usage", "modelUsage"]

  /** The keys the session metadata copies, when present. */
  const META_KEYS: seq<string> := ["cwd", "tools", "permissionMode", "output_style", "apiKeySource", "mcp_servers"]

  // ---------------------------------------------------------------------------
  // The stream state and the translation of one event

  /** The fields of `ClaudeStreamState`, as a value. */
  datatype StreamSnap = StreamSnap(pending: map<string, Action>, lastText: Option<string>, noteSeq: nat)

  /** Every pending action is filed under its own id. */
  predicate Keyed(pending: map<string, Action>) {
    forall k :: k in pending ==> pending[k].id == k
  }

  /** The ids of the actions of a sequence of action events. */
  function ActionIds(es: seq<Event>): set<string> {
    set i | 0 <= i < |es| && es[i].ActionEv? :: es[i].act.action.id
  }

  function StartedAction(a: Action): Event {
    ActionEv(ActionEvent(ENGINE, a, PhaseStarted, None, None, None))
  }

  /** Adding one event to a sequence adds at most its action's id. */
  lemma ActionIdsSnoc(es: seq<Event>, e: Event)
    ensures ActionIds(es + [e]) == ActionIds(es) + (if e.ActionEv? then {e.act.action.id} else {})
  {
    var r := es + [e];
    assert forall i :: 0 <= i < |es| ==> r[i] == es[i];
    assert r[|es|] == e;
  }

  /** The action a block of an assistant message announces: a `tool_use`
      with a usable id. */
  function Announced(block: Json.Value, messageId: Option<string>, parentId: Option<string>,
                     relativizeCommand: string -> string, relativizePath: string -> string): Option<Action> {
    if block.Obj? && Json.GetV(block.fields, "type") == Json.Str("tool_use") then
      ToolAction(block.fields, messageId, parentId, relativizeCommand, relativizePath)
    else None
  }

  /** The non-empty text of a `text` block. */
  function NewText(block: Json.Value): Option<string> {
    if block.Obj? && Json.GetV(block.fields, "type") == Json.Str("text") && Json.NonEmptyStr(Json.GetV(block.fields, "text"))
    then Some(Json.GetV(block.fields, "text").s)
    else None
  }

  /** One block of an assistant message: an announced tool call becomes a
      pending action and is started; a non-empty text becomes the last
      assistant text; anything else is skipped. */
  function AssistantStep(acc: (seq<Event>, StreamSnap), block: Json.Value, messageId: Option<string>,
                         parentId: Option<string>, relativizeCommand: string -> string,
                         relativizePath: string -> string): (seq<Event>, StreamSnap) {
    match Announced(block, messageId, parentId, relativizeCommand, relativizePath)
    case Some(a) => (acc.0 + [StartedAction(a)], acc.1.(pending := acc.1.pending[a.id := a]))
    case None =>
      match NewText(block)
      case Some(t) => (acc.0, acc.1.(lastText := Some(t)))
      case None => acc
  }

  /** The assistant blocks walked in order from the state `s`. Every event is
      a start, and afterwards exactly the announced ids have been added to
      the pending table. */
  function AssistantFold(blocks: seq<Json.Value>, messageId: Option<string>, parentId: Option<string>,
                         relativizeCommand: string -> string, relativizePath: string -> string,
                         s: StreamSnap): (r: (seq<Event>, StreamSnap))
    ensures forall i :: 0 <= i < |r.0| ==> r.0[i].ActionEv? && r.0[i].act.phase == PhaseStarted
    ensures r.1.pending.Keys == s.pending.Keys + ActionIds(r.0)
    ensures Keyed(s.pending) ==> Keyed(r.1.pending)
    ensures r.1.noteSeq == s.noteSeq
    decreases |blocks|
  {
    if blocks == [] then ([], s)
    else
      var prev := AssistantFold(blocks[..|blocks| - 1], messageId, parentId, relativizeCommand, relativizePath, s);
      var block := blocks[|blocks| - 1];
      match Announced(block, messageId, parentId, relativizeCommand, relativizePath)
      case Some(a) =>
        AssistantFoldStep(s, prev, a);
        (prev.0 + [StartedAction(a)], prev.1.(pending := prev.1.pending[a.id := a]))
      case None => AssistantStep(prev, block, messageId, parentId, relativizeCommand, relativizePath)
  }

  /** The fold over one more block is one more step. */
  lemma AssistantFoldSnoc(blocks: seq<Json.Value>, i: nat, messageId: Option<string>, parentId: Option<string>,
                          relativizeCommand: string -> string, relativizePath: string -> string, s: StreamSnap)
    requires i < |blocks|
    ensures AssistantFold(blocks[..i + 1], messageId, parentId, relativizeCommand, relativizePath, s)
         == AssistantStep(AssistantFold(blocks[..i], messageId, parentId, relativizeCommand, relativizePath, s),
                          blocks[i], messageId, parentId, relativizeCommand, relativizePath)
  {
    assert blocks[..i + 1][..i] == blocks[..i];
  }

  /** One announced action keeps what `AssistantFold` promises. */
  lemma AssistantFoldStep(s: StreamSnap, prev: (seq<Event>, StreamSnap), a: Action)
    requires forall i :: 0 <= i < |prev.0| ==> prev.0[i].ActionEv? && prev.0[i].act.phase == PhaseStarted
    requires prev.1.pending.Keys == s.pending.Keys + ActionIds(prev.0)
    requires Keyed(s.pending) ==> Keyed(prev.1.pending)
    ensures var r := (prev.0 + [StartedAction(a)], prev.1.(pending := prev.1.pending[a.id := a]));
      && (forall i :: 0 <= i < |r.0| ==> r.0[i].ActionEv? && r.0[i].act.phase == PhaseStarted)
      && r.1.pending.Keys == s.pending.Keys + ActionIds(r.0)
      && (Keyed(s.pending) ==> Keyed(r.1.pending))
  {
    ActionIdsSnoc(prev.0, StartedAction(a));
    var r0 := prev.0 + [StartedAction(a)];
    assert forall i :: 0 <= i < |prev.0| ==> r0[i] == prev.0[i];
  }

  /** The action a `tool_result` completes: the pending one, or a synthetic
      tool action when the id is unknown. */
  function ResultTarget(pending: map<string, Action>, toolUseId: string): Action {
    if toolUseId in pending then pending[toolUseId] else Action(toolUseId, Tool, "tool result", [])
  }

  /** The id a block of a user message reports a result for: a
      `tool_result` with a non-empty string `tool_use_id`. */
  function ResultBlockId(block: Json.Value): Option<string> {
    if block.Obj? && Json.GetV(block.fields, "type") == Json.Str("tool_result")
       && Json.NonEmptyStr(Json.GetV(block.fields, "tool_use_id"))
    then Some(Json.GetV(block.fields, "tool_use_id").s)
    else None
  }

  /** One block of a user message: a tool result takes its action out of the
      pending table and completes it. */
  function UserStep(acc: (seq<Event>, StreamSnap), block: Json.Value, messageId: Option<string>): (seq<Event>, StreamSnap) {
    match ResultBlockId(block)
    case None => acc
    case Some(id) =>
      (acc.0 + [ToolResultEvent(block.fields, ResultTarget(acc.1.pending, id), messageId)],
       acc.1.(pending := acc.1.pending - {id}))
  }

  /** The user blocks walked in order from the state `s`. Every event is a
      completion; the pending table only loses entries, and with actions
      filed under their ids it loses exactly the completed ones. */
  function UserFold(blocks: seq<Json.Value>, messageId: Option<string>, s: StreamSnap): (r: (seq<Event>, StreamSnap))
    ensures forall i :: 0 <= i < |r.0| ==> r.0[i].ActionEv? && r.0[i].act.phase == PhaseCompleted
    ensures forall k :: k in r.1.pending ==> k in s.pending && r.1.pending[k] == s.pending[k]
    ensures Keyed(s.pending) ==> r.1.pending.Keys == s.pending.Keys - ActionIds(r.0)
    ensures r.1.lastText == s.lastText && r.1.noteSeq == s.noteSeq
    decreases |blocks|
  {
    if blocks == [] then ([], s)
    else
      var prev := UserFold(blocks[..|blocks| - 1], messageId, s);
      var block := blocks[|blocks| - 1];
      match ResultBlockId(block)
      case None => prev
      case Some(id) =>
        var e := ToolResultEvent(block.fields, ResultTarget(prev.1.pending, id), messageId);
        assert Keyed(s.pending) ==> e.act.action.id == id;
        UserFoldStep(s, prev, id, e);
        (prev.0 + [e], prev.1.(pending := prev.1.pending - {id}))
  }

  /** The fold over one more block is one more step. */
  lemma UserFoldSnoc(blocks: seq<Json.Value>, i: nat, messageId: Option<string>, s: StreamSnap)
    requires i < |blocks|
    ensures UserFold(blocks[..i + 1], messageId, s) == UserStep(UserFold(blocks[..i], messageId, s), blocks[i], messageId)
  {
    assert blocks[..i + 1][..i] == blocks[..i];
  }

  /** One completion keeps what `UserFold` promises. */
  lemma UserFoldStep(s: StreamSnap, prev: (seq<Event>, StreamSnap), id: string, e: Event)
    requires forall i :: 0 <= i < |prev.0| ==> prev.0[i].ActionEv? && prev.0[i].act.phase == PhaseCompleted
    requires forall k :: k in prev.1.pending ==> k in s.pending && prev.1.pending[k] == s.pending[k]
    requires Keyed(s.pending) ==> prev.1.pending.Keys == s.pending.Keys - ActionIds(prev.0)
    requires e.ActionEv? && e.act.phase == PhaseCompleted
    requires Keyed(s.pending) ==> e.act.action.id == id
    ensures var r := (prev.0 + [e], prev.1.(pending := prev.1.pending - {id}));
      && (forall i :: 0 <= i < |r.0| ==> r.0[i].ActionEv? && r.0[i].act.phase == PhaseCompleted)
      && (forall k :: k in r.1.pending ==> k in s.pending && r.1.pending[k] == s.pending[k])
      && (Keyed(s.pending) ==> r.1.pending.Keys == s.pending.Keys - ActionIds(r.0))
  {
    ActionIdsSnoc(prev.0, e);
    var r0 := prev.0 + [e];
    assert forall i :: 0 <= i < |prev.0| ==> r0[i] == prev.0[i];
  }

  /** The warning of one permission denial, at position `idx` of the list. */
  function DenialEvent(denial: Json.Fields, idx: nat): Event {
    var toolName := Json.GetV(denial, "tool_name");
    var title := if Json.NonEmptyStr(toolName) then "permission denied: " + toolName.s else "permission denied";
    var toolUseId := Json.GetV(denial, "tool_use_id");
    var id := "claude.permission." + (if Json.NonEmptyStr(toolUseId) then toolUseId.s else Text.NatToString(idx));
    ActionEv(ActionEvent(ENGINE, Action(id, Warning, title, denial), PhaseCompleted, Some(false), None, Some(LevelWarning)))
  }

  /** The warnings of the dict entries of a denial list, in order. */
  function DenialEvents(denials: seq<Json.Value>): (r: seq<Event>)
    ensures |r| <= |denials|
    ensures forall i :: 0 <= i < |r| ==>
      r[i].ActionEv? && r[i].act.action.kind == Warning && r[i].act.ok == Some(false) && r[i].act.level == Some(LevelWarning)
    decreases |denials|
  {
    if denials == [] then []
    else
      var n := |denials| - 1;
      DenialEvents(denials[..n]) + (if denials[n].Obj? then [DenialEvent(denials[n].fields, n)] else [])
  }

  /** `event.get("permission_denials") or []`, read as a list. */
  function DenialsOf(event: Json.Fields): seq<Json.Value> {
    var ds := Json.Or(Json.GetV(event, "permission_denials"), Json.Arr([]));
    if ds.Arr? then ds.items else []
  }

  /** A `result` succeeds unless `is_error` is set. */
  predicate ResultOk(event: Json.Fields) {
    !Json.Truthy(Json.GetV(event, "is_error"))
  }

  /** The answer of a `result`: its text, or, for a successful result without
      text, the last assistant text. */
  function ResultAnswer(event: Json.Fields, s: StreamSnap): string {
    var result := Json.GetV(event, "result");
    var text := if result.Str? then result.s else [];
    if ResultOk(event) && text == [] && s.lastText.Some? && s.lastText.value != [] then s.lastText.value else text
  }

  /** The completion a `result` event ends the run with. */
  function ResultCompleted(event: Json.Fields, s: StreamSnap): (e: Event)
    ensures e.Completed? && e.completed.engine == ENGINE
    ensures e.completed.ok <==> ResultOk(event)
    ensures e.completed.ok ==> e.completed.error.None?
    ensures !e.completed.ok ==> e.completed.error == ExtractError(event) && e.completed.error.Some?
    ensures e.completed.answer == ResultAnswer(event, s)
    ensures Json.Truthy(Json.GetV(event, "session_id")) <==> e.completed.resume.Some?
  {
    var ok := ResultOk(event);
    var sessionId := Json.GetV(event, "session_id");
    var resume := if Json.Truthy(sessionId) then Some(ResumeToken(ENGINE, Json.ToStr(sessionId))) else None;
    var usage := CopyKeys(event, USAGE_KEYS, true);
    Completed(CompletedEvent(ENGINE, ok, ResultAnswer(event, s), resume, if ok then None else ExtractError(event),
      if usage == [] then None else Some(Json.Obj(usage))))
  }

  /** The answer of a successful result: its own text when it has one, else
      the last assistant text. A failed result never borrows it. */
  lemma ResultAnswerFallback(event: Json.Fields, s: StreamSnap)
    ensures Json.NonEmptyStr(Json.GetV(event, "result")) ==> ResultAnswer(event, s) == Json.GetV(event, "result").s
    ensures !ResultOk(event) && !Json.GetV(event, "result").Str? ==> ResultAnswer(event, s) == []
    ensures ResultOk(event) && !Json.NonEmptyStr(Json.GetV(event, "result")) && s.lastText.Some? ==>
      ResultAnswer(event, s) == s.lastText.value
  {
  }

  /** The events of a `result`: the denial warnings, then the completion. */
  function ResultEvents(event: Json.Fields, s: StreamSnap): (r: seq<Event>)
    ensures r != [] && r[|r| - 1] == ResultCompleted(event, s)
    ensures forall i :: 0 <= i < |r| - 1 ==> r[i].ActionEv? && r[i].act.action.kind == Warning
    ensures CountCompleted(r) == 1 && CountStarted(r) == 0
  {
    var warnings := DenialEvents(DenialsOf(event));
    ActionsCountNothing(warnings);
    CountsAppend(warnings, [ResultCompleted(event, s)]);
    warnings + [ResultCompleted(event, s)]
  }

  /** The session start of a `system`/`init` event: titled by the model when
      one is named, with the session metadata that is present. */
  function SystemInitEvents(event: Json.Fields, title: string): (r: seq<Event>)
    ensures |r| <= 1
    ensures r != [] <==> Json.Truthy(Json.GetV(event, "session_id"))
    ensures r != [] ==> (r[0].Started? && r[0].started.engine == ENGINE
      && r[0].started.resume == ResumeToken(ENGINE, Json.ToStr(Json.GetV(event, "session_id"))))
  {
    var sessionId := Json.GetV(event, "session_id");
    if !Json.Truthy(sessionId) then []
    else
      var model := Json.GetV(event, "model");
      var eventTitle := if Json.Truthy(model) then Json.ToStr(model) else title;
      var meta := CopyKeys(event, META_KEYS, false);
      [Started(StartedEvent(ENGINE, ResumeToken(ENGINE, Json.ToStr(sessionId)), Some(eventTitle),
        if meta == [] then None else Some(meta)))]
  }

  predicate IsInit(event: Json.Fields) {
    Json.GetV(event, "type") == Json.Str("system") && Json.GetV(event, "subtype") == Json.Str("init")
  }

  /** The message dict of an `assistant` or `user` event and its list of content blocks. */
  function Blocks(event: Json.Fields): Option<seq<Json.Value>> {
    var message := Json.GetV(event, "message");
    if !message.Obj? then None
    else
      var blocks := Json.GetV(message.fields, "content");
      if blocks.Arr? then Some(blocks.items) else None
  }

  function MessageIdOf(event: Json.Fields): Option<string> {
    var message := Json.GetV(event, "message");
    if message.Obj? then StrOrNone(Json.GetV(message.fields, "id")) else None
  }

  /** `translate_claude_event` on the stream state `s`: the events and the new
      state. At most one session start and at most one completion come out,
      a completion only for `result` and then as the last event; only
      assistant and user events touch the state, and they keep every pending
      action filed under its id. */
  function TranslateStep(event: Json.Fields, title: string, s: StreamSnap, relativizeCommand: string -> string,
                         relativizePath: string -> string): (r: (seq<Event>, StreamSnap))
    ensures CountStarted(r.0) <= 1 && CountCompleted(r.0) <= 1
    ensures CountStarted(r.0) == 1 ==> IsInit(event)
    ensures CountCompleted(r.0) == 1 <==> Json.GetV(event, "type") == Json.Str("result")
    ensures CountCompleted(r.0) == 1 ==> r.0[|r.0| - 1].Completed?
    ensures IsInit(event) && !Json.Truthy(Json.GetV(event, "session_id")) ==> r == ([], s)
    ensures r.1.noteSeq == s.noteSeq
    ensures Keyed(s.pending) ==> Keyed(r.1.pending)
    ensures Json.GetV(event, "type") != Json.Str("assistant") && Json.GetV(event, "type") != Json.Str("user") ==> r.1 == s
  {
    var etype := Json.GetV(event, "type");
    if IsInit(event) then
      var es := SystemInitEvents(event, title);
      assert es != [] ==> es[1..] == [];
      (es, s)
    else if etype == Json.Str("assistant") then
      match Blocks(event)
      case None => ([], s)
      case Some(blocks) =>
        var r := AssistantFold(blocks, MessageIdOf(event), StrOrNone(Json.GetV(event, "parent_tool_use_id")),
          relativizeCommand, relativizePath, s);
        ActionsCountNothing(r.0);
        r
    else if etype == Json.Str("user") then
      match Blocks(event)
      case None => ([], s)
      case Some(blocks) =>
        var r := UserFold(blocks, MessageIdOf(event), s);
        ActionsCountNothing(r.0);
        r
    else if etype == Json.Str("result") then (ResultEvents(event, s), s)
    else ([], s)
  }

  /** A tool call announced in one assistant message and answered in the
      next user message: the answer completes the very action that was
      started (same id, kind and title, by the contract of `ToolResultEvent`),
      and the pending table is left as it was before the call. `AnnounceOne`
      and `CompleteOne` say that these are the events `TranslateStep` gives. */
  lemma {:induction false} ToolUseThenResult(useBlock: Json.Value, resultBlock: Json.Value, messageId: Option<string>,
                                             parentId: Option<string>, resultMessageId: Option<string>,
                                             relativizeCommand: string -> string, relativizePath: string -> string,
                                             s: StreamSnap, id: string)
    requires Keyed(s.pending) && id !in s.pending
    requires Announced(useBlock, messageId, parentId, relativizeCommand, relativizePath).Some?
    requires Announced(useBlock, messageId, parentId, relativizeCommand, relativizePath).value.id == id
    requires ResultBlockId(resultBlock) == Some(id)
    ensures var a := Announced(useBlock, messageId, parentId, relativizeCommand, relativizePath).value;
            var first := AssistantFold([useBlock], messageId, parentId, relativizeCommand, relativizePath, s);
            var second := UserFold([resultBlock], resultMessageId, first.1);
            && first.0 == [StartedAction(a)]
            && second.0 == [ToolResultEvent(resultBlock.fields, a, resultMessageId)]
            && second.1.pending == s.pending
  {
    var a := Announced(useBlock, messageId, parentId, relativizeCommand, relativizePath).value;
    AssistantSingle(useBlock, messageId, parentId, relativizeCommand, relativizePath, s, a);
    var first := AssistantFold([useBlock], messageId, parentId, relativizeCommand, relativizePath, s);
    assert first.1.pending == s.pending[id := a];
    UserSingle(resultBlock, resultMessageId, first.1, id);
    AddThenDrop(s.pending, a);
  }

  /** Filing an action under a fresh id and then completing it finds that
      action and leaves the table as it was. */
  lemma AddThenDrop(pending: map<string, Action>, a: Action)
    requires a.id !in pending
    ensures ResultTarget(pending[a.id := a], a.id) == a
    ensures pending[a.id := a] - {a.id} == pending
  {
  }

  /** An assistant message with one announced tool call starts it and files it as pending. */
  lemma {:induction false} AnnounceOne(event: Json.Fields, title: string, s: StreamSnap,
                                       relativizeCommand: string -> string, relativizePath: string -> string,
                                       block: Json.Value)
    requires Json.GetV(event, "type") == Json.Str("assistant") && Blocks(event) == Some([block])
    requires Announced(block, MessageIdOf(event), StrOrNone(Json.GetV(event, "parent_tool_use_id")),
                       relativizeCommand, relativizePath).Some?
    ensures var a := Announced(block, MessageIdOf(event), StrOrNone(Json.GetV(event, "parent_tool_use_id")),
                               relativizeCommand, relativizePath).value;
            var t := TranslateStep(event, title, s, relativizeCommand, relativizePath);
            t.0 == [StartedAction(a)] && t.1.pending == s.pending[a.id := a]
  {
    var messageId := MessageIdOf(event);
    var parentId := StrOrNone(Json.GetV(event, "parent_tool_use_id"));
    var a := Announced(block, messageId, parentId, relativizeCommand, relativizePath).value;
    AssistantSingle(block, messageId, parentId, relativizeCommand, relativizePath, s, a);
    AssistantIsFold(event, title, s, relativizeCommand, relativizePath, [block]);
  }

  /** A user message with one tool result completes its target and drops it from the pending table. */
  lemma {:induction false} CompleteOne(event: Json.Fields, title: string, s: StreamSnap,
                                       relativizeCommand: string -> string, relativizePath: string -> string,
                                       block: Json.Value, id: string)
    requires Json.GetV(event, "type") == Json.Str("user") && Blocks(event) == Some([block])
    requires ResultBlockId(block) == Some(id)
    ensures var t := TranslateStep(event, title, s, relativizeCommand, relativizePath);
            t.0 == [ToolResultEvent(block.fields, ResultTarget(s.pending, id), MessageIdOf(event))]
            && t.1.pending == s.pending - {id}
  {
    UserSingle(block, MessageIdOf(event), s, id);
    UserIsFold(event, title, s, relativizeCommand, relativizePath, [block]);
  }

  lemma {:induction false} AssistantIsFold(event: Json.Fields, title: string, s: StreamSnap,
                                           relativizeCommand: string -> string, relativizePath: string -> string,
                                           blocks: seq<Json.Value>)
    requires Json.GetV(event, "type") == Json.Str("assistant") && Blocks(event) == Some(blocks)
    ensures var f := AssistantFold(blocks, MessageIdOf(event), StrOrNone(Json.GetV(event, "parent_tool_use_id")),
                                   relativizeCommand, relativizePath, s);
            var t := TranslateStep(event, title, s, relativizeCommand, relativizePath);
            t.0 == f.0 && t.1 == f.1
  {
  }

  lemma {:induction false} UserIsFold(event: Json.Fields, title: string, s: StreamSnap,
                                      relativizeCommand: string -> string, relativizePath: string -> string,
                                      blocks: seq<Json.Value>)
    requires Json.GetV(event, "type") == Json.Str("user") && Blocks(event) == Some(blocks)
    ensures var f := UserFold(blocks, MessageIdOf(event), s);
            var t := TranslateStep(event, title, s, relativizeCommand, relativizePath);
            t.0 == f.0 && t.1 == f.1
  {
  }

  lemma {:induction false} AssistantSingle(block: Json.Value, messageId: Option<string>, parentId: Option<string>,
                        relativizeCommand: string -> string, relativizePath: string -> string, s: StreamSnap, a: Action)
    requires Announced(block, messageId, parentId, relativizeCommand, relativizePath) == Some(a)
    ensures AssistantFold([block], messageId, parentId, relativizeCommand, relativizePath, s).0 == [StartedAction(a)]
    ensures AssistantFold([block], messageId, parentId, relativizeCommand, relativizePath, s).1
         == s.(pending := s.pending[a.id := a])
  {
    assert [block][..0] == [];
  }

  lemma {:induction false} UserSingle(block: Json.Value, messageId: Option<string>, s: StreamSnap, id: string)
    requires ResultBlockId(block) == Some(id)
    ensures UserFold([block], messageId, s).0 == [ToolResultEvent(block.fields, ResultTarget(s.pending, id), messageId)]
    ensures UserFold([block], messageId, s).1 == s.(pending := s.pending - {id})
  {
    assert [block][..0] == [];
  }

  /** A result for an id nobody announced completes a synthetic tool action. */
  lemma UnknownResultIsSynthetic(pending: map<string, Action>, block: Json.Fields, messageId: Option<string>,
                                 acc: seq<Event>, s: StreamSnap)
    requires s.pending == pending
    requires Json.GetV(block, "type") == Json.Str("tool_result") && Json.NonEmptyStr(Json.GetV(block, "tool_use_id"))
    requires Json.GetV(block, "tool_use_id").s !in pending
    ensures var r := UserStep((acc, s), Json.Obj(block), messageId);
            var e := r.0[|r.0| - 1];
            && |r.0| == |acc| + 1 && r.1 == s
            && e.act.action == Action(Json.GetV(block, "tool_use_id").s, Tool, "tool result", e.act.action.detail)
  {
    var id := Json.GetV(block, "tool_use_id").s;
    assert pending - {id} == pending;
  }

  /** `ClaudeStreamState`, with the runner's `next_note_id` on it. */
  class ClaudeStreamState {
    var pendingActions: map<string, Action>
    var lastAssistantText: Option<string>
    var noteSeq: nat

    constructor ()
      ensures pendingActions == map[] && lastAssistantText.None? && noteSeq == 0
    {
      pendingActions := map[];
      lastAssistantText := None;
      noteSeq := 0;
    }

    function Snapshot(): StreamSnap
      reads this
    {
      StreamSnap(pendingActions, lastAssistantText, noteSeq)
    }

    /** `next_note_id`. */
    method NextNoteId() returns (id: string)
      modifies this
      ensures noteSeq == old(noteSeq) + 1 && id == Runner.NoteId(ENGINE, noteSeq)
      ensures pendingActions == old(pendingActions) && lastAssistantText == old(lastAssistantText)
    {
      noteSeq := noteSeq + 1;
      id := Runner.NoteId(ENGINE, noteSeq);
    }
  }

  /** The loop over the blocks of an assistant message. */
  method TranslateAssistant(blocks: seq<Json.Value>, messageId: Option<string>, parentId: Option<string>,
                            state: ClaudeStreamState, relativizeCommand: string -> string,
                            relativizePath: string -> string) returns (out: seq<Event>)
    modifies state
    ensures (out, state.Snapshot())
         == AssistantFold(blocks, messageId, parentId, relativizeCommand, relativizePath, old(state.Snapshot()))
  {
    ghost var s0 := state.Snapshot();
    out := [];
    for i := 0 to |blocks|
      invariant (out, state.Snapshot()) == AssistantFold(blocks[..i], messageId, parentId, relativizeCommand, relativizePath, s0)
    {
      AssistantFoldSnoc(blocks, i, messageId, parentId, relativizeCommand, relativizePath, s0);
      var block := blocks[i];
      if !block.Obj? {
        continue;
      }
      var ctype := Json.GetV(block.fields, "type");
      if ctype == Json.Str("tool_use") {
        var action := ToolAction(block.fields, messageId, parentId, relativizeCommand, relativizePath);
        if action.None? {
          continue;
        }
        state.pendingActions := state.pendingActions[action.value.id := action.value];
        out := out + [StartedAction(action.value)];
      } else if ctype == Json.Str("text") {
        var text := Json.GetV(block.fields, "text");
        if text.Str? && text.s != [] {
          state.lastAssistantText := Some(text.s);
        }
      }
    }
    assert blocks[..|blocks|] == blocks;
  }

  /** The loop over the blocks of a user message. */
  method TranslateUser(blocks: seq<Json.Value>, messageId: Option<string>, state: ClaudeStreamState)
    returns (out: seq<Event>)
    modifies state
    ensures (out, state.Snapshot()) == UserFold(blocks, messageId, old(state.Snapshot()))
  {
    ghost var s0 := state.Snapshot();
    out := [];
    for i := 0 to |blocks|
      invariant (out, state.Snapshot()) == UserFold(blocks[..i], messageId, s0)
    {
      assert blocks[..i + 1][..i] == blocks[..i];
      var block := blocks[i];
      var toolUseId := ResultBlockId(block);
      if toolUseId.None? {
        continue;
      }
      var action := ResultTarget(state.pendingActions, toolUseId.value);
      state.pendingActions := state.pendingActions - {toolUseId.value};
      out := out + [ToolResultEvent(block.fields, action, messageId)];
    }
    assert blocks[..|blocks|] == blocks;
  }

  /** The loop over the permission denials of a `result`, then the completion. */
  method TranslateResult(event: Json.Fields, state: ClaudeStreamState) returns (out: seq<Event>)
    ensures out == ResultEvents(event, state.Snapshot())
  {
    var denials := DenialsOf(event);
    out := [];
    for idx := 0 to |denials|
      invariant out == DenialEvents(denials[..idx])
    {
      assert denials[..idx + 1][..idx] == denials[..idx];
      if denials[idx].Obj? {
        out := out + [DenialEvent(denials[idx].fields, idx)];
      }
    }
    assert denials[..|denials|] == denials;
    out := out + [ResultCompleted(event, state.Snapshot())];
  }

  /** `translate_claude_event`, updating the stream state in place. */
  method TranslateClaudeEvent(event: Json.Fields, title: string, state: ClaudeStreamState,
                              relativizeCommand: string -> string, relativizePath: string -> string)
    returns (out: seq<Event>)
    modifies state
    ensures (out, state.Snapshot()) == TranslateStep(event, title, old(state.Snapshot()), relativizeCommand, relativizePath)
  {
    var etype := Json.GetV(event, "type");
    if IsInit(event) {
      out := SystemInitEvents(event, title);
    } else if etype == Json.Str("assistant") || etype == Json.Str("user") {
      var blocks := Blocks(event);
      if blocks.None? {
        out := [];
      } else if etype == Json.Str("assistant") {
        out := TranslateAssistant(blocks.value, MessageIdOf(event), StrOrNone(Json.GetV(event, "parent_tool_use_id")),
          state, relativizeCommand, relativizePath);
      } else {
        out := TranslateUser(blocks.value, MessageIdOf(event), state);
      }
    } else if etype == Json.Str("result") {
      out := TranslateResult(event, state);
    } else {
      out := [];
    }
  }

  /** `process_error_events` of the Claude runner: a warning note under the
      next note id, then a failed completion without an answer. */
  function ProcessErrorStep(rc: int, resume: Option<ResumeToken>, found: Option<ResumeToken>, stderrTail: string,
                            s: StreamSnap): (r: (seq<Event>, StreamSnap))
    ensures |r.0| == 2 && r.0[0].ActionEv? && r.0[1].Completed?
    ensures r.0[0].act.action.id == Runner.NoteId(ENGINE, s.noteSeq + 1)
    ensures r.1 == s.(noteSeq := s.noteSeq + 1)
  {
    var message := ENGINE + " failed (rc=" + Text.IntToString(rc) + ").";
    var n := s.noteSeq + 1;
    ([Runner.NoteEvent(ENGINE, Runner.NoteId(ENGINE, n), message, false, [("stderr_tail", Json.Str(stderrTail))]),
      Completed(CompletedEvent(ENGINE, false, "", OrElse(found, resume), Some(message), None))],
     s.(noteSeq := n))
  }

  /** Apart from the stderr tail in the note's detail, these are the shared
      runner's error events for the tag `claude`. */
  lemma ProcessErrorIsShared(rc: int, resume: Option<ResumeToken>, found: Option<ResumeToken>, stderrTail: string,
                             s: StreamSnap)
    ensures var mine := ProcessErrorStep(rc, resume, found, stderrTail, s).0;
            var shared := Runner.ProcessErrorEvents(ENGINE, ENGINE, rc, resume, found, Runner.NoteId(ENGINE, s.noteSeq + 1));
            && mine[1] == shared[1]
            && mine[0].act.action.(detail := []) == shared[0].act.action
            && mine[0].act.(action := shared[0].act.action) == shared[0].act
  {
  }

  /** `process_error_events`, taking the note id from the stream state. */
  method ProcessErrorEvents(rc: int, state: ClaudeStreamState, resume: Option<ResumeToken>, found: Option<ResumeToken>,
                            stderrTail: string) returns (es: seq<Event>)
    modifies state
    ensures (es, state.Snapshot()) == ProcessErrorStep(rc, resume, found, stderrTail, old(state.Snapshot()))
  {
    var message := ENGINE + " failed (rc=" + Text.IntToString(rc) + ").";
    var noteId := state.NextNoteId();
    es := [Runner.NoteEvent(ENGINE, noteId, message, false, [("stderr_tail", Json.Str(stderrTail))]),
           Completed(CompletedEvent(ENGINE, false, "", OrElse(found, resume), Some(message), None))];
  }

  /** `stream_end_events`: a stream that ends without a `result` fails, on the
      session found with the last assistant text as answer, else on the
      resume token asked for with no answer. */
  function StreamEndEvents(resume: Option<ResumeToken>, found: Option<ResumeToken>, s: StreamSnap): (es: seq<Event>)
    ensures |es| == 1 && es[0].Completed? && !es[0].completed.ok && es[0].completed.error.Some?
    ensures es[0].completed.resume == (if found.Some? then found else resume)
    ensures es[0].completed.answer == (if found.Some? then s.lastText.GetOr("") else "")
  {
    if found.None? then
      [Completed(CompletedEvent(ENGINE, false, "", resume, Some("claude finished but no session_id was captured"), None))]
    else
      [Completed(CompletedEvent(ENGINE, false, s.lastText.GetOr(""), found,
        Some("claude finished without a result event"), None))]
  }
}
