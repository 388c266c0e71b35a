/** How a tool call made by an engine is shown: its action kind and a short
    title, chosen from the tool's name (ignoring case) and its input. */
module ToolActions {
  import opened Wrappers
  import opened Model
  import Json
  import Text

  /** `pathKeys[i]` is the first of the keys that holds a non-empty string. */
  predicate FirstPathAt(input: Json.Fields, pathKeys: seq<string>, i: int) {
    && 0 <= i < |pathKeys|
    && Json.NonEmptyStr(Json.GetV(input, pathKeys[i]))
    && forall j :: 0 <= j < i ==> !Json.NonEmptyStr(Json.GetV(input, pathKeys[j]))
  }

  /** `tool_input_path`: the value of the first key in `pathKeys` that holds a
      non-empty string, or `None` when no key does. */
  function ToolInputPath(input: Json.Fields, pathKeys: seq<string>): (r: Option<string>)
    ensures r.None? <==> forall i :: 0 <= i < |pathKeys| ==> !Json.NonEmptyStr(Json.GetV(input, pathKeys[i]))
    ensures r.Some? ==> exists i :: FirstPathAt(input, pathKeys, i) && Json.GetV(input, pathKeys[i]) == Json.Str(r.value)
  {
    if pathKeys == [] then None
    else
      var v := Json.GetV(input, pathKeys[0]);
      if Json.NonEmptyStr(v) then
        assert FirstPathAt(input, pathKeys, 0);
        Some(v.s)
      else
        var rest := ToolInputPath(input, pathKeys[1..]);
        if rest.Some? then
          var i :| FirstPathAt(input, pathKeys[1..], i) && Json.GetV(input, pathKeys[1..][i]) == Json.Str(rest.value);
          assert FirstPathAt(input, pathKeys, i + 1);
          rest
        else
          assert forall i :: 1 <= i < |pathKeys| ==> pathKeys[i] == pathKeys[1..][i - 1];
          None
  }

  /** The lower-cased names the table below knows. */
  const KNOWN_TOOLS: set<string> := {
    "bash", "shell", "killshell", "edit", "write", "notebookedit", "multiedit", "read", "glob", "grep",
    "find", "ls", "websearch", "web_search", "webfetch", "web_fetch", "todowrite", "todoread",
    "askuserquestion", "task", "agent"}

  /** The title of a tool that shows a pattern: `"name: pattern"`, optionally
      quoted in backticks, or the bare name without a pattern. */
  function PatternTitle(name: string, pattern: Json.Value, quoted: bool): string {
    if !Json.Truthy(pattern) then name
    else if quoted then name + ": `" + Json.ToStr(pattern) + "`"
    else name + ": " + Json.ToStr(pattern)
  }

  /** `tool_kind_and_title`. The path and command relativisers are parameters. */
  function ToolKindAndTitle(toolName: string, input: Json.Fields, pathKeys: seq<string>, taskKind: ActionKind,
                            relativizeCommand: string -> string, relativizePath: string -> string)
    : (r: (ActionKind, string))
    ensures Text.Lower(toolName) in {"bash", "shell", "killshell"} ==> r.0 == Command
    ensures Text.Lower(toolName) in {"edit", "write", "notebookedit", "multiedit"} ==> r.0 == FileChange
    ensures Text.Lower(toolName) in {"websearch", "web_search", "webfetch", "web_fetch"} ==> r.0 == WebSearch
    ensures Text.Lower(toolName) !in {"task", "agent"} ==>
      (r.0 == Command <==> Text.Lower(toolName) in {"bash", "shell", "killshell"})
      && (r.0 == FileChange <==> Text.Lower(toolName) in {"edit", "write", "notebookedit", "multiedit"})
      && (r.0 == WebSearch <==> Text.Lower(toolName) in {"websearch", "web_search", "webfetch", "web_fetch"})
    ensures Text.Lower(toolName) in {"todowrite", "todoread", "askuserquestion"} ==> r.0 == Note
    ensures Text.Lower(toolName) in {"task", "agent"} ==> r.0 == taskKind
    ensures Text.Lower(toolName) !in KNOWN_TOOLS ==> r == (Tool, toolName)
    ensures Text.Lower(toolName) in {"edit", "write", "notebookedit", "multiedit"} ==>
      r.1 == (match ToolInputPath(input, pathKeys)
              case Some(p) => relativizePath(p)
              case None => toolName)
  {
    var name := Text.Lower(toolName);
    if name in {"bash", "shell", "killshell"} then
      (Command, relativizeCommand(Json.ToStr(Json.Or(Json.GetV(input, "command"), Json.Str(toolName)))))
    else if name in {"edit", "write", "notebookedit", "multiedit"} then
      match ToolInputPath(input, pathKeys)
      case Some(p) => (FileChange, relativizePath(p))
      case None => (FileChange, toolName)
    else if name == "read" then
      match ToolInputPath(input, pathKeys)
      case Some(p) => (Tool, "read: `" + relativizePath(p) + "`")
      case None => (Tool, "read")
    else if name == "glob" then (Tool, PatternTitle("glob", Json.GetV(input, "pattern"), true))
    else if name == "grep" then (Tool, PatternTitle("grep", Json.GetV(input, "pattern"), false))
    else if name == "find" then (Tool, PatternTitle("find", Json.GetV(input, "pattern"), false))
    else if name == "ls" then
      match ToolInputPath(input, pathKeys)
      case Some(p) => (Tool, "ls: `" + relativizePath(p) + "`")
      case None => (Tool, "ls")
    else if name in {"websearch", "web_search"} then
      (WebSearch, Json.ToStr(Json.Or(Json.GetV(input, "query"), Json.Str("search"))))
    else if name in {"webfetch", "web_fetch"} then
      (WebSearch, Json.ToStr(Json.Or(Json.GetV(input, "url"), Json.Str("fetch"))))
    else if name in {"todowrite", "todoread"} then
      (Note, if name == "todowrite" then "update todos" else "read todos")
    else if name == "askuserquestion" then (Note, "ask user")
    else if name in {"task", "agent"} then
      (taskKind, Json.ToStr(Json.Or(Json.Or(Json.GetV(input, "description"), Json.GetV(input, "prompt")), Json.Str(toolName))))
    else (Tool, toolName)
  }

  /** The kind depends on the name only up to case. */
  lemma KindIgnoresCase(a: string, b: string, input: Json.Fields, pathKeys: seq<string>, taskKind: ActionKind,
                        relativizeCommand: string -> string, relativizePath: string -> string)
    requires Text.Lower(a) == Text.Lower(b)
    ensures ToolKindAndTitle(a, input, pathKeys, taskKind, relativizeCommand, relativizePath).0
         == ToolKindAndTitle(b, input, pathKeys, taskKind, relativizeCommand, relativizePath).0
  {
  }

  /** A task or agent call is titled by its description, else its prompt. */
  lemma TaskTitle(toolName: string, input: Json.Fields, pathKeys: seq<string>, taskKind: ActionKind,
                  relativizeCommand: string -> string, relativizePath: string -> string)
    requires Text.Lower(toolName) in {"task", "agent"}
    ensures var r := ToolKindAndTitle(toolName, input, pathKeys, taskKind, relativizeCommand, relativizePath);
      && (Json.NonEmptyStr(Json.GetV(input, "description")) ==> r.1 == Json.GetV(input, "description").s)
      && (!Json.Truthy(Json.GetV(input, "description")) && Json.NonEmptyStr(Json.GetV(input, "prompt")) ==>
            r.1 == Json.GetV(input, "prompt").s)
      && (!Json.Truthy(Json.GetV(input, "description")) && !Json.Truthy(Json.GetV(input, "prompt")) ==> r.1 == toolName)
  {
    var chosen := Json.Or(Json.Or(Json.GetV(input, "description"), Json.GetV(input, "prompt")), Json.Str(toolName));
    assert ToolKindAndTitle(toolName, input, pathKeys, taskKind, relativizeCommand, relativizePath).1 == Json.ToStr(chosen);
  }
}
