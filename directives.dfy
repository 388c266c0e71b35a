/** Directives at the head of a message (`/engine`, `/project`, `@branch`)
    and the `ctx:` line that records a run's project and branch in a reply. */
module Directives {
  import opened Wrappers
  import opened Model
  import Text
  import Config

  datatype ParsedDirectives = ParsedDirectives(
    prompt: string, engine: Option<EngineId>, project: Option<string>, branch: Option<string>)

  /** `{name.lower(): name for name in names}.get(key)`: a later name
      overrides an earlier one with the same lower-case form. */
  function LowerMap(names: seq<string>, key: string): (r: Option<string>)
    ensures r.None? <==> forall i :: 0 <= i < |names| ==> Text.Lower(names[i]) != key
    ensures r.Some? ==> r.value in names && Text.Lower(r.value) == key
  {
    if names == [] then None
    else if Text.Lower(names[|names| - 1]) == key then Some(names[|names| - 1])
    else
      var r := LowerMap(names[..|names| - 1], key);
      assert forall i :: 0 <= i < |names| - 1 ==> names[..|names| - 1][i] == names[i];
      r
  }

  /** Of several names with the same lower-case form, the last one is kept. */
  lemma {:induction false} LowerMapLastWins(names: seq<string>, key: string, i: nat)
    requires i < |names| && Text.Lower(names[i]) == key
    requires forall j :: i < j < |names| ==> Text.Lower(names[j]) != key
    ensures LowerMap(names, key) == Some(names[i])
    decreases |names|
  {
    if i < |names| - 1 {
      var front := names[..|names| - 1];
      assert front[i] == names[i];
      assert forall j :: i < j < |front| ==> front[j] == names[j];
      LowerMapLastWins(front, key, i);
    }
  }

  /** The keys of the projects table, in order. */
  function Aliases(pc: Config.ProjectsConfig): (r: seq<string>)
    ensures |r| == |pc.projects|
    ensures forall i :: 0 <= i < |r| ==> r[i] == pc.projects[i].0
  {
    seq(|pc.projects|, i requires 0 <= i < |pc.projects| => pc.projects[i].0)
  }

  /** What one token of the first line is. */
  datatype TokenKind = EngineTok(engine: EngineId) | ProjectTok(project: string) | BranchTok(branch: string) | StopTok

  /** The name of a `/name` or `/name@bot` token: the text before the first `@`. */
  function CommandName(token: string): (name: string)
    requires token != []
    ensures '@' !in name
  {
    var rest := token[1..];
    match Text.IndexOf(rest, '@')
    case Some(k) => rest[..k]
    case None => rest
  }

  /** The test of the scanning loop: a `/name` that names an engine (checked
      first) or a project, case-insensitively; or a non-empty `@branch`;
      anything else stops the scan. */
  function Classify(token: string, engines: seq<EngineId>, aliases: seq<string>): (k: TokenKind)
    ensures k.BranchTok? ==> token == "@" + k.branch && k.branch != []
    ensures !Text.StartsWith(token, "/") && !Text.StartsWith(token, "@") ==> k.StopTok?
  {
    if Text.StartsWith(token, "/") then
      var name := CommandName(token);
      if name == [] then StopTok
      else
        var key := Text.Lower(name);
        match LowerMap(engines, key)
        case Some(e) => EngineTok(e)
        case None =>
          match LowerMap(aliases, key)
          case Some(p) => ProjectTok(p)
          case None => StopTok
    else if Text.StartsWith(token, "@") then
      if |token| == 1 then StopTok else BranchTok(token[1..])
    else StopTok
  }

  /** A bot suffix does not change what a `/name` token means. */
  lemma BotSuffixIgnored(name: string, bot: string, engines: seq<EngineId>, aliases: seq<string>)
    requires '@' !in name
    ensures Classify("/" + name + "@" + bot, engines, aliases) == Classify("/" + name, engines, aliases)
  {
    var t := "/" + name + "@" + bot;
    assert t[1..] == name + "@" + bot;
    var k := Text.IndexOf(t[1..], '@');
    assert t[1..][|name|] == '@';
    assert k == Some(|name|) by {
      assert '@' !in t[1..][..|name|] by { assert t[1..][..|name|] == name; }
    }
    assert CommandName(t) == name;
    assert ("/" + name)[1..] == name;
    assert CommandName("/" + name) == name;
  }

  /** The state of the scanning loop: what was found and how many tokens were consumed. */
  datatype Scan = Scan(engine: Option<EngineId>, project: Option<string>, branch: Option<string>, consumed: nat)

  function Found(s: Scan): nat {
    (if s.engine.Some? then 1 else 0) + (if s.project.Some? then 1 else 0) + (if s.branch.Some? then 1 else 0)
  }

  /** The scanning loop over the tokens of the first non-blank line, from
      token `acc.consumed` on: each directive is consumed, a second directive
      of the same kind is an error, and the first other token ends the scan. */
  function ScanTokens(tokens: seq<string>, engines: seq<EngineId>, aliases: seq<string>, acc: Scan): (r: Result<Scan>)
    requires acc.consumed <= |tokens|
    requires Found(acc) == acc.consumed
    ensures r.Ok? ==> acc.consumed <= r.value.consumed <= |tokens|
    ensures r.Ok? ==> Found(r.value) == r.value.consumed
    ensures r.Ok? ==> r.value.consumed == |tokens| || Classify(tokens[r.value.consumed], engines, aliases).StopTok?
    decreases |tokens| - acc.consumed
  {
    if acc.consumed == |tokens| then Ok(acc)
    else
      match Classify(tokens[acc.consumed], engines, aliases)
      case StopTok => Ok(acc)
      case EngineTok(e) =>
        if acc.engine.Some? then Err("multiple engine directives")
        else ScanTokens(tokens, engines, aliases, acc.(engine := Some(e), consumed := acc.consumed + 1))
      case ProjectTok(p) =>
        if acc.project.Some? then Err("multiple project directives")
        else ScanTokens(tokens, engines, aliases, acc.(project := Some(p), consumed := acc.consumed + 1))
      case BranchTok(b) =>
        if acc.branch.Some? then Err("multiple @branch directives")
        else ScanTokens(tokens, engines, aliases, acc.(branch := Some(b), consumed := acc.consumed + 1))
  }

  /** Every token the scan consumes is a directive. */
  lemma {:induction false} ScanConsumesDirectives(tokens: seq<string>, engines: seq<EngineId>, aliases: seq<string>, acc: Scan, j: nat)
    requires acc.consumed <= |tokens| && Found(acc) == acc.consumed
    requires ScanTokens(tokens, engines, aliases, acc).Ok?
    requires acc.consumed <= j < ScanTokens(tokens, engines, aliases, acc).value.consumed
    ensures !Classify(tokens[j], engines, aliases).StopTok?
    decreases |tokens| - acc.consumed
  {
    var k := Classify(tokens[acc.consumed], engines, aliases);
    if j > acc.consumed {
      match k
      case StopTok => assert false;
      case EngineTok(e) => ScanConsumesDirectives(tokens, engines, aliases, acc.(engine := Some(e), consumed := acc.consumed + 1), j);
      case ProjectTok(p) => ScanConsumesDirectives(tokens, engines, aliases, acc.(project := Some(p), consumed := acc.consumed + 1), j);
      case BranchTok(b) => ScanConsumesDirectives(tokens, engines, aliases, acc.(branch := Some(b), consumed := acc.consumed + 1), j);
    }
  }

  /** Two engine directives in a row are refused. */
  lemma TwoEnginesRejected(tokens: seq<string>, engines: seq<EngineId>, aliases: seq<string>)
    requires |tokens| >= 2
    requires Classify(tokens[0], engines, aliases).EngineTok? && Classify(tokens[1], engines, aliases).EngineTok?
    ensures ScanTokens(tokens, engines, aliases, Scan(None, None, None, 0)).Err?
  {
    var e := Classify(tokens[0], engines, aliases).engine;
    assert ScanTokens(tokens, engines, aliases, Scan(None, None, None, 0))
        == ScanTokens(tokens, engines, aliases, Scan(Some(e), None, None, 1));
  }

  /** The index of the first line from `k` on that is not blank. */
  function FirstNonBlank(lines: seq<string>, k: nat): (r: Option<nat>)
    requires k <= |lines|
    ensures r.None? ==> forall i :: k <= i < |lines| ==> Text.AllSpace(lines[i])
    ensures r.Some? ==> k <= r.value < |lines| && !Text.AllSpace(lines[r.value])
    ensures r.Some? ==> forall i :: k <= i < r.value ==> Text.AllSpace(lines[i])
    decreases |lines| - k
  {
    if k == |lines| then None
    else if !Text.AllSpace(lines[k]) then Some(k)
    else FirstNonBlank(lines, k + 1)
  }

  function NoDirectives(prompt: string): ParsedDirectives {
    ParsedDirectives(prompt, None, None, None)
  }

  /** `parse_directives`, as a function of the text, the engine ids and the
      projects. Empty text gives an empty prompt; without any directive the
      prompt is the text unchanged; otherwise the consumed tokens leave the
      first non-blank line (the line goes if nothing is left of it) and the
      prompt is the stripped text. */
  function DirectivesOf(text: string, engines: seq<EngineId>, pc: Config.ProjectsConfig): (r: Result<ParsedDirectives>)
    ensures text == [] ==> r == Ok(NoDirectives([]))
    ensures r.Ok? && r.value.engine.None? && r.value.project.None? && r.value.branch.None? ==> r.value.prompt == text
  {
    if text == [] then Ok(NoDirectives([]))
    else
      var lines := Text.SplitLines(text);
      match FirstNonBlank(lines, 0)
      case None => Ok(NoDirectives(text))
      case Some(idx) =>
        var tokens := Text.Words(Text.LStrip(lines[idx]));
        if tokens == [] then Ok(NoDirectives(text))
        else
          var sc :- ScanTokens(tokens, engines, Aliases(pc), Scan(None, None, None, 0));
          if sc.consumed == 0 then Ok(NoDirectives(text))
          else
            var kept := KeptLines(lines, idx, tokens[sc.consumed..]);
            Ok(ParsedDirectives(Text.Strip(Text.Join(kept, "\n")), sc.engine, sc.project, sc.branch))
  }

  /** The lines left once the directives are taken off line `idx`: that line
      becomes its remaining tokens joined by single spaces, or goes when none
      remain; every other line stays, in order. */
  function KeptLines(lines: seq<string>, idx: nat, rest: seq<string>): (r: seq<string>)
    requires idx < |lines|
    ensures rest != [] ==> |r| == |lines| && r[idx] == Text.Join(rest, " ")
                           && forall i :: 0 <= i < |lines| && i != idx ==> r[i] == lines[i]
    ensures rest == [] ==> |r| == |lines| - 1 && r[..idx] == lines[..idx] && r[idx..] == lines[idx + 1..]
  {
    if rest != [] then lines[idx := Text.Join(rest, " ")] else lines[..idx] + lines[idx + 1..]
  }

  /** The scan consumes exactly the directives before the first other token. */
  lemma ScanStopsAtFirstOther(tokens: seq<string>, engines: seq<EngineId>, aliases: seq<string>, c: nat)
    requires ScanTokens(tokens, engines, aliases, Scan(None, None, None, 0)).Ok?
    requires c <= |tokens| && forall j :: 0 <= j < c ==> !Classify(tokens[j], engines, aliases).StopTok?
    requires c == |tokens| || Classify(tokens[c], engines, aliases).StopTok?
    ensures ScanTokens(tokens, engines, aliases, Scan(None, None, None, 0)).value.consumed == c
  {
    var k := ScanTokens(tokens, engines, aliases, Scan(None, None, None, 0)).value.consumed;
    if c < k {
      ScanConsumesDirectives(tokens, engines, aliases, Scan(None, None, None, 0), c);
    }
  }

  /** The prompt after directives: the leading directives of the first
      non-blank line are taken off it (the line goes if nothing is left of
      it), every other line is kept, and the text is stripped. */
  lemma DirectivesPrompt(text: string, engines: seq<EngineId>, pc: Config.ProjectsConfig, idx: nat, c: nat)
    requires text != [] && FirstNonBlank(Text.SplitLines(text), 0) == Some(idx)
    requires var tokens := Text.Words(Text.LStrip(Text.SplitLines(text)[idx]));
      0 < c <= |tokens| && (forall j :: 0 <= j < c ==> !Classify(tokens[j], engines, Aliases(pc)).StopTok?)
      && (c == |tokens| || Classify(tokens[c], engines, Aliases(pc)).StopTok?)
    requires DirectivesOf(text, engines, pc).Ok?
    ensures var lines := Text.SplitLines(text);
      var tokens := Text.Words(Text.LStrip(lines[idx]));
      DirectivesOf(text, engines, pc).value.prompt == Text.Strip(Text.Join(KeptLines(lines, idx, tokens[c..]), "\n"))
  {
    var lines := Text.SplitLines(text);
    var tokens := Text.Words(Text.LStrip(lines[idx]));
    var scan := ScanTokens(tokens, engines, Aliases(pc), Scan(None, None, None, 0));
    assert scan.Ok? by {
      DirectivesOfScan(text, engines, pc, idx, tokens);
    }
    ScanStopsAtFirstOther(tokens, engines, Aliases(pc), c);
    DirectivesOfScan(text, engines, pc, idx, tokens);
  }

  /** `parse_directives` once the first non-blank line and its tokens are known. */
  lemma DirectivesOfScan(text: string, engines: seq<EngineId>, pc: Config.ProjectsConfig, idx: nat, tokens: seq<string>)
    requires text != [] && FirstNonBlank(Text.SplitLines(text), 0) == Some(idx)
    requires idx < |Text.SplitLines(text)|
    requires tokens == Text.Words(Text.LStrip(Text.SplitLines(text)[idx])) && tokens != []
    ensures var scan := ScanTokens(tokens, engines, Aliases(pc), Scan(None, None, None, 0));
      && (scan.Err? ==> DirectivesOf(text, engines, pc) == Err(scan.error))
      && (scan.Ok? && scan.value.consumed > 0 ==>
            DirectivesOf(text, engines, pc)
              == Ok(ParsedDirectives(Text.Strip(Text.Join(KeptLines(Text.SplitLines(text), idx, tokens[scan.value.consumed..]), "\n")),
                                     scan.value.engine, scan.value.project, scan.value.branch)))
  {
  }

  /** The scanning loop of `parse_directives` over the tokens of the first non-blank line. */
  method ScanLoop(tokens: seq<string>, engines: seq<EngineId>, aliases: seq<string>) returns (r: Result<Scan>)
    ensures r == ScanTokens(tokens, engines, aliases, Scan(None, None, None, 0))
  {
    var engine: Option<EngineId> := None;
    var project: Option<string> := None;
    var branch: Option<string> := None;
    var consumed := 0;
    ghost var goal := ScanTokens(tokens, engines, aliases, Scan(None, None, None, 0));
    while consumed < |tokens|
      invariant consumed <= |tokens|
      invariant Found(Scan(engine, project, branch, consumed)) == consumed
      invariant ScanTokens(tokens, engines, aliases, Scan(engine, project, branch, consumed)) == goal
      decreases |tokens| - consumed
    {
      var kind := Classify(tokens[consumed], engines, aliases);
      if kind.StopTok? {
        break;
      }
      if kind.EngineTok? {
        if engine.Some? {
          return Err("multiple engine directives");
        }
        engine := Some(kind.engine);
      } else if kind.ProjectTok? {
        if project.Some? {
          return Err("multiple project directives");
        }
        project := Some(kind.project);
      } else {
        if branch.Some? {
          return Err("multiple @branch directives");
        }
        branch := Some(kind.branch);
      }
      consumed := consumed + 1;
    }
    return Ok(Scan(engine, project, branch, consumed));
  }

  /** `parse_directives`. */
  method ParseDirectives(text: string, engines: seq<EngineId>, pc: Config.ProjectsConfig) returns (r: Result<ParsedDirectives>)
    ensures r == DirectivesOf(text, engines, pc)
  {
    if text == [] {
      return Ok(NoDirectives([]));
    }
    var lines := Text.SplitLines(text);
    var first := FirstNonBlank(lines, 0);
    if first.None? {
      return Ok(NoDirectives(text));
    }
    var idx := first.value;
    var tokens := Text.Words(Text.LStrip(lines[idx]));
    if tokens == [] {
      return Ok(NoDirectives(text));
    }
    var scan := ScanLoop(tokens, engines, Aliases(pc));
    if scan.Err? {
      return Err(scan.error);
    }
    var consumed := scan.value.consumed;
    if consumed == 0 {
      return Ok(NoDirectives(text));
    }
    if consumed < |tokens| {
      lines := lines[idx := Text.Join(tokens[consumed..], " ")];
    } else {
      lines := lines[..idx] + lines[idx + 1..];
    }
    assert lines == KeptLines(Text.SplitLines(text), idx, tokens[consumed..]);
    return Ok(ParsedDirectives(Text.Strip(Text.Join(lines, "\n")), scan.value.engine, scan.value.project, scan.value.branch));
  }

  /** A stripped line with one surrounding pair of backticks (or a lone one at either end) removed, stripped again. */
  function Unwrap(s: string): string
  {
    if Text.StartsWith(s, "`") && Text.EndsWith(s, "`") && |s| > 1 then Text.Strip(s[1..|s| - 1])
    else if Text.StartsWith(s, "`") then Text.Strip(s[1..])
    else if Text.EndsWith(s, "`") then Text.Strip(s[..|s| - 1])
    else s
  }

  function Unquote(line: string): string
  {
    Unwrap(Text.Strip(line))
  }

  /** The text after the first colon. */
  function AfterColon(s: string): string {
    match Text.IndexOf(s, ':')
    case Some(k) => s[k + 1..]
    case None => []
  }

  /** The branch named by the tokens after the project: `@ name` or `@name`. */
  function BranchOf(tokens: seq<string>): (b: Option<string>)
    requires |tokens| >= 1
    ensures |tokens| == 1 ==> b.None?
  {
    if |tokens| >= 2 then
      if tokens[1] == "@" && |tokens| >= 3 then Some(tokens[2])
      else if Text.StartsWith(tokens[1], "@") then Some(tokens[1][1..])
      else None
    else None
  }

  /** The content of a `ctx:` line: the project key is the lower-cased
      first word, which must be configured. */
  function ContextOfContent(content: string, pc: Config.ProjectsConfig): (r: Result<Option<RunContext>>)
    ensures r.Ok? && r.value.Some? ==> r.value.value.project.Some? && Config.HasProject(pc, r.value.value.project.value)
    ensures r.Err? <==> Text.Words(content) != [] && !Config.HasProject(pc, Text.Lower(Text.Words(content)[0]))
  {
    if content == [] then Ok(None)
    else
      var tokens := Text.Words(content);
      if tokens == [] then Ok(None)
      else
        var key := Text.Lower(tokens[0]);
        if !Config.HasProject(pc, key) then Err("unknown project " + Text.Repr(tokens[0]) + " in ctx line; start a new thread or add it back to your config")
        else Ok(Some(RunContext(Some(key), BranchOf(tokens))))
  }

  /** One line of `parse_context_line`: `None` unless, once unquoted, it
      starts with `ctx:` in any case. */
  function ContextOfLine(line: string, pc: Config.ProjectsConfig): (r: Result<Option<RunContext>>)
    ensures !Text.StartsWith(Text.Lower(Unquote(line)), "ctx:") ==> r == Ok(None)
    ensures r.Ok? && r.value.Some? ==> r.value.value.project.Some? && Config.HasProject(pc, r.value.value.project.value)
  {
    ContextOfStripped(Unquote(line), pc)
  }

  function ContextOfStripped(stripped: string, pc: Config.ProjectsConfig): (r: Result<Option<RunContext>>)
  {
    if !Text.StartsWith(Text.Lower(stripped), "ctx:") then Ok(None)
    else ContextOfContent(Text.Strip(AfterColon(stripped)), pc)
  }

  /** The loop of `parse_context_line` from line `k` on, with `acc` the
      context found so far: the last context line wins, and the first bad
      one raises. */
  function ContextLoop(lines: seq<string>, k: nat, pc: Config.ProjectsConfig, acc: Option<RunContext>): (r: Result<Option<RunContext>>)
    requires k <= |lines|
    ensures r.Ok? && r.value != acc ==> exists i :: k <= i < |lines| && ContextOfLine(lines[i], pc) == Ok(r.value)
    ensures r.Ok? ==> forall i :: k <= i < |lines| ==> ContextOfLine(lines[i], pc).Ok?
    decreases |lines| - k
  {
    if k == |lines| then Ok(acc)
    else
      var c :- ContextOfLine(lines[k], pc);
      ContextLoop(lines, k + 1, pc, if c.Some? then c else acc)
  }

  /** One line through the loop of `parse_context_line`. */
  lemma ContextLoopStep(lines: seq<string>, k: nat, pc: Config.ProjectsConfig, acc: Option<RunContext>, c: Result<Option<RunContext>>)
    requires k < |lines| && c == ContextOfLine(lines[k], pc)
    ensures c.Ok? ==> ContextLoop(lines, k, pc, acc) == ContextLoop(lines, k + 1, pc, if c.value.Some? then c.value else acc)
    ensures c.Err? ==> ContextLoop(lines, k, pc, acc) == Err(c.error)
  {
  }

  /** No line from `k` on is a context line, and every one reads. */
  predicate NoContextFrom(lines: seq<string>, k: nat, pc: Config.ProjectsConfig) {
    forall j :: k <= j < |lines| ==> ContextOfLine(lines[j], pc) == Ok(None)
  }

  /** Lines that are not context lines keep what was found. */
  lemma {:induction false} ContextLoopNone(lines: seq<string>, k: nat, pc: Config.ProjectsConfig, acc: Option<RunContext>)
    requires k <= |lines| && NoContextFrom(lines, k, pc)
    ensures ContextLoop(lines, k, pc, acc) == Ok(acc)
    decreases |lines| - k
  {
    if k < |lines| {
      var c := ContextOfLine(lines[k], pc);
      assert c == Ok(None);
      ContextLoopStep(lines, k, pc, acc, c);
      ContextLoopNone(lines, k + 1, pc, acc);
    }
  }

  /** When every line reads, the context is that of the last context line. */
  lemma {:induction false} ContextLoopLastWins(lines: seq<string>, k: nat, pc: Config.ProjectsConfig, acc: Option<RunContext>, i: nat)
    requires k <= i < |lines|
    requires forall j :: k <= j < i ==> ContextOfLine(lines[j], pc).Ok?
    requires ContextOfLine(lines[i], pc).Ok? && ContextOfLine(lines[i], pc).value.Some?
    requires NoContextFrom(lines, i + 1, pc)
    ensures ContextLoop(lines, k, pc, acc) == Ok(ContextOfLine(lines[i], pc).value)
    decreases i - k
  {
    var c := ContextOfLine(lines[k], pc);
    var next := if c.value.Some? then c.value else acc;
    ContextLoopStep(lines, k, pc, acc, c);
    if k == i {
      ContextLoopNone(lines, k + 1, pc, next);
    } else {
      ContextLoopLastWins(lines, k + 1, pc, next, i);
    }
  }

  /** The first line that does not read is the error. */
  lemma {:induction false} ContextLoopFirstError(lines: seq<string>, k: nat, pc: Config.ProjectsConfig, acc: Option<RunContext>, i: nat)
    requires k <= i < |lines|
    requires forall j :: k <= j < i ==> ContextOfLine(lines[j], pc).Ok?
    requires ContextOfLine(lines[i], pc).Err?
    ensures ContextLoop(lines, k, pc, acc) == Err(ContextOfLine(lines[i], pc).error)
    decreases i - k
  {
    var c := ContextOfLine(lines[k], pc);
    ContextLoopStep(lines, k, pc, acc, c);
    if k < i {
      ContextLoopFirstError(lines, k + 1, pc, if c.value.Some? then c.value else acc, i);
    }
  }

  /** `parse_context_line`. */
  method ParseContextLine(text: Option<string>, pc: Config.ProjectsConfig) returns (r: Result<Option<RunContext>>)
    ensures text.None? || text == Some([]) ==> r == Ok(None)
    ensures text.Some? && text.value != [] ==> r == ContextLoop(Text.SplitLines(text.value), 0, pc, None)
  {
    if text.None? || text.value == [] {
      return Ok(None);
    }
    var lines := Text.SplitLines(text.value);
    var ctx: Option<RunContext> := None;
    for i := 0 to |lines|
      invariant ContextLoop(lines, i, pc, ctx) == ContextLoop(lines, 0, pc, None)
    {
      var c := ContextOfLine(lines[i], pc);
      if c.Err? {
        return Err(c.error);
      }
      if c.value.Some? {
        ctx := c.value;
      }
    }
    return Ok(ctx);
  }

  /** `format_context_line`: nothing without a project; the project's
      configured alias (or the key itself), then ` @branch` when the branch is
      set and non-empty, in backticks. */
  function FormatContextLine(context: Option<RunContext>, pc: Config.ProjectsConfig): (r: Option<string>)
    ensures r.None? <==> context.None? || context.value.project.None?
  {
    if context.None? || context.value.project.None? then None
    else
      var key := context.value.project.value;
      var cfg := Config.GetProject(pc.projects, key);
      var alias := if cfg.Some? then cfg.value.alias else key;
      if context.value.branch.Some? && context.value.branch.value != [] then
        Some("`ctx: " + alias + " @" + context.value.branch.value + "`")
      else Some("`ctx: " + alias + "`")
  }

  /** Line boundaries are whitespace. */
  lemma NoSpaceNoBreak(s: string)
    requires Text.NoSpace(s)
    ensures forall i :: 0 <= i < |s| ==> !Text.IsLineBreak(s[i])
  {
  }

  /** A line that starts with `ctx:` is recognised, and its content is what follows the colon. */
  lemma CtxPrefix(body: string)
    ensures Text.StartsWith(Text.Lower("ctx:" + body), "ctx:")
    ensures AfterColon("ctx:" + body) == body
  {
    var inner := "ctx:" + body;
    var lo := Text.Lower(inner);
    assert lo[0] == 'c' && lo[1] == 't' && lo[2] == 'x' && lo[3] == ':';
    assert lo[..4] == "ctx:";
    assert inner[..3] == "ctx";
    assert Text.IndexOf(inner, ':') == Some(3);
    assert inner[4..] == body;
  }

  /** One pair of backticks around a tight text comes off. */
  lemma UnquoteBackticks(inner: string)
    requires inner != [] && !Text.IsSpace(inner[0]) && !Text.IsSpace(inner[|inner| - 1])
    ensures Unquote("`" + inner + "`") == inner
  {
    var line := "`" + inner + "`";
    assert line[..1] == "`" by { assert line[..1][0] == '`'; }
    assert line[|line| - 1..] == "`" by { assert line[|line| - 1..][0] == '`'; }
    assert line[1..|line| - 1] == inner;
    assert Unwrap(line) == Text.Strip(inner);
    assert Text.Strip(line) == line by { Text.StripTight(line); }
    Text.StripTight(inner);
  }

  lemma QuotedStep(inner: string, pc: Config.ProjectsConfig)
    requires inner != [] && !Text.IsSpace(inner[0]) && !Text.IsSpace(inner[|inner| - 1])
    ensures ContextOfLine("`" + inner + "`", pc) == ContextOfStripped(inner, pc)
  {
    UnquoteBackticks(inner);
  }

  lemma CtxStep(body: string, pc: Config.ProjectsConfig)
    requires body != [] && !Text.IsSpace(body[0]) && !Text.IsSpace(body[|body| - 1])
    ensures ContextOfStripped("ctx:" + (" " + body), pc) == ContextOfContent(body, pc)
  {
    CtxPrefix(" " + body);
    Text.StripLeading(" ", body);
  }

  lemma ContentStep(alias: string, rest: string, pc: Config.ProjectsConfig)
    requires alias != [] && Text.NoSpace(alias) && Config.HasProject(pc, Text.Lower(alias))
    requires rest == [] || Text.IsSpace(rest[0])
    ensures ContextOfContent(alias + rest, pc) == Ok(Some(RunContext(Some(Text.Lower(alias)), BranchOf([alias] + Text.Words(rest)))))
  {
    Text.WordsPrefix(alias, rest);
  }

  /** The context line, regrouped as a quoted `ctx:` body. */
  lemma QuotedLine(alias: string, rest: string)
    ensures "`ctx: " + alias + rest + "`" == "`" + ("ctx:" + (" " + (alias + rest))) + "`"
  {
    assert "`ctx: " == "`" + "ctx:" + " ";
  }

  /** A backticked `ctx:` line is read as its content. */
  lemma QuotedContent(alias: string, rest: string, pc: Config.ProjectsConfig)
    requires alias != [] && Text.NoSpace(alias)
    requires rest == [] || (Text.IsSpace(rest[0]) && !Text.IsSpace(rest[|rest| - 1]))
    ensures ContextOfLine("`ctx: " + alias + rest + "`", pc) == ContextOfContent(alias + rest, pc)
  {
    var body := alias + rest;
    assert body != [] && !Text.IsSpace(body[0]) && !Text.IsSpace(body[|body| - 1]) by {
      assert body[0] == alias[0];
      assert body[|body| - 1] == if rest == [] then alias[|alias| - 1] else rest[|rest| - 1];
    }
    QuotedLine(alias, rest);
    QuotedStep("ctx:" + (" " + body), pc);
    CtxStep(body, pc);
  }

  /** A backticked `ctx:` line names the project of its first word. */
  lemma QuotedContext(alias: string, rest: string, pc: Config.ProjectsConfig)
    requires alias != [] && Text.NoSpace(alias) && Config.HasProject(pc, Text.Lower(alias))
    requires rest == [] || (Text.IsSpace(rest[0]) && !Text.IsSpace(rest[|rest| - 1]))
    ensures ContextOfLine("`ctx: " + alias + rest + "`", pc)
         == Ok(Some(RunContext(Some(Text.Lower(alias)), BranchOf([alias] + Text.Words(rest)))))
  {
    QuotedContent(alias, rest, pc);
    ContentStep(alias, rest, pc);
  }

  lemma WordAfterSpace(w: string)
    requires w != [] && Text.NoSpace(w)
    ensures Text.Words(" " + w) == [w]
  {
    assert (" " + w)[1..] == w;
    Text.WordsOfWord(w);
  }

  /** Writing a context and reading the line back gives the context, when its
      project is configured under a one-word alias whose lower-case form is
      the project key and the branch is one word (an empty branch reads
      back as none). */
  lemma ContextLineRoundTrip(ctx: RunContext, pc: Config.ProjectsConfig)
    requires ctx.project.Some? && Config.HasProject(pc, ctx.project.value)
    requires var alias := Config.GetProject(pc.projects, ctx.project.value).value.alias;
      alias != [] && Text.NoSpace(alias) && Text.Lower(alias) == ctx.project.value
    requires ctx.branch.Some? ==> Text.NoSpace(ctx.branch.value)
    ensures var line := FormatContextLine(Some(ctx), pc);
      line.Some? && ContextOfLine(line.value, pc) ==
        Ok(Some(RunContext(ctx.project, if ctx.branch == Some([]) then None else ctx.branch)))
  {
    var key := ctx.project.value;
    var alias := Config.GetProject(pc.projects, key).value.alias;
    var rest := BranchSuffix(ctx.branch);
    if rest != [] {
      assert rest[|rest| - 1] == ctx.branch.value[|ctx.branch.value| - 1];
    }
    FormatShape(ctx, pc);
    QuotedContext(alias, rest, pc);
    BranchSuffixReadsBack(alias, ctx.branch);
  }

  /** What follows the alias on a context line: ` @branch`, or nothing. */
  function BranchSuffix(branch: Option<string>): string
  {
    if branch.Some? && branch.value != [] then " @" + branch.value else []
  }

  lemma FormatShape(ctx: RunContext, pc: Config.ProjectsConfig)
    requires ctx.project.Some? && Config.HasProject(pc, ctx.project.value)
    ensures FormatContextLine(Some(ctx), pc)
         == Some("`ctx: " + Config.GetProject(pc.projects, ctx.project.value).value.alias + BranchSuffix(ctx.branch) + "`")
  {
    var alias := Config.GetProject(pc.projects, ctx.project.value).value.alias;
    if ctx.branch.Some? && ctx.branch.value != [] {
      assert "`ctx: " + alias + " @" + ctx.branch.value + "`" == "`ctx: " + alias + BranchSuffix(ctx.branch) + "`";
    } else {
      assert "`ctx: " + alias + BranchSuffix(ctx.branch) == "`ctx: " + alias;
    }
  }

  lemma BranchSuffixReadsBack(alias: string, branch: Option<string>)
    requires branch.Some? ==> Text.NoSpace(branch.value)
    ensures BranchOf([alias] + Text.Words(BranchSuffix(branch))) == if branch == Some([]) then None else branch
  {
    if branch.Some? && branch.value != [] {
      var b := "@" + branch.value;
      assert BranchSuffix(branch) == " " + b;
      WordAfterSpace(b);
      assert b[1..] == branch.value;
      assert BranchOf([alias, b]) == branch;
    } else {
      assert Text.Words([]) == [];
    }
  }

}
