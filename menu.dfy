/** The bot's command menu: one entry per engine, project alias and plugin
    command, then the built-in commands, each name once, at most 100
    entries, and `cancel` always among them. */
module Menu {
  import opened Wrappers
  import Text

  const MAX_BOT_COMMANDS: nat := 100

  datatype BotCommand = BotCommand(command: string, description: string)

  /** A plugin command as the command loader returns it; `None` stands for
      a plugin the loader refused with a configuration error. */
  datatype Backend = Backend(id: string, description: string)

  /** A menu entry the builder considers, and whether it passes its id check. */
  datatype Candidate = Candidate(command: string, description: string, valid: bool)

  predicate HasCommand(cmds: seq<BotCommand>, name: string) {
    exists i :: 0 <= i < |cmds| && cmds[i].command == name
  }

  predicate NoDuplicates(cmds: seq<BotCommand>) {
    forall i, j :: 0 <= i < j < |cmds| ==> cmds[i].command != cmds[j].command
  }

  /** Engines are listed under their lower-cased id, without an id check. */
  function EngineCandidates(engineIds: seq<string>): (r: seq<Candidate>)
    ensures |r| == |engineIds|
  {
    if engineIds == [] then []
    else
      var cmd := Text.Lower(engineIds[|engineIds| - 1]);
      EngineCandidates(engineIds[..|engineIds| - 1]) + [Candidate(cmd, "use engine: " + cmd, true)]
  }

  /** Project aliases are listed lower-cased, when the id check accepts them. */
  function AliasCandidates(aliases: seq<string>, isValidId: string -> bool): (r: seq<Candidate>)
    ensures |r| == |aliases|
  {
    if aliases == [] then []
    else
      var cmd := Text.Lower(aliases[|aliases| - 1]);
      AliasCandidates(aliases[..|aliases| - 1], isValidId) + [Candidate(cmd, "work on: " + cmd, isValidId(cmd))]
  }

  /** Plugin commands the loader accepted, listed under their lower-cased
      id with their description or `command: <id>`. */
  function BackendCandidates(backends: seq<Option<Backend>>, isValidId: string -> bool): seq<Candidate> {
    if backends == [] then []
    else
      var prev := BackendCandidates(backends[..|backends| - 1], isValidId);
      match backends[|backends| - 1]
      case None => prev
      case Some(b) =>
        var cmd := Text.Lower(b.id);
        prev + [Candidate(cmd, if b.description != [] then b.description else "command: " + cmd, isValidId(cmd))]
  }

  const BUILTINS: seq<Candidate> := [
    Candidate("new", "start a new thread", true),
    Candidate("ctx", "show or update context", true),
    Candidate("agent", "set default engine", true),
    Candidate("model", "set model override", true),
    Candidate("reasoning", "set reasoning override", true),
    Candidate("trigger", "set trigger mode", true)]

  const TOPIC: Candidate := Candidate("topic", "create or bind a topic", true)
  const FILE: Candidate := Candidate("file", "upload or fetch files", true)
  const CANCEL: Candidate := Candidate("cancel", "cancel run", true)

  /** The built-in commands, the topic and file commands when enabled, and `cancel` last. */
  function TailCandidates(includeFile: bool, includeTopics: bool): (r: seq<Candidate>)
    ensures r != [] && r[|r| - 1] == CANCEL
  {
    BUILTINS + Optional(includeTopics, TOPIC) + Optional(includeFile, FILE) + [CANCEL]
  }

  /** Every candidate the builder considers, in order. */
  function Candidates(engineIds: seq<string>, aliases: seq<string>, backends: seq<Option<Backend>>,
                      isValidId: string -> bool, includeFile: bool, includeTopics: bool): (r: seq<Candidate>)
    ensures r != [] && r[|r| - 1] == CANCEL
  {
    EngineCandidates(engineIds) + AliasCandidates(aliases, isValidId) + BackendCandidates(backends, isValidId)
      + TailCandidates(includeFile, includeTopics)
  }

  function Entry(c: Candidate): BotCommand {
    BotCommand(c.command, c.description)
  }

  /** The first valid candidate of each name, in order: a name already
      listed and a candidate that fails its id check are skipped. */
  function Dedup(cands: seq<Candidate>): (r: seq<BotCommand>)
    ensures DedupOf(cands, r)
  {
    if cands == [] then []
    else
      var prev := Dedup(cands[..|cands| - 1]);
      DedupStep(cands, prev);
      Listed(prev, cands[|cands| - 1])
  }

  /** What `Dedup` promises: no name twice, every valid candidate's name
      listed, every entry from a valid candidate, and no more entries than
      candidates. */
  predicate DedupOf(cands: seq<Candidate>, r: seq<BotCommand>) {
    && NoDuplicates(r)
    && (forall k :: 0 <= k < |cands| && cands[k].valid ==> HasCommand(r, cands[k].command))
    && (forall i :: 0 <= i < |r| ==> FromValid(cands, r[i]))
    && |r| <= |cands|
  }

  /** `e` is the entry of a candidate that passed its id check. */
  predicate FromValid(cands: seq<Candidate>, e: BotCommand) {
    exists k :: 0 <= k < |cands| && cands[k].valid && Entry(cands[k]) == e
  }

  /** One more candidate: listed when it is valid and its name is new. */
  function Listed(prev: seq<BotCommand>, c: Candidate): seq<BotCommand> {
    if c.valid && !HasCommand(prev, c.command) then prev + [Entry(c)] else prev
  }

  lemma DedupStep(cands: seq<Candidate>, prev: seq<BotCommand>)
    requires cands != [] && DedupOf(cands[..|cands| - 1], prev)
    ensures DedupOf(cands, Listed(prev, cands[|cands| - 1]))
  {
    EntriesFromFront(cands, prev);
    NamesFromFront(cands, prev);
    var c := cands[|cands| - 1];
    if c.valid && !HasCommand(prev, c.command) {
      DedupAdd(cands, prev);
    } else {
      assert Listed(prev, c) == prev;
      assert forall k :: 0 <= k < |cands| && cands[k].valid ==> HasCommand(prev, cands[k].command);
    }
  }

  /** The entries listed for the front candidates come from candidates of the whole list. */
  lemma EntriesFromFront(cands: seq<Candidate>, prev: seq<BotCommand>)
    requires cands != [] && DedupOf(cands[..|cands| - 1], prev)
    ensures forall i :: 0 <= i < |prev| ==> FromValid(cands, prev[i])
  {
    var front := cands[..|cands| - 1];
    forall i | 0 <= i < |prev|
      ensures FromValid(cands, prev[i])
    {
      assert FromValid(front, prev[i]);
      var k :| 0 <= k < |front| && front[k].valid && Entry(front[k]) == prev[i];
      assert cands[k] == front[k];
    }
  }

  /** The names of the valid front candidates are listed. */
  lemma NamesFromFront(cands: seq<Candidate>, prev: seq<BotCommand>)
    requires cands != [] && DedupOf(cands[..|cands| - 1], prev)
    ensures forall k :: 0 <= k < |cands| - 1 && cands[k].valid ==> HasCommand(prev, cands[k].command)
  {
    var front := cands[..|cands| - 1];
    forall k | 0 <= k < |cands| - 1 && cands[k].valid
      ensures HasCommand(prev, cands[k].command)
    {
      assert front[k] == cands[k];
    }
  }

  /** A valid candidate with a new name is appended. */
  lemma DedupAdd(cands: seq<Candidate>, prev: seq<BotCommand>)
    requires cands != [] && NoDuplicates(prev) && |prev| < |cands|
    requires forall i :: 0 <= i < |prev| ==> FromValid(cands, prev[i])
    requires forall k :: 0 <= k < |cands| - 1 && cands[k].valid ==> HasCommand(prev, cands[k].command)
    requires cands[|cands| - 1].valid && !HasCommand(prev, cands[|cands| - 1].command)
    ensures DedupOf(cands, prev + [Entry(cands[|cands| - 1])])
  {
    var c := cands[|cands| - 1];
    var r := prev + [Entry(c)];
    assert forall i :: 0 <= i < |prev| ==> r[i] == prev[i];
    forall k | 0 <= k < |cands| && cands[k].valid
      ensures HasCommand(r, cands[k].command)
    {
      if k < |cands| - 1 {
        var i :| 0 <= i < |prev| && prev[i].command == cands[k].command;
        assert r[i] == prev[i];
      } else {
        assert r[|prev|].command == c.command;
      }
    }
    forall i | 0 <= i < |r|
      ensures FromValid(cands, r[i])
    {
      if i < |prev| {
        assert r[i] == prev[i];
      } else {
        assert Entry(cands[|cands| - 1]) == r[i];
      }
    }
  }

  /** The first valid candidate of a name gives its entry, and later ones
      with the same name change nothing. */
  lemma {:induction false} FirstCandidateWins(cands: seq<Candidate>, k: nat)
    requires k < |cands| && cands[k].valid
    requires forall j :: 0 <= j < k && cands[j].valid ==> cands[j].command != cands[k].command
    ensures exists i :: 0 <= i < |Dedup(cands)| && Dedup(cands)[i] == Entry(cands[k])
    decreases |cands|
  {
    var front := cands[..|cands| - 1];
    if k == |cands| - 1 {
      var prev := Dedup(front);
      assert !HasCommand(prev, cands[k].command) by {
        if HasCommand(prev, cands[k].command) {
          assert false;
        }
      }
      assert Dedup(cands) == prev + [Entry(cands[k])];
      assert Dedup(cands)[|prev|] == Entry(cands[k]);
    } else {
      assert front[k] == cands[k];
      FirstCandidateWins(front, k);
      var i :| 0 <= i < |Dedup(front)| && Dedup(front)[i] == Entry(cands[k]);
      assert Dedup(cands)[i] == Entry(cands[k]);
    }
  }

  /** `commands[:100]`, with the last entry replaced by `cancel` when the
      cut dropped it. */
  function Truncated(cmds: seq<BotCommand>): (r: seq<BotCommand>)
    ensures |r| <= MAX_BOT_COMMANDS
    ensures |cmds| <= MAX_BOT_COMMANDS ==> r == cmds
    ensures |cmds| > MAX_BOT_COMMANDS ==> |r| == MAX_BOT_COMMANDS && r[..MAX_BOT_COMMANDS - 1] == cmds[..MAX_BOT_COMMANDS - 1]
    ensures HasCommand(cmds, "cancel") ==> HasCommand(r, "cancel")
    ensures NoDuplicates(cmds) ==> NoDuplicates(r)
    ensures forall i :: 0 <= i < |r| ==> r[i] in cmds || r[i] == Entry(CANCEL)
  {
    if |cmds| <= MAX_BOT_COMMANDS then cmds
    else
      var cut := cmds[..MAX_BOT_COMMANDS];
      if HasCommand(cut, "cancel") then cut
      else
        var r := cut[..MAX_BOT_COMMANDS - 1] + [Entry(CANCEL)];
        assert r[MAX_BOT_COMMANDS - 1].command == "cancel";
        assert forall i :: 0 <= i < MAX_BOT_COMMANDS - 1 ==> r[i] == cut[i];
        r
  }

  /** What `build_bot_commands` returns. */
  function BotCommands(engineIds: seq<string>, aliases: seq<string>, backends: seq<Option<Backend>>,
                       isValidId: string -> bool, includeFile: bool, includeTopics: bool): seq<BotCommand> {
    Truncated(Dedup(Candidates(engineIds, aliases, backends, isValidId, includeFile, includeTopics)))
  }

  /** The menu has at most 100 entries, no name twice, and `cancel`. */
  lemma {:induction false} MenuShape(engineIds: seq<string>, aliases: seq<string>, backends: seq<Option<Backend>>,
                                     isValidId: string -> bool, includeFile: bool, includeTopics: bool)
    ensures var r := BotCommands(engineIds, aliases, backends, isValidId, includeFile, includeTopics);
      |r| <= MAX_BOT_COMMANDS && NoDuplicates(r) && HasCommand(r, "cancel")
  {
    var cands := Candidates(engineIds, aliases, backends, isValidId, includeFile, includeTopics);
    assert cands[|cands| - 1].valid && cands[|cands| - 1].command == "cancel";
  }

  /** An alias that fails the id check gets no `work on:` entry of its own:
      every entry of the menu comes from a candidate that passed. */
  lemma {:induction false} InvalidAliasSkipped(aliases: seq<string>, isValidId: string -> bool, k: nat)
    requires k < |aliases| && !isValidId(Text.Lower(aliases[k]))
    ensures AliasCandidates(aliases, isValidId)[k] == Candidate(Text.Lower(aliases[k]), "work on: " + Text.Lower(aliases[k]), false)
    decreases |aliases|
  {
    if k < |aliases| - 1 {
      assert aliases[..|aliases| - 1][k] == aliases[k];
      InvalidAliasSkipped(aliases[..|aliases| - 1], isValidId, k);
    }
  }

  /** `seen` is the set of names listed so far. */
  ghost predicate SeenIs(seen: set<string>, commands: seq<BotCommand>) {
    forall name :: name in seen <==> HasCommand(commands, name)
  }

  /** Adds a candidate unless it fails its id check or its name is listed. */
  method Add(commands: seq<BotCommand>, seen: set<string>, c: Candidate, ghost cands: seq<Candidate>)
    returns (commands': seq<BotCommand>, seen': set<string>)
    requires commands == Dedup(cands) && SeenIs(seen, commands)
    ensures commands' == Dedup(cands + [c]) && SeenIs(seen', commands')
  {
    assert (cands + [c])[..|cands|] == cands;
    if c.command in seen || !c.valid {
      commands', seen' := commands, seen;
    } else {
      commands' := commands + [Entry(c)];
      seen' := seen + {c.command};
      assert commands'[|commands|] == Entry(c);
      forall name | HasCommand(commands', name)
        ensures name in seen'
      {
        var i :| 0 <= i < |commands'| && commands'[i].command == name;
        if i < |commands| {
          assert commands[i].command == name;
        }
      }
    }
  }

  lemma AppendOne(cands: seq<Candidate>, xs: seq<Candidate>, ys: seq<Candidate>, c: Candidate)
    requires ys == xs + [c]
    ensures cands + ys == (cands + xs) + [c]
  {
  }

  /** The loop over the engines. */
  method AddEngines(commands: seq<BotCommand>, seen: set<string>, engineIds: seq<string>, ghost cands: seq<Candidate>)
    returns (commands': seq<BotCommand>, seen': set<string>)
    requires commands == Dedup(cands) && SeenIs(seen, commands)
    ensures commands' == Dedup(cands + EngineCandidates(engineIds)) && SeenIs(seen', commands')
  {
    commands', seen' := commands, seen;
    assert cands + EngineCandidates(engineIds[..0]) == cands;
    for i := 0 to |engineIds|
      invariant commands' == Dedup(cands + EngineCandidates(engineIds[..i])) && SeenIs(seen', commands')
    {
      var cmd := Text.Lower(engineIds[i]);
      var c := Candidate(cmd, "use engine: " + cmd, true);
      commands', seen' := Add(commands', seen', c, cands + EngineCandidates(engineIds[..i]));
      assert engineIds[..i + 1][..i] == engineIds[..i];
      AppendOne(cands, EngineCandidates(engineIds[..i]), EngineCandidates(engineIds[..i + 1]), c);
    }
    assert engineIds[..|engineIds|] == engineIds;
  }

  /** The loop over the project aliases. */
  method AddAliases(commands: seq<BotCommand>, seen: set<string>, aliases: seq<string>, isValidId: string -> bool,
                    ghost cands: seq<Candidate>)
    returns (commands': seq<BotCommand>, seen': set<string>)
    requires commands == Dedup(cands) && SeenIs(seen, commands)
    ensures commands' == Dedup(cands + AliasCandidates(aliases, isValidId)) && SeenIs(seen', commands')
  {
    commands', seen' := commands, seen;
    assert cands + AliasCandidates(aliases[..0], isValidId) == cands;
    for i := 0 to |aliases|
      invariant commands' == Dedup(cands + AliasCandidates(aliases[..i], isValidId)) && SeenIs(seen', commands')
    {
      var cmd := Text.Lower(aliases[i]);
      var c := Candidate(cmd, "work on: " + cmd, isValidId(cmd));
      commands', seen' := Add(commands', seen', c, cands + AliasCandidates(aliases[..i], isValidId));
      assert aliases[..i + 1][..i] == aliases[..i];
      AppendOne(cands, AliasCandidates(aliases[..i], isValidId), AliasCandidates(aliases[..i + 1], isValidId), c);
    }
    assert aliases[..|aliases|] == aliases;
  }

  /** The loop over the plugin commands; refused plugins are skipped. */
  method AddBackends(commands: seq<BotCommand>, seen: set<string>, backends: seq<Option<Backend>>,
                     isValidId: string -> bool, ghost cands: seq<Candidate>)
    returns (commands': seq<BotCommand>, seen': set<string>)
    requires commands == Dedup(cands) && SeenIs(seen, commands)
    ensures commands' == Dedup(cands + BackendCandidates(backends, isValidId)) && SeenIs(seen', commands')
  {
    commands', seen' := commands, seen;
    assert cands + BackendCandidates(backends[..0], isValidId) == cands;
    for i := 0 to |backends|
      invariant commands' == Dedup(cands + BackendCandidates(backends[..i], isValidId)) && SeenIs(seen', commands')
    {
      assert backends[..i + 1][..i] == backends[..i];
      if backends[i].Some? {
        var b := backends[i].value;
        var cmd := Text.Lower(b.id);
        var description := if b.description != [] then b.description else "command: " + cmd;
        var c := Candidate(cmd, description, isValidId(cmd));
        commands', seen' := Add(commands', seen', c, cands + BackendCandidates(backends[..i], isValidId));
        AppendOne(cands, BackendCandidates(backends[..i], isValidId), BackendCandidates(backends[..i + 1], isValidId), c);
      } else {
        assert BackendCandidates(backends[..i + 1], isValidId) == BackendCandidates(backends[..i], isValidId);
      }
    }
    assert backends[..|backends|] == backends;
  }

  /** The loop over the built-in commands. */
  method AddBuiltins(commands: seq<BotCommand>, seen: set<string>, ghost cands: seq<Candidate>)
    returns (commands': seq<BotCommand>, seen': set<string>)
    requires commands == Dedup(cands) && SeenIs(seen, commands)
    ensures commands' == Dedup(cands + BUILTINS) && SeenIs(seen', commands')
  {
    commands', seen' := AddEach(commands, seen, BUILTINS, cands);
  }

  /** Adds each of `cs` in turn. */
  method AddEach(commands: seq<BotCommand>, seen: set<string>, cs: seq<Candidate>, ghost cands: seq<Candidate>)
    returns (commands': seq<BotCommand>, seen': set<string>)
    requires commands == Dedup(cands) && SeenIs(seen, commands)
    ensures commands' == Dedup(cands + cs) && SeenIs(seen', commands')
  {
    commands', seen' := commands, seen;
    assert cands + cs[..0] == cands;
    for i := 0 to |cs|
      invariant commands' == Dedup(cands + cs[..i]) && SeenIs(seen', commands')
    {
      commands', seen' := Add(commands', seen', cs[i], cands + cs[..i]);
      assert cs[..i + 1] == cs[..i] + [cs[i]];
      AppendOne(cands, cs[..i], cs[..i + 1], cs[i]);
    }
    assert cs[..|cs|] == cs;
  }

  /** A command added only when its feature is enabled. */
  function Optional(enabled: bool, c: Candidate): seq<Candidate> {
    if enabled then [c] else []
  }

  method AddOptional(commands: seq<BotCommand>, seen: set<string>, enabled: bool, c: Candidate, ghost cands: seq<Candidate>)
    returns (commands': seq<BotCommand>, seen': set<string>)
    requires commands == Dedup(cands) && SeenIs(seen, commands)
    ensures commands' == Dedup(cands + Optional(enabled, c)) && SeenIs(seen', commands')
  {
    if enabled {
      commands', seen' := Add(commands, seen, c, cands);
    } else {
      assert cands + Optional(enabled, c) == cands;
      commands', seen' := commands, seen;
    }
  }

  /** The built-in commands, the optional topic and file commands, and `cancel`. */
  method AddTail(commands: seq<BotCommand>, seen: set<string>, includeFile: bool, includeTopics: bool,
                 ghost cands: seq<Candidate>)
    returns (commands': seq<BotCommand>)
    requires commands == Dedup(cands) && SeenIs(seen, commands)
    ensures commands' == Dedup(cands + TailCandidates(includeFile, includeTopics))
  {
    var seen';
    commands', seen' := AddBuiltins(commands, seen, cands);
    ghost var a := cands + BUILTINS;
    commands', seen' := AddOptional(commands', seen', includeTopics, TOPIC, a);
    ghost var b := a + Optional(includeTopics, TOPIC);
    commands', seen' := AddOptional(commands', seen', includeFile, FILE, b);
    ghost var c := b + Optional(includeFile, FILE);
    commands', seen' := Add(commands', seen', CANCEL, c);
    TailShape(cands, includeFile, includeTopics);
  }

  lemma TailShape(cands: seq<Candidate>, includeFile: bool, includeTopics: bool)
    ensures cands + BUILTINS + Optional(includeTopics, TOPIC) + Optional(includeFile, FILE) + [CANCEL]
         == cands + TailCandidates(includeFile, includeTopics)
  {
  }

  /** The final cut to 100 entries. */
  method Truncate(commands: seq<BotCommand>) returns (r: seq<BotCommand>)
    ensures r == Truncated(commands)
  {
    r := commands;
    if |commands| > MAX_BOT_COMMANDS {
      r := commands[..MAX_BOT_COMMANDS];
      var hasCancel := false;
      for i := 0 to |r|
        invariant hasCancel <==> exists j :: 0 <= j < i && r[j].command == "cancel"
      {
        if r[i].command == "cancel" {
          hasCancel := true;
        }
      }
      if !hasCancel {
        r := r[MAX_BOT_COMMANDS - 1 := Entry(CANCEL)];
        assert r == commands[..MAX_BOT_COMMANDS][..MAX_BOT_COMMANDS - 1] + [Entry(CANCEL)];
      }
    }
  }

  /** `build_bot_commands`, with the runtime's engines and aliases, the
      loaded plugin commands and the id check as inputs. */
  method BuildBotCommands(engineIds: seq<string>, aliases: seq<string>, backends: seq<Option<Backend>>,
                          isValidId: string -> bool, includeFile: bool, includeTopics: bool)
    returns (commands: seq<BotCommand>)
    ensures commands == BotCommands(engineIds, aliases, backends, isValidId, includeFile, includeTopics)
    ensures |commands| <= MAX_BOT_COMMANDS && NoDuplicates(commands) && HasCommand(commands, "cancel")
  {
    var seen: set<string> := {};
    commands, seen := AddEngines([], seen, engineIds, []);
    ghost var cands := EngineCandidates(engineIds);
    assert [] + cands == cands;
    commands, seen := AddAliases(commands, seen, aliases, isValidId, cands);
    cands := cands + AliasCandidates(aliases, isValidId);
    commands, seen := AddBackends(commands, seen, backends, isValidId, cands);
    cands := cands + BackendCandidates(backends, isValidId);
    commands := AddTail(commands, seen, includeFile, includeTopics, cands);
    cands := cands + TailCandidates(includeFile, includeTopics);
    assert cands == Candidates(engineIds, aliases, backends, isValidId, includeFile, includeTopics);
    commands := Truncate(commands);
    MenuShape(engineIds, aliases, backends, isValidId, includeFile, includeTopics);
  }
}
