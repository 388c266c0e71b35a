/** The engine router: the configured runner entries, each with a status,
    indexed by engine id, with one default engine. Resume tokens are routed to
    the entry of their engine; there is no fallback to another engine. */
module Router {
  import opened Wrappers
  import opened Model
  import Runner
  import Text

  datatype EngineStatus = StatusOk | MissingCli | BadConfig | LoadError

  /** A configured engine. Its runner is identified by the engine id; the
      behaviour of its resume pattern is a parameter of the lookups below. */
  datatype RunnerEntry = RunnerEntry(engine: EngineId, status: EngineStatus, issue: Option<string>)

  /** `RunnerEntry.available`: a runner built with default settings after a
      bad configuration still runs. */
  predicate Available(e: RunnerEntry) {
    e.status == StatusOk || e.status == BadConfig
  }

  predicate DistinctEngines(entries: seq<RunnerEntry>) {
    forall i, j :: 0 <= i < j < |entries| ==> entries[i].engine != entries[j].engine
  }

  /** The index of the engine in `entries`, if configured. */
  predicate IndexOf(entries: seq<RunnerEntry>, byEngine: map<EngineId, RunnerEntry>) {
    && (forall i :: 0 <= i < |entries| ==> entries[i].engine in byEngine && byEngine[entries[i].engine] == entries[i])
    && (forall e :: e in byEngine ==> exists i :: 0 <= i < |entries| && entries[i].engine == e)
  }

  datatype AutoRouter = AutoRouter(entries: seq<RunnerEntry>, byEngine: map<EngineId, RunnerEntry>, defaultEngine: EngineId)

  /** What the constructor guarantees of a router. */
  predicate WellFormed(r: AutoRouter) {
    && r.entries != []
    && DistinctEngines(r.entries)
    && IndexOf(r.entries, r.byEngine)
    && r.defaultEngine in r.byEngine
  }

  /** The constructor's loop: fills the index, failing on the first engine
      seen twice. */
  method BuildIndex(entries: seq<RunnerEntry>) returns (r: Result<map<EngineId, RunnerEntry>>)
    ensures r.Err? <==> !DistinctEngines(entries)
    ensures r.Ok? ==> IndexOf(entries, r.value)
  {
    var byEngine: map<EngineId, RunnerEntry> := map[];
    for i := 0 to |entries|
      invariant DistinctEngines(entries[..i])
      invariant IndexOf(entries[..i], byEngine)
    {
      var entry := entries[i];
      if entry.engine in byEngine {
        var j :| 0 <= j < i && entries[j].engine == entry.engine;
        return Err("duplicate runner engine: " + entry.engine);
      }
      byEngine := byEngine[entry.engine := entry];
      assert entries[..i + 1] == entries[..i] + [entry];
    }
    assert entries[..|entries|] == entries;
    return Ok(byEngine);
  }

  /** `AutoRouter(entries, default_engine)`: no entries, a duplicate engine
      or an unconfigured default engine is an error. */
  method New(entries: seq<RunnerEntry>, defaultEngine: EngineId) returns (r: Result<AutoRouter>)
    ensures r.Err? <==>
      || entries == []
      || !DistinctEngines(entries)
      || (forall i :: 0 <= i < |entries| ==> entries[i].engine != defaultEngine)
    ensures r.Ok? ==> WellFormed(r.value) && r.value.entries == entries && r.value.defaultEngine == defaultEngine
  {
    if entries == [] {
      return Err("AutoRouter requires at least one runner.");
    }
    var index := BuildIndex(entries);
    if index.Err? {
      return Err(index.error);
    }
    if defaultEngine !in index.value {
      return Err("default engine " + Text.Repr(defaultEngine) + " is not configured");
    }
    return Ok(AutoRouter(entries, index.value, defaultEngine));
  }

  /** `entry_for_engine`: `None` means the default engine; an engine that is
      not configured is an error. */
  function EntryForEngine(r: AutoRouter, engine: Option<EngineId>): (e: Result<RunnerEntry>)
    requires WellFormed(r)
    ensures engine.None? ==> e.Ok? && e.value.engine == r.defaultEngine
    ensures engine.Some? ==> (e.Ok? <==> exists i :: 0 <= i < |r.entries| && r.entries[i].engine == engine.value)
    ensures e.Ok? ==> e.value in r.entries
    ensures e.Ok? && engine.Some? ==> e.value.engine == engine.value
  {
    var name := engine.GetOr(r.defaultEngine);
    if name in r.byEngine then Ok(r.byEngine[name])
    else Err("engine " + Text.Repr(name) + " is unavailable: engine not configured")
  }

  /** `entry_for`: the entry of the token's engine, or the default entry. */
  function EntryFor(r: AutoRouter, resume: Option<ResumeToken>): (e: Result<RunnerEntry>)
    requires WellFormed(r)
    ensures e.Ok? ==> e.value.engine == (if resume.Some? then resume.value.engine else r.defaultEngine)
    ensures resume.None? ==> e.Ok?
  {
    EntryForEngine(r, if resume.Some? then Some(resume.value.engine) else None)
  }

  /** `runner_for`: the entry of the token's engine if it is available;
      an unavailable entry is an error, never replaced by another. */
  function RunnerFor(r: AutoRouter, resume: Option<ResumeToken>): (e: Result<RunnerEntry>)
    requires WellFormed(r)
    ensures e.Ok? <==> EntryFor(r, resume).Ok? && Available(EntryFor(r, resume).value)
    ensures e.Ok? ==> e.value.engine == (if resume.Some? then resume.value.engine else r.defaultEngine)
  {
    var entry :- EntryFor(r, resume);
    if !Available(entry) then
      Err("engine " + Text.Repr(entry.engine) + " is unavailable" + (if entry.issue.Some? && entry.issue.value != [] then ": " + entry.issue.value else ""))
    else Ok(entry)
  }

  /** `format_resume`: the resume line of the token's runner. */
  function FormatResume(r: AutoRouter, token: ResumeToken): (s: Result<string>)
    requires WellFormed(r)
    ensures s.Ok? <==> token.engine in r.byEngine
    ensures s.Ok? ==> s == Runner.FormatResume(token.engine, token)
  {
    var entry :- EntryFor(r, Some(token));
    Runner.FormatResume(entry.engine, token)
  }

  /** The runners' `extract_resume` tried in entry order; `groups(engine, text)`
      are the captures of that engine's resume pattern. */
  function FirstExtract(entries: seq<RunnerEntry>, text: string, groups: (EngineId, string) -> seq<string>): (t: Option<ResumeToken>)
    ensures t.None? <==> forall i :: 0 <= i < |entries| ==>
      Runner.ExtractResume(entries[i].engine, Some(text), groups(entries[i].engine, text)).None?
    ensures t.Some? ==>
      exists i :: 0 <= i < |entries| &&
        t == Runner.ExtractResume(entries[i].engine, Some(text), groups(entries[i].engine, text)) &&
        (forall j :: 0 <= j < i ==> Runner.ExtractResume(entries[j].engine, Some(text), groups(entries[j].engine, text)).None?)
  {
    if entries == [] then None
    else
      var t := Runner.ExtractResume(entries[0].engine, Some(text), groups(entries[0].engine, text));
      if t.Some? then t
      else
        var rest := FirstExtract(entries[1..], text, groups);
        assert forall i :: 1 <= i < |entries| ==> entries[i] == entries[1..][i - 1];
        rest
  }

  /** `extract_resume`: nothing for empty text; else the first entry whose
      runner finds a token, in entry order. */
  function ExtractResume(r: AutoRouter, text: Option<string>, groups: (EngineId, string) -> seq<string>): (t: Option<ResumeToken>)
    ensures text.None? || text == Some([]) ==> t.None?
    ensures text.Some? && text.value != [] ==> t == FirstExtract(r.entries, text.value, groups)
  {
    if text.None? || text.value == [] then None else FirstExtract(r.entries, text.value, groups)
  }

  /** `resolve_resume`: a token in the message wins over one in the replied-to message. */
  function ResolveResume(r: AutoRouter, text: Option<string>, replyText: Option<string>,
                         groups: (EngineId, string) -> seq<string>): (t: Option<ResumeToken>)
    ensures ExtractResume(r, text, groups).Some? ==> t == ExtractResume(r, text, groups)
    ensures ExtractResume(r, text, groups).None? ==> t == ExtractResume(r, replyText, groups)
  {
    var own := ExtractResume(r, text, groups);
    if own.Some? then own
    else if replyText.None? then None
    else ExtractResume(r, replyText, groups)
  }

  /** The engine a resolved token is for: any token the router extracts
      comes from a configured entry. */
  lemma {:induction false} ExtractedEngineConfigured(r: AutoRouter, text: string, groups: (EngineId, string) -> seq<string>)
    requires WellFormed(r)
    requires FirstExtract(r.entries, text, groups).Some?
    ensures FirstExtract(r.entries, text, groups).value.engine in r.byEngine
    ensures EntryFor(r, FirstExtract(r.entries, text, groups)).Ok?
  {
    var t := FirstExtract(r.entries, text, groups);
    var i :| 0 <= i < |r.entries| &&
      t == Runner.ExtractResume(r.entries[i].engine, Some(text), groups(r.entries[i].engine, text));
    assert t.value.engine == r.entries[i].engine;
  }
}
