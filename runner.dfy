/** The runner protocol shared by every engine: the resume line format, the
    per-session lock table, the check applied to every `Started` event, and the
    state machine that turns the engine's JSONL output into Takopi events,
    line by line, dropping everything after the first `Completed`. */
module Runner {
  import opened Wrappers
  import opened Model
  import Json
  import Text
  import Scheduler

  /** `format_resume`: the resume line of a token of this engine; a token of
      another engine is refused. */
  function FormatResume(engine: EngineId, token: ResumeToken): (r: Result<string>)
    ensures r.Err? <==> token.engine != engine
    ensures r.Ok? ==> |r.value| == |engine| + |token.value| + 10
    ensures r.Ok? ==> r.value[..|engine| + 9] == "`" + engine + " resume "
    ensures r.Ok? ==> r.value[|engine| + 9..|r.value| - 1] == token.value && r.value[|r.value| - 1] == '`'
  {
    if token.engine != engine then Err("resume token is for engine " + Text.Repr(token.engine))
    else Ok("`" + engine + " resume " + token.value + "`")
  }

  /** Two tokens of the engine have the same resume line only if they are equal. */
  lemma FormatResumeInjective(engine: EngineId, a: ResumeToken, b: ResumeToken)
    requires a.engine == engine && b.engine == engine
    requires FormatResume(engine, a) == FormatResume(engine, b)
    ensures a == b
  {
    var ra, rb := FormatResume(engine, a).value, FormatResume(engine, b).value;
    assert a.value == ra[|engine| + 9..|ra| - 1];
    assert b.value == rb[|engine| + 9..|rb| - 1];
  }

  /** The last non-empty entry of a list of captured `token` groups. */
  function LastNonEmpty(groups: seq<string>): (r: Option<string>)
    ensures r.None? <==> forall i :: 0 <= i < |groups| ==> groups[i] == []
    ensures r.Some? ==> r.value != []
    ensures r.Some? ==>
      exists i :: 0 <= i < |groups| && groups[i] == r.value && (forall j :: i < j < |groups| ==> groups[j] == [])
  {
    if groups == [] then None
    else if groups[|groups| - 1] != [] then Some(groups[|groups| - 1])
    else
      var r := LastNonEmpty(groups[..|groups| - 1]);
      assert forall i :: 0 <= i < |groups| - 1 ==> groups[..|groups| - 1][i] == groups[i];
      r
  }

  /** `extract_resume`: `groups` are the `token` captures of the engine's
      resume pattern over `text`, in match order. Empty text gives none; else
      the last non-empty capture, as a token of this engine. */
  function ExtractResume(engine: EngineId, text: Option<string>, groups: seq<string>): (r: Option<ResumeToken>)
    ensures text.None? || text == Some([]) ==> r.None?
    ensures r.Some? ==> r.value.engine == engine && Some(r.value.value) == LastNonEmpty(groups)
    ensures text.Some? && text.value != [] && LastNonEmpty(groups).Some? ==> r.Some?
  {
    if text.None? || text.value == [] then None
    else
      match LastNonEmpty(groups)
      case None => None
      case Some(v) => Some(ResumeToken(engine, v))
  }

  /** An `anyio.Semaphore(1)`; `available` is its counter. */
  class Semaphore {
    var available: nat

    constructor ()
      ensures available == 1
    {
      available := 1;
    }
  }

  /** The `session_locks` table of a runner: one semaphore per `engine:value` key. */
  class SessionLockTable {
    var locks: map<string, Semaphore>

    /** Different keys never share a semaphore. */
    ghost predicate Valid()
      reads this
    {
      forall k1, k2 :: k1 in locks && k2 in locks && k1 != k2 ==> locks[k1] != locks[k2]
    }

    constructor ()
      ensures Valid() && locks == map[]
    {
      locks := map[];
    }

    /** `lock_for`: the semaphore of the token's key, created on first use. */
    method LockFor(token: ResumeToken) returns (lock: Semaphore)
      requires Valid()
      modifies this
      ensures Valid()
      ensures Scheduler.ThreadKey(token) in locks && locks[Scheduler.ThreadKey(token)] == lock
      ensures Scheduler.ThreadKey(token) in old(locks) ==> locks == old(locks)
      ensures Scheduler.ThreadKey(token) !in old(locks) ==>
        fresh(lock) && lock.available == 1 && locks == old(locks)[Scheduler.ThreadKey(token) := lock]
    {
      var key := Scheduler.ThreadKey(token);
      if key in locks {
        lock := locks[key];
        return;
      }
      lock := new Semaphore();
      locks := locks[key := lock];
    }

    /** The lock `run_with_resume_lock` holds while the run streams: a token
        of another engine is refused, a run without a token takes no lock,
        and a run with one takes the token's semaphore. */
    method LockForRun(engine: EngineId, resume: Option<ResumeToken>) returns (r: Result<Option<Semaphore>>)
      requires Valid()
      modifies this
      ensures Valid()
      ensures r.Err? <==> resume.Some? && resume.value.engine != engine
      ensures resume.None? ==> r == Ok(None) && locks == old(locks)
      ensures r.Ok? && resume.Some? ==>
        r.value.Some? && Scheduler.ThreadKey(resume.value) in locks && locks[Scheduler.ThreadKey(resume.value)] == r.value.value
      ensures r.Err? ==> locks == old(locks)
      ensures r.Ok? && resume.Some? && Scheduler.ThreadKey(resume.value) in old(locks) ==>
        locks == old(locks) && r.value.value == old(locks)[Scheduler.ThreadKey(resume.value)]
      ensures r.Ok? && resume.Some? && Scheduler.ThreadKey(resume.value) !in old(locks) ==>
        fresh(r.value.value) && locks == old(locks)[Scheduler.ThreadKey(resume.value) := r.value.value]
    {
      if resume.Some? && resume.value.engine != engine {
        return Err("resume token is for engine " + Text.Repr(resume.value.engine) + ", not " + Text.Repr(engine));
      }
      if resume.None? {
        return Ok(None);
      }
      var lock := LockFor(resume.value);
      return Ok(Some(lock));
    }
  }

  /** The token of the first `Started` event of a stream, if any. */
  function FirstStarted(es: seq<Event>): (r: Option<ResumeToken>)
    ensures r.None? <==> forall i :: 0 <= i < |es| ==> !es[i].Started?
    ensures r.Some? ==> exists i :: 0 <= i < |es| && es[i].Started? && es[i].started.resume == r.value
                                     && forall j :: 0 <= j < i ==> !es[j].Started?
  {
    if es == [] then None
    else if es[0].Started? then Some(es[0].started.resume)
    else
      var rest := FirstStarted(es[1..]);
      assert forall i :: 1 <= i < |es| ==> es[i] == es[1..][i - 1];
      rest
  }

  /** The lock `run_locked` holds for a run whose events are `events`: with a
      token, the one `run_with_resume_lock` takes; without one, the semaphore
      of the token of the first `Started` event, or none when no session
      starts. */
  method RunLockedLock(table: SessionLockTable, engine: EngineId, resume: Option<ResumeToken>, events: seq<Event>)
    returns (r: Result<Option<Semaphore>>)
    requires table.Valid()
    modifies table
    ensures table.Valid()
    ensures r.Err? <==> resume.Some? && resume.value.engine != engine
    ensures resume.Some? && r.Ok? ==> r.value.Some? && Scheduler.ThreadKey(resume.value) in table.locks && table.locks[Scheduler.ThreadKey(resume.value)] == r.value.value
    ensures resume.None? ==> r.Ok? && (r.value.None? <==> FirstStarted(events).None?)
    ensures resume.None? && FirstStarted(events).None? ==> table.locks == old(table.locks)
    ensures resume.None? && FirstStarted(events).Some? ==>
      Scheduler.ThreadKey(FirstStarted(events).value) in table.locks
      && table.locks[Scheduler.ThreadKey(FirstStarted(events).value)] == r.value.value
  {
    if resume.Some? {
      r := table.LockForRun(engine, resume);
      return;
    }
    var first := FirstStarted(events);
    if first.None? {
      return Ok(None);
    }
    var lock := table.LockFor(first.value);
    return Ok(Some(lock));
  }

  /** Two lookups in a fresh table give the same semaphore exactly when the
      tokens are equal (engine ids carry no colon). */
  method LockIdentityScenario(a: ResumeToken, b: ResumeToken) returns (same: bool)
    requires ':' !in a.engine && ':' !in b.engine
    ensures same <==> a == b
  {
    var table := new SessionLockTable();
    var la := table.LockFor(a);
    var lb := table.LockFor(b);
    same := la == lb;
    Scheduler.ThreadKeyInjective(a, b);
  }

  /** The id of the `n`-th note of a run: `"{tag}.note.{n}"`. */
  function NoteId(tag: string, n: nat): (id: string)
    ensures |id| == |tag| + 6 + |Text.NatToString(n)|
    ensures id[..|tag| + 6] == tag + ".note."
    ensures id[|tag| + 6..] == Text.NatToString(n)
  {
    tag + ".note." + Text.NatToString(n)
  }

  /** Distinct sequence numbers give distinct note ids. */
  lemma NoteIdInjective(tag: string, a: nat, b: nat)
    requires NoteId(tag, a) == NoteId(tag, b)
    ensures a == b
  {
    Text.NatToStringInjective(a, b);
  }

  /** `JsonlRunState`: the per-run counter behind note ids. */
  class JsonlRunState {
    var noteSeq: nat

    constructor ()
      ensures noteSeq == 0
    {
      noteSeq := 0;
    }

    /** `next_note_id`: advances the counter and names the note after its new value. */
    method NextNoteId(tag: string) returns (id: string)
      modifies this
      ensures noteSeq == old(noteSeq) + 1
      ensures id == NoteId(tag, noteSeq)
    {
      noteSeq := noteSeq + 1;
      id := NoteId(tag, noteSeq);
    }
  }

  /** Two notes taken one after the other from the same run state never share an id. */
  method TwoNotesScenario(tag: string) returns (first: string, second: string)
    ensures first != second
  {
    var st := new JsonlRunState();
    first := st.NextNoteId(tag);
    second := st.NextNoteId(tag);
    if first == second {
      NoteIdInjective(tag, 1, 2);
    }
  }

  /** `note_event`: a completed warning action carrying `message`, at level
      info when `ok` and warning otherwise. */
  function NoteEvent(engine: EngineId, noteId: string, message: string, ok: bool, detail: Json.Fields): (e: Event)
    ensures e.ActionEv? && e.act.engine == engine && e.act.phase == PhaseCompleted
    ensures e.act.action.id == noteId && e.act.action.kind == Warning && e.act.action.title == message
    ensures e.act.ok == Some(ok) && e.act.message == Some(message)
    ensures e.act.level == Some(if ok then LevelInfo else LevelWarning)
  {
    ActionEv(ActionEvent(engine, Action(noteId, Warning, message, detail), PhaseCompleted,
      Some(ok), Some(message), Some(if ok then LevelInfo else LevelWarning)))
  }

  /** `process_error_events`: after a non-zero exit code, a warning note and a
      failed `Completed` that carries the session found, else the resume token. */
  function ProcessErrorEvents(engine: EngineId, tag: string, rc: int, resume: Option<ResumeToken>,
                              found: Option<ResumeToken>, noteId: string): (es: seq<Event>)
    ensures |es| == 2 && es[0].ActionEv? && es[1].Completed?
    ensures es[0].act.level == Some(LevelWarning)
    ensures !es[1].completed.ok && es[1].completed.answer == []
    ensures es[1].completed.resume == (if found.Some? then found else resume)
    ensures es[1].completed.error == Some(tag + " failed (rc=" + Text.IntToString(rc) + ").")
    ensures es[0].act.engine == engine && es[0].act.action.id == noteId && es[0].act.ok == Some(false)
    ensures es[0].act.message == es[1].completed.error && es[0].act.action.title == es[1].completed.error.value
    ensures CountCompleted(es) == 1 && CountStarted(es) == 0
  {
    var message := tag + " failed (rc=" + Text.IntToString(rc) + ").";
    var es := [NoteEvent(engine, noteId, message, false, []),
               Completed(CompletedEvent(engine, false, "", OrElse(found, resume), Some(message), None))];
    assert es[1..] == [es[1]];
    assert CountCompleted([es[1]]) == 1 && CountStarted([es[1]]) == 0;
    es
  }

  /** The error of a process failure names the exit code: two different exit
      codes never give the same error. */
  lemma ProcessErrorNamesRc(engine: EngineId, tag: string, rc1: int, rc2: int, resume: Option<ResumeToken>,
                            found: Option<ResumeToken>, noteId: string)
    requires rc1 != rc2
    ensures ProcessErrorEvents(engine, tag, rc1, resume, found, noteId)[1].completed.error
         != ProcessErrorEvents(engine, tag, rc2, resume, found, noteId)[1].completed.error
  {
    var head := tag + " failed (rc=";
    var m1 := head + Text.IntToString(rc1) + ").";
    var m2 := head + Text.IntToString(rc2) + ").";
    if m1 == m2 {
      assert m1[|head|..|m1| - 2] == Text.IntToString(rc1);
      assert m2[|head|..|m2| - 2] == Text.IntToString(rc2);
      Text.ParseIntRoundTrip(rc1);
      Text.ParseIntRoundTrip(rc2);
      assert false;
    }
  }

  /** `stream_end_events`: the output ended without a result, so a failed
      `Completed` that carries the session found, else the resume token. */
  function StreamEndEvents(engine: EngineId, tag: string, resume: Option<ResumeToken>,
                           found: Option<ResumeToken>): (es: seq<Event>)
    ensures |es| == 1 && es[0].Completed? && !es[0].completed.ok && es[0].completed.answer == []
    ensures es[0].completed.resume == (if found.Some? then found else resume)
    ensures es[0].completed.error == Some(tag + " finished without a result event")
    ensures CountCompleted(es) == 1 && CountStarted(es) == 0
  {
    [Completed(CompletedEvent(engine, false, "", OrElse(found, resume),
      Some(tag + " finished without a result event"), None))]
  }

  /** `handle_started_event`: a `Started` of another engine, one whose token
      differs from the expected one, or one whose token differs from the
      session already found is an error; otherwise the session becomes the
      event's token, and the event is emitted only if none was found before. */
  function HandleStartedEvent(engine: EngineId, event: StartedEvent, expected: Option<ResumeToken>,
                              found: Option<ResumeToken>): (r: Result<(Option<ResumeToken>, bool)>)
    ensures r.Err? <==>
      event.engine != engine
      || (expected.Some? && event.resume != expected.value)
      || (found.Some? && event.resume != found.value)
    ensures r.Ok? ==> r.value.0 == Some(event.resume)
    ensures r.Ok? ==> (r.value.1 <==> found.None?)
  {
    if event.engine != engine then Err(engine + " emitted session token for engine " + Text.Repr(event.engine))
    else if expected.Some? && event.resume != expected.value then
      Err(engine + " emitted session id " + event.resume.value + " but expected " + expected.value.value)
    else if found.None? then Ok((Some(event.resume), true))
    else if event.resume != found.value then
      Err(engine + " emitted session id " + event.resume.value + " but expected " + found.value.value)
    else Ok((found, false))
  }

  /** The per-line part of the stream state while the decoded events of one
      line are walked: output so far, session found, whether a `Completed`
      went out, and the error raised, if any. */
  datatype LineState = LineState(out: seq<Event>, found: Option<ResumeToken>, completed: bool, error: Option<string>)

  /** The loop of `_handle_jsonl_line` over the decoded events of one line:
      a `Started` goes through `handle_started_event` (an error stops
      everything, a repeat is suppressed), a `Completed` is emitted and ends
      the line, anything else is emitted. */
  function FilterEvents(engine: EngineId, expected: Option<ResumeToken>, events: seq<Event>, acc: LineState): (r: LineState)
    decreases |events|
  {
    if events == [] then acc
    else
      var e := events[0];
      if e.Started? then
        match HandleStartedEvent(engine, e.started, expected, acc.found)
        case Err(msg) => acc.(error := Some(msg))
        case Ok(res) =>
          var next := if res.1 then acc.(found := res.0, out := acc.out + [e]) else acc.(found := res.0);
          FilterEvents(engine, expected, events[1..], next)
      else if e.Completed? then acc.(out := acc.out + [e], completed := true)
      else FilterEvents(engine, expected, events[1..], acc.(out := acc.out + [e]))
  }

  /** What the stream invariant asks of everything emitted so far: at most one
      `Started`, and only once a session was found; at most one `Completed`,
      exactly when the stream is marked completed, and then it is the last
      event; a found session agrees with the expected one. */
  ghost predicate StreamShape(emitted: seq<Event>, expected: Option<ResumeToken>, found: Option<ResumeToken>, completed: bool) {
    && CountStarted(emitted) <= (if found.Some? then 1 else 0)
    && CountCompleted(emitted) == (if completed then 1 else 0)
    && (completed ==> emitted != [] && emitted[|emitted| - 1].Completed?)
    && (expected.Some? && found.Some? ==> found == expected)
  }

  /** Walking one line keeps the stream invariant: `prior` is what earlier
      lines emitted. A line that raises keeps no `Completed`. */
  lemma {:induction false} FilterKeepsShape(engine: EngineId, expected: Option<ResumeToken>, events: seq<Event>,
                                           prior: seq<Event>, acc: LineState)
    requires acc.error.None? && !acc.completed
    requires StreamShape(prior + acc.out, expected, acc.found, false)
    ensures var r := FilterEvents(engine, expected, events, acc);
      && StreamShape(prior + r.out, expected, r.found, r.completed)
      && |r.out| >= |acc.out| && r.out[..|acc.out|] == acc.out
      && (r.error.Some? ==> !r.completed)
      && (acc.found.Some? ==> r.found == acc.found)
    decreases |events|
  {
    if events == [] {
      return;
    }
    var e, rest := events[0], events[1..];
    if e.Started? {
      var h := HandleStartedEvent(engine, e.started, expected, acc.found);
      if h.Ok? {
        var next := if h.value.1 then acc.(found := h.value.0, out := acc.out + [e]) else acc.(found := h.value.0);
        if h.value.1 {
          assert prior + next.out == (prior + acc.out) + [e];
          CountsAppend(prior + acc.out, [e]);
        }
        FilterKeepsShape(engine, expected, rest, prior, next);
        var r := FilterEvents(engine, expected, rest, next);
        assert FilterEvents(engine, expected, events, acc) == r;
        ExtendsThrough(acc, next, r);
      }
    } else if e.Completed? {
      assert prior + (acc.out + [e]) == (prior + acc.out) + [e];
      CountsAppend(prior + acc.out, [e]);
    } else {
      var next := acc.(out := acc.out + [e]);
      assert prior + next.out == (prior + acc.out) + [e];
      CountsAppend(prior + acc.out, [e]);
      FilterKeepsShape(engine, expected, rest, prior, next);
      var r := FilterEvents(engine, expected, rest, next);
      assert FilterEvents(engine, expected, events, acc) == r;
      ExtendsThrough(acc, next, r);
    }
  }

  /** Output that extends an extension of `acc.out` extends `acc.out`. */
  lemma ExtendsThrough(acc: LineState, next: LineState, r: LineState)
    requires |next.out| >= |acc.out| && next.out[..|acc.out|] == acc.out
    requires |r.out| >= |next.out| && r.out[..|next.out|] == next.out
    requires acc.found.Some? ==> next.found == acc.found
    requires next.found.Some? ==> r.found == next.found
    ensures |r.out| >= |acc.out| && r.out[..|acc.out|] == acc.out
    ensures acc.found.Some? ==> r.found == acc.found
  {
    assert r.out[..|acc.out|] == r.out[..|next.out|][..|acc.out|];
  }

  /** Whatever follows the first `Completed` of a line, or the `Started` that
      raised, has no effect on the line's outcome. */
  lemma {:induction false} FilterIgnoresTail(engine: EngineId, expected: Option<ResumeToken>, events: seq<Event>,
                                            tail: seq<Event>, acc: LineState)
    requires acc.error.None? && !acc.completed
    requires var r := FilterEvents(engine, expected, events, acc); r.completed || r.error.Some?
    ensures FilterEvents(engine, expected, events + tail, acc) == FilterEvents(engine, expected, events, acc)
    decreases |events|
  {
    if events == [] {
      return;
    }
    assert (events + tail)[0] == events[0] && (events + tail)[1..] == events[1..] + tail;
    var e := events[0];
    if e.Started? {
      var h := HandleStartedEvent(engine, e.started, expected, acc.found);
      if h.Ok? {
        var next := if h.value.1 then acc.(found := h.value.0, out := acc.out + [e]) else acc.(found := h.value.0);
        FilterIgnoresTail(engine, expected, events[1..], tail, next);
      }
    } else if !e.Completed? {
      FilterIgnoresTail(engine, expected, events[1..], tail, acc.(out := acc.out + [e]));
    }
  }

  /** A line with no `Started` and no `Completed` is passed through whole. */
  lemma {:induction false} FilterPassesActions(engine: EngineId, expected: Option<ResumeToken>, events: seq<Event>, acc: LineState)
    requires forall i :: 0 <= i < |events| ==> events[i].ActionEv?
    ensures FilterEvents(engine, expected, events, acc) == acc.(out := acc.out + events)
    decreases |events|
  {
    if events != [] {
      FilterPassesActions(engine, expected, events[1..], acc.(out := acc.out + [events[0]]));
      assert acc.out + [events[0]] + events[1..] == acc.out + events;
    }
  }

  /** The loop of `_handle_jsonl_line` over the events of one line, as it
      runs: it stops at an error or right after the first `Completed`. */
  method FilterLine(engine: EngineId, expected: Option<ResumeToken>, decoded: seq<Event>, found0: Option<ResumeToken>)
    returns (res: LineState)
    ensures res == FilterEvents(engine, expected, decoded, LineState([], found0, false, None))
  {
    ghost var goal := FilterEvents(engine, expected, decoded, LineState([], found0, false, None));
    var found := found0;
    var output: seq<Event> := [];
    var i := 0;
    while i < |decoded|
      invariant 0 <= i <= |decoded|
      invariant FilterEvents(engine, expected, decoded[i..], LineState(output, found, false, None)) == goal
      decreases |decoded| - i
    {
      var evt := decoded[i];
      assert decoded[i..][0] == evt && decoded[i..][1..] == decoded[i + 1..];
      if evt.Started? {
        var h := HandleStartedEvent(engine, evt.started, expected, found);
        if h.Err? {
          return LineState(output, found, false, Some(h.error));
        }
        found := h.value.0;
        if !h.value.1 {
          i := i + 1;
          continue;
        }
      }
      if evt.Completed? {
        output := output + [evt];
        return LineState(output, found, true, None);
      }
      output := output + [evt];
      i := i + 1;
    }
    return LineState(output, found, false, None);
  }

  /** `JsonlStreamState` with the runner's engine and tag: the session
      expected and found, whether the `Completed` went out, whether the drop
      of later lines was logged, and the count of non-blank lines. `emitted`
      is everything handed on so far. */
  class JsonlStream {
    const engine: EngineId
    const tag: string
    const expectedSession: Option<ResumeToken>
    var foundSession: Option<ResumeToken>
    var didEmitCompleted: bool
    var ignoredAfterCompleted: bool
    var jsonlSeq: nat
    ghost var emitted: seq<Event>

    ghost predicate Valid()
      reads this
    {
      StreamShape(emitted, expectedSession, foundSession, didEmitCompleted)
    }

    constructor (engine: EngineId, tag: string, expectedSession: Option<ResumeToken>)
      ensures Valid()
      ensures this.engine == engine && this.tag == tag && this.expectedSession == expectedSession
      ensures foundSession.None? && !didEmitCompleted && !ignoredAfterCompleted && jsonlSeq == 0 && emitted == []
    {
      this.engine := engine;
      this.tag := tag;
      this.expectedSession := expectedSession;
      foundSession := None;
      didEmitCompleted := false;
      ignoredAfterCompleted := false;
      jsonlSeq := 0;
      emitted := [];
    }

    /** `_handle_jsonl_line`: `decoded` is what decoding and translating the
        stripped line yields. After the `Completed` every line is dropped; a
        blank line is skipped without counting; otherwise the line is counted
        and its events are filtered. An error leaves nothing emitted. */
    method HandleJsonlLine(rawLine: string, decoded: seq<Event>) returns (r: Result<seq<Event>>)
      requires Valid()
      modifies this
      ensures Valid()
      ensures old(didEmitCompleted) ==>
        r == Ok([]) && ignoredAfterCompleted && didEmitCompleted
        && foundSession == old(foundSession) && jsonlSeq == old(jsonlSeq) && emitted == old(emitted)
      ensures !old(didEmitCompleted) && Text.AsciiStrip(rawLine) == [] ==>
        r == Ok([]) && !didEmitCompleted && ignoredAfterCompleted == old(ignoredAfterCompleted)
        && foundSession == old(foundSession) && jsonlSeq == old(jsonlSeq) && emitted == old(emitted)
      ensures !old(didEmitCompleted) && Text.AsciiStrip(rawLine) != [] ==>
        var res := FilterEvents(engine, expectedSession, decoded, LineState([], old(foundSession), false, None));
        && jsonlSeq == old(jsonlSeq) + 1 && ignoredAfterCompleted == old(ignoredAfterCompleted)
        && foundSession == res.found && didEmitCompleted == res.completed
        && (res.error.None? ==> r == Ok(res.out) && emitted == old(emitted) + res.out)
        && (res.error.Some? ==> r == Err(res.error.value) && emitted == old(emitted))
    {
      if didEmitCompleted {
        if !ignoredAfterCompleted {
          ignoredAfterCompleted := true;
        }
        return Ok([]);
      }
      var line := Text.AsciiStrip(rawLine);
      if line == [] {
        return Ok([]);
      }
      jsonlSeq := jsonlSeq + 1;
      ghost var acc0 := LineState([], foundSession, false, None);
      assert emitted + acc0.out == emitted;
      FilterKeepsShape(engine, expectedSession, decoded, emitted, acc0);
      var res := FilterLine(engine, expectedSession, decoded, foundSession);
      foundSession := res.found;
      didEmitCompleted := res.completed;
      if res.error.Some? {
        return Err(res.error.value);
      }
      emitted := emitted + res.out;
      return Ok(res.out);
    }

    /** The end of `run_impl`: nothing more if the `Completed` went out;
        after a non-zero exit code the process-error events; else the
        stream-end events. Either way the run then has emitted exactly one
        `Completed`, as its last event, and at most one `Started`. */
    method EndOfStream(rc: int, runState: JsonlRunState) returns (events: seq<Event>)
      requires Valid()
      modifies this, runState
      ensures Valid()
      ensures didEmitCompleted
      ensures emitted == old(emitted) + events
      ensures CountCompleted(emitted) == 1 && emitted[|emitted| - 1].Completed?
      ensures CountStarted(emitted) <= 1
      ensures old(didEmitCompleted) ==> events == []
      ensures !old(didEmitCompleted) ==>
        && events != [] && events[|events| - 1].Completed?
        && events[|events| - 1].completed.resume == (if foundSession.Some? then foundSession else expectedSession)
      ensures !old(didEmitCompleted) && rc != 0 ==>
        && runState.noteSeq == old(runState.noteSeq) + 1
        && events == ProcessErrorEvents(engine, tag, rc, expectedSession, foundSession, NoteId(tag, old(runState.noteSeq) + 1))
      ensures old(didEmitCompleted) || rc == 0 ==> runState.noteSeq == old(runState.noteSeq)
      ensures !old(didEmitCompleted) && rc == 0 ==> events == StreamEndEvents(engine, tag, expectedSession, foundSession)
    {
      if didEmitCompleted {
        return [];
      }
      if rc != 0 {
        var noteId := runState.NextNoteId(tag);
        events := ProcessErrorEvents(engine, tag, rc, expectedSession, foundSession, noteId);
      } else {
        events := StreamEndEvents(engine, tag, expectedSession, foundSession);
      }
      CountsAppend(emitted, events);
      emitted := emitted + events;
      didEmitCompleted := true;
    }
  }
}
