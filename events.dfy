/** The helper that engine translators use to build events: it remembers the
    session token of the first `Started` and refuses a different one later. */
module Events {
  import opened Wrappers
  import opened Model
  import Json
  import Text

  class EventFactory {
    const engine: EngineId
    /** The token of the `Started` built so far, if any. */
    var resume: Option<ResumeToken>

    constructor (engine: EngineId)
      ensures this.engine == engine && resume.None?
    {
      this.engine := engine;
      resume := None;
    }

    /** `started`: refuses a token of another engine, or one that differs from
        the token already recorded; otherwise records it. */
    method Started(token: ResumeToken, title: Option<string>, meta: Option<Json.Fields>) returns (r: Result<StartedEvent>)
      modifies this
      ensures r.Err? <==> token.engine != engine || (old(resume).Some? && old(resume).value != token)
      ensures r.Ok? ==> resume == Some(token) && r.value == StartedEvent(engine, token, title, meta)
      ensures r.Err? ==> resume == old(resume)
    {
      if token.engine != engine {
        return Err("resume token is for engine " + Text.Repr(token.engine));
      }
      if resume.Some? && resume.value != token {
        return Err("resume token mismatch: " + resume.value.value + " vs " + token.value);
      }
      resume := Some(token);
      return Ok(StartedEvent(engine, token, title, meta));
    }

    /** `action` and its `action_started`/`action_updated`/`action_completed`
        shorthands: an action event of this engine; a missing detail is `{}`. */
    function ActionEvent(phase: ActionPhase, actionId: string, kind: ActionKind, title: string,
                         detail: Option<Json.Fields>, ok: Option<bool>, message: Option<string>,
                         level: Option<ActionLevel>): (e: Model.ActionEvent)
      ensures e.engine == engine && e.phase == phase && e.action.id == actionId
      ensures e.action.kind == kind && e.action.title == title
      ensures e.action.detail == (if detail.Some? then detail.value else [])
      ensures e.ok == ok && e.message == message && e.level == level
    {
      Model.ActionEvent(engine, Action(actionId, kind, title, detail.GetOr([])), phase, ok, message, level)
    }

    /** `completed`: without an explicit token, the one recorded by `started`. */
    function CompletedEvent(ok: bool, answer: string, resume: Option<ResumeToken>, error: Option<string>,
                            usage: Option<Json.Value>): (e: Model.CompletedEvent)
      reads this
      ensures e.engine == engine && e.ok == ok && e.answer == answer && e.error == error && e.usage == usage
      ensures resume.Some? ==> e.resume == resume
      ensures resume.None? ==> e.resume == this.resume
    {
      Model.CompletedEvent(engine, ok, answer, if resume.Some? then resume else this.resume, error, usage)
    }

    /** `completed_ok`: a successful completion. */
    function CompletedOk(answer: string, resume: Option<ResumeToken>, usage: Option<Json.Value>): (e: Model.CompletedEvent)
      reads this
      ensures e.ok && e.error.None? && e.answer == answer
    {
      CompletedEvent(true, answer, resume, None, usage)
    }

    /** `completed_error`: a failed completion carrying the error. */
    function CompletedError(error: string, answer: string, resume: Option<ResumeToken>, usage: Option<Json.Value>): (e: Model.CompletedEvent)
      reads this
      ensures !e.ok && e.error == Some(error) && e.answer == answer
    {
      CompletedEvent(false, answer, resume, Some(error), usage)
    }
  }

  /** A translator that reports its session twice with the same token and then
      with another one: the repeat is accepted, the other token is refused,
      and a completion without a token carries the first one. */
  method SessionScenario(engine: EngineId, v1: string, v2: string) returns (second: bool, third: bool, finalResume: Option<ResumeToken>)
    requires v1 != v2
    ensures second && !third
    ensures finalResume == Some(ResumeToken(engine, v1))
  {
    var f := new EventFactory(engine);
    var t1 := ResumeToken(engine, v1);
    var a := f.Started(t1, None, None);
    var b := f.Started(t1, None, None);
    var c := f.Started(ResumeToken(engine, v2), None, None);
    second, third := b.Ok?, c.Ok?;
    finalResume := f.CompletedOk("done", None, None).resume;
  }
}
