/** The domain values shared by runners, the scheduler and the transports:
    resume tokens, actions and the three kinds of event an engine run emits
    (`started`, `action`, `completed`), plus the run context and message
    references used by the Telegram side. */
module Model {
  import opened Wrappers
  import Json

  type EngineId = string

  /** Identifies an engine session that a later message may resume. */
  datatype ResumeToken = ResumeToken(engine: EngineId, value: string)

  datatype ActionKind =
    | Command | Tool | FileChange | WebSearch | Subagent | Note | Turn | Warning | Telemetry

  datatype ActionPhase = PhaseStarted | PhaseUpdated | PhaseCompleted

  datatype ActionLevel = LevelDebug | LevelInfo | LevelWarning | LevelError

  datatype Action = Action(id: string, kind: ActionKind, title: string, detail: Json.Fields)

  datatype StartedEvent = StartedEvent(
    engine: EngineId, resume: ResumeToken, title: Option<string>, meta: Option<Json.Fields>)

  datatype ActionEvent = ActionEvent(
    engine: EngineId, action: Action, phase: ActionPhase,
    ok: Option<bool>, message: Option<string>, level: Option<ActionLevel>)

  datatype CompletedEvent = CompletedEvent(
    engine: EngineId, ok: bool, answer: string, resume: Option<ResumeToken>,
    error: Option<string>, usage: Option<Json.Value>)

  /** `TakopiEvent = StartedEvent | ActionEvent | CompletedEvent`. */
  datatype Event =
    | Started(started: StartedEvent)
    | ActionEv(act: ActionEvent)
    | Completed(completed: CompletedEvent)

  /** The project and branch a run is bound to. */
  datatype RunContext = RunContext(project: Option<string>, branch: Option<string>)

  type ChannelId = int
  type MessageId = int

  /** A sent message: the channel it lives in and its id there. */
  datatype MessageRef = MessageRef(channelId: ChannelId, messageId: MessageId)

  /** Number of `Started` events in a sequence of events. */
  function CountStarted(es: seq<Event>): nat {
    if es == [] then 0 else (if es[0].Started? then 1 else 0) + CountStarted(es[1..])
  }

  /** Number of `Completed` events in a sequence of events. */
  function CountCompleted(es: seq<Event>): nat {
    if es == [] then 0 else (if es[0].Completed? then 1 else 0) + CountCompleted(es[1..])
  }

  lemma {:induction false} CountsAppend(a: seq<Event>, b: seq<Event>)
    ensures CountStarted(a + b) == CountStarted(a) + CountStarted(b)
    ensures CountCompleted(a + b) == CountCompleted(a) + CountCompleted(b)
  {
    if a == [] {
      assert a + b == b;
    } else {
      assert (a + b)[1..] == a[1..] + b;
      CountsAppend(a[1..], b);
    }
  }

  lemma {:induction false} CountCompletedZero(es: seq<Event>)
    ensures CountCompleted(es) == 0 <==> forall i :: 0 <= i < |es| ==> !es[i].Completed?
  {
    if es != [] {
      CountCompletedZero(es[1..]);
      assert forall i :: 1 <= i < |es| ==> es[i] == es[1..][i - 1];
    }
  }

  /** Action events alone start and complete nothing. */
  lemma {:induction false} ActionsCountNothing(es: seq<Event>)
    requires forall i :: 0 <= i < |es| ==> es[i].ActionEv?
    ensures CountStarted(es) == 0 && CountCompleted(es) == 0
  {
    if es != [] {
      assert forall i :: 0 <= i < |es[1..]| ==> es[1..][i] == es[i + 1];
      ActionsCountNothing(es[1..]);
    }
  }
}
