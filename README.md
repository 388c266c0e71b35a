# takopi / yee88 — a verified model of the bridge core

This project models the core of takopi (and its fork yee88): a bridge that
carries chat messages from Telegram or Discord to coding-agent command-line
engines (Codex, Claude) and carries their progress and answers back. It
covers:

- the **thread scheduler**, which queues jobs per resume thread (key
  `engine:value`) and runs one worker per thread in FIFO order;
- the **Telegram outbox**, a table of pending send, edit and delete
  operations, one per key, picked by priority and age and requeued on a
  rate limit;
- the **runner session protocol**: the per-session lock table, resume-token
  formatting and extraction, validation of the `Started` event, and the
  JSON-lines stream state that drops everything after `Completed`;
- the **router** and the **precedence rules** for engines, model and
  reasoning overrides and trigger modes (Telegram and Discord);
- the **parsers and serialisers**: message directives (`/engine`,
  `/project`, `@branch`, the `ctx:` line), slash commands, `/file`
  arguments and relative paths, the Markdown splitter and trimmer, the
  Codex bridge's text chunker and chat-id parsing, the `config` key paths
  and flattening, TOML dumping, and the configuration migrations;
- the **in-memory state stores**: chat preferences, topic state and cron
  jobs;
- the **engine event translators** for Codex and Claude, the tool-action
  classification they share, and the Codex bridge's progress renderer;
- the Discord `@branch` prefix, the Telegram `/ctx set` and `/topic`
  argument reader, and the bot command menu.

Each source file becomes one module. Code that is pure in the source is
written as datatypes, functions and lemmas; objects whose methods update
their fields (the scheduler, the outbox, the lock table, the stream state,
the event factory, the stores, the cron manager, the progress renderer)
are classes whose methods carry `modifies` clauses; those whose fields
are tied together keep a `Valid()` invariant (the Claude stream state has
no such tie and carries none). Waits on events and tasks become explicit steps: a worker's
loop is a method that takes one job at a time. What the program obtains
from its runtime, from regular expressions or from libraries (project-key
normalisation, resume-line matching, shell splitting, glob matching, the
clock) is passed in as a parameter. Shared modules: `Wrappers` (Option and
Result), `Text` (the Python string operations the code relies on: strip,
split, splitlines, lower, join), `Json` (a JSON/TOML value with ordered
tables) and `Model` (resume tokens, actions and events).

## Model

| member | source | states |
|---|---|---|
| Scheduler.ThreadKey | src/yee88/scheduler.py:49-51 | the key is the engine id, one colon, then the token value, character for character |
| Scheduler.FirstColonOfKey | src/yee88/scheduler.py:49-51 | when the engine id has no colon, the key's first colon ends the engine id, so the engine can be read back from the key |
| Scheduler.ThreadKeyInjective | src/yee88/scheduler.py:49-51 | when engine ids have no colon, two resume tokens share a thread key exactly when they are equal |
| Scheduler.ProgressKey | src/yee88/scheduler.py:69-71 | a job is indexed exactly when it has a progress message, under its chat id and that message's id |
| Scheduler.RemoveFirst | src/yee88/scheduler.py:113-116 | `deque.remove` takes out only the first occurrence: one element fewer, the rest keep their order, and the multiset loses exactly one copy |
| Scheduler.DropProgress | src/yee88/scheduler.py:138-140 | after the worker has taken some jobs, the progress index is a sub-map of the old one that holds none of their progress keys |
| Scheduler.DropProgressAppend | src/yee88/scheduler.py:138-140 | taking one more job removes exactly that job's progress key, if it has one |
| Scheduler.Failing | src/yee88/scheduler.py:145-156 | the logged failures are jobs that were run and failed, in order, no more of them than jobs run |
| Scheduler.FailingAppend | src/yee88/scheduler.py:145-156 | running one more job adds it to the failures exactly when it fails |
| Scheduler.WithQueue | src/yee88/scheduler.py:117-118 | replacing a key's queue changes only that key; an emptied queue is removed from the table |
| Scheduler.CancelOutcome | src/yee88/scheduler.py:101-119 | a cancel that finds nothing leaves every queue as it was; one that succeeds returns the job indexed under the progress key |
| Scheduler.CancelTakesExactlyThatJob | src/yee88/scheduler.py:101-119 | a cancel succeeds exactly when a job is indexed under the key and is still in its thread's queue; it then removes one copy of that job from that queue and touches no other queue |
| Scheduler.CancelMiddle | src/yee88/scheduler.py:101-119 | cancelling the middle of three queued jobs leaves the first and the last, in order |
| Scheduler.ThreadScheduler.constructor | src/yee88/scheduler.py:40-47 | a new scheduler has no queues, no progress index, no workers and no busy markers |
| Scheduler.ThreadScheduler.NoteThreadKnown | src/yee88/scheduler.py:53-59 | the new marker replaces the old one only when there is none or the old one has fired; nothing else changes |
| Scheduler.ThreadScheduler.ClearBusy | src/yee88/scheduler.py:121-125 | the marker is forgotten only when it is still the one that fired; nothing else changes |
| Scheduler.ThreadScheduler.Enqueue | src/yee88/scheduler.py:61-75 | the job goes to the end of its thread's queue, its progress message is indexed, and a worker is started exactly when the thread had none |
| Scheduler.ThreadScheduler.CancelQueued | src/yee88/scheduler.py:101-119 | the progress index always loses the key; queues change as `CancelOutcome` says; workers and markers do not change |
| Scheduler.ThreadScheduler.PopNext | src/yee88/scheduler.py:129-143 | with an empty queue the thread loses its queue and its worker; otherwise the oldest job is taken from the queue and from the progress index, and the marker to wait for is reported |
| Scheduler.ThreadScheduler.RunWorker | src/yee88/scheduler.py:127-159 | the worker runs exactly the thread's queued jobs, in queue order; a failing job is logged and the worker goes on; at the end the thread has no queue and no worker |
| Scheduler.FifoScenario | src/yee88/scheduler.py:61-75 | three jobs for one session start one worker, which runs them in the order they arrived |
| Scheduler.CancelScenario | src/yee88/scheduler.py:101-119 | a job cancelled through its progress message before its turn is returned by the cancel and never run; the others run in order |
| Outbox.OutboxOp.constructor | src/yee88/telegram/outbox.py:18-25 | a new operation keeps its priority, queue time, chat and label, is not done and has no result |
| Outbox.OutboxOp.SetResult | src/yee88/telegram/outbox.py:27-31 | the first result wins: afterwards the op is done, and a later call changes nothing |
| Outbox.Max | src/yee88/telegram/outbox.py:134 | the blocking deadline is the larger of `next_at` and `retry_at` |
| Outbox.TelegramOutbox.constructor | src/yee88/telegram/outbox.py:35-55 | a new outbox is open, has nothing pending, both pacing deadlines are zero, it records whether an `on_error` hook was given, and no hook has been called yet |
| Outbox.TelegramOutbox.Enqueue | src/yee88/telegram/outbox.py:64-79 | after close the op completes with `None` and nothing is queued; otherwise the op takes its key's place, keeping the replaced op's queue time and position, the replaced op completes with `None`, and no other op changes |
| Outbox.TelegramOutbox.DropPending | src/yee88/telegram/outbox.py:81-86 | the key leaves the table and its op, if any, completes with `None`; no other op changes |
| Outbox.TelegramOutbox.FailPending | src/yee88/telegram/outbox.py:97-100 | every pending op completes with `None` and the table is empty |
| Outbox.TelegramOutbox.Close | src/yee88/telegram/outbox.py:88-95 | the outbox is closed, every pending op completes with `None`, and the table is empty |
| Outbox.TelegramOutbox.PickLocked | src/yee88/telegram/outbox.py:102-108 | nothing is picked exactly when nothing is pending; otherwise the pick is a pending entry that no other entry precedes by (priority, queue time), and it precedes every entry inserted before it, as `min` keeps the first of equals |
| Outbox.TelegramOutbox.NextStep | src/yee88/telegram/outbox.py:127-145 | the worker ends when closed and drained, waits when idle, sleeps until the later deadline while paced, and otherwise takes out of the table a pending op that no other precedes by (priority, queue time) and that precedes every op inserted before it; that key also leaves the insertion order |
| Outbox.TelegramOutbox.Crash | src/yee88/telegram/outbox.py:164-171 | on an unexpected exception the outbox is closed, every pending op completes with `None`, the table is empty, and the exception is reported to `on_outbox_error` exactly when one is set |
| Outbox.CrashScenario | src/yee88/telegram/outbox.py:164-171 | after a crash the pending edit has completed with `None`, the error has been reported, the worker's next pass ends it, and an op queued later completes with `None` at once |
| Outbox.FailedOpScenario | src/yee88/telegram/outbox.py:110-118 | an op whose execution fails is handed, with its exception, to the `on_error` hook once, and completes with `None` |
| Outbox.TelegramOutbox.Finish | src/yee88/telegram/outbox.py:110-162 | a value or a failure paces the chat by its interval from the start time and completes the op (a failure with `None`, after `on_error` has received the op and its exception when a hook is set); a retry-after pushes `retry_at` forward and puts the op back only when the outbox is open and no newer op holds its key, else completes it with `None` |
| Outbox.CoalesceScenario | src/yee88/telegram/outbox.py:68-74 | two edits of one message queued back to back leave one pending op with the first op's queue time, and the first completes with `None` |
| Outbox.PriorityScenario | src/yee88/telegram/outbox.py:102-108 | a send queued after an edit is executed first |
| Runner.FormatResume | src/yee88/runner.py:34-37 | a token of another engine is refused; otherwise the line is a backtick, the engine, ` resume `, the token value and a closing backtick |
| Runner.FormatResumeInjective | src/yee88/runner.py:34-37 | two tokens of the engine with the same resume line are equal |
| Runner.LastNonEmpty | src/yee88/runner.py:46-52 | nothing is found exactly when every capture is empty; otherwise the result is a non-empty capture with only empty captures after it |
| Runner.ExtractResume | src/yee88/runner.py:42-52 | empty text gives no token; a token found belongs to this engine and holds the last non-empty capture; non-empty text with a non-empty capture always gives one |
| Runner.Semaphore.constructor | src/yee88/runner.py:66-68 | a new session lock has one permit |
| Runner.SessionLockTable.constructor | src/yee88/runner.py:57-63 | a new lock table is empty |
| Runner.SessionLockTable.LockFor | src/yee88/runner.py:59-69 | the lock of a token's thread key is created with one permit on first use and returned unchanged afterwards |
| Runner.SessionLockTable.LockForRun | src/yee88/runner.py:71-89 | a token of another engine is refused and nothing changes; a run without a token takes no lock; a run with one takes its thread key's lock, the existing one unchanged when the key is known, else a fresh one added under that key alone |
| Runner.LockIdentityScenario | src/yee88/runner.py:59-69 | two lookups give the same lock exactly when the tokens are equal |
| Runner.FirstStarted | src/yee88/runner.py:111-113 | the token of the first `Started` event, none exactly when no event is a `Started` |
| Runner.RunLockedLock | src/yee88/runner.py:100-119 | `run_locked` takes the resumed token's lock; without a token, the lock of the first `Started` event's token, or none when no session starts |
| Runner.NoteId | src/yee88/runner.py:189-197 | a note id is the tag, `.note.`, then the decimal sequence number |
| Runner.NoteIdInjective | src/yee88/runner.py:189-197 | different sequence numbers give different note ids |
| Runner.JsonlRunState.constructor | src/yee88/runner.py:130-131 | a run starts with note counter zero |
| Runner.JsonlRunState.NextNoteId | src/yee88/runner.py:189-197 | the counter goes up by one and the note is named after its new value |
| Runner.TwoNotesScenario | src/yee88/runner.py:189-197 | two notes taken from one run never share an id |
| Runner.NoteEvent | src/yee88/runner.py:199-221 | a completed warning action that carries the message, at level info when ok and warning otherwise |
| Runner.ProcessErrorEvents | src/yee88/runner.py:275-294 | a failed warning note under the given id, then one failed `Completed` with no answer, carrying the session found, else the resume token; the note's text and the error are both `<tag> failed (rc=N).` |
| Runner.ProcessErrorNamesRc | src/yee88/runner.py:283 | the error names the exit code: two different exit codes never give the same error |
| Runner.StreamEndEvents | src/yee88/runner.py:296-313 | one failed `Completed` saying the engine finished without a result event, carrying the session found, else the resume token |
| Runner.HandleStartedEvent | src/yee88/runner.py:325-350 | a `Started` is an error exactly when it is of another engine or disagrees with the expected or the already found session; otherwise it becomes the session and is emitted only the first time |
| Runner.FilterKeepsShape | src/yee88/runner.py:549-573 | after a line, at most one `Started` has gone out and only with a found session, at most one `Completed` and then as the last event, and a found session agrees with the expected one |
| Runner.FilterIgnoresTail | src/yee88/runner.py:562-571 | events after the first `Completed` of a line, or after a `Started` that raised, do not change the line's outcome |
| Runner.FilterPassesActions | src/yee88/runner.py:549-573 | a line of action events only is passed through whole |
| Runner.FilterLine | src/yee88/runner.py:549-573 | the loop over a line's events computes what the stream filter function says |
| Runner.JsonlStream.constructor | src/yee88/runner.py:135-140 | a new stream has found no session, emitted nothing, not completed and counted no line |
| Runner.JsonlStream.HandleJsonlLine | src/yee88/runner.py:515-573 | after the `Completed` every line is dropped and noted as ignored; a blank line is skipped without counting; any other line is counted and its events filtered; an error emits nothing |
| Runner.JsonlStream.EndOfStream | src/yee88/runner.py:659-696 | nothing more after a `Completed`; else the process-error or the stream-end events; after a non-zero exit code they are the process-error events under the next note id, and the note counter moves by one; either way the run has then emitted exactly one `Completed`, last, and at most one `Started` |
| Events.EventFactory.constructor | src/yee88/events.py:23-25 | a new factory is bound to its engine and has recorded no session |
| Events.EventFactory.Started | src/yee88/events.py:31-45 | a token of another engine, or one that differs from the token already recorded, is refused and changes nothing; otherwise the token is recorded and a `Started` of it is returned |
| Events.EventFactory.ActionEvent | src/yee88/events.py:47-126 | an action event of this engine with the given phase, id, kind, title and status; a missing detail becomes an empty object |
| Events.EventFactory.CompletedEvent | src/yee88/events.py:128-145 | a completion of this engine; without an explicit token it carries the one recorded by `started` |
| Events.EventFactory.CompletedOk | src/yee88/events.py:147-154 | a successful completion has no error |
| Events.EventFactory.CompletedError | src/yee88/events.py:156-170 | a failed completion carries its error |
| Events.SessionScenario | src/yee88/events.py:31-45 | reporting the same session twice is accepted, another token is then refused, and a completion without a token carries the first one |
| Router.BuildIndex | src/yee88/router.py:45-49 | the index loop fails exactly when some engine appears twice; otherwise the index maps each engine to its entry |
| Router.New | src/yee88/router.py:39-53 | no entries, a duplicate engine or an unconfigured default engine is an error; otherwise a well-formed router over those entries with that default |
| Router.EntryForEngine | src/yee88/router.py:71-76 | no engine means the default entry; a named engine succeeds exactly when some entry has it, and gives that entry |
| Router.EntryFor | src/yee88/router.py:78-81 | the entry of the token's engine, else the default entry, which always exists |
| Router.RunnerFor | src/yee88/router.py:83-87 | succeeds exactly when the chosen entry exists and is available (status ok or bad_config); an unavailable engine is never replaced by another |
| Router.FormatResume | src/yee88/router.py:89-91 | succeeds exactly when the token's engine is configured, with that runner's resume line |
| Router.FirstExtract | src/yee88/router.py:96-100 | nothing exactly when no runner finds a token; otherwise the token of the first runner, in entry order, that finds one |
| Router.ExtractResume | src/yee88/router.py:93-100 | empty text gives nothing; other text gives the first runner's token |
| Router.ResolveResume | src/yee88/router.py:102-110 | a token in the message wins; without one, the token of the replied-to message |
| Router.ExtractedEngineConfigured | src/yee88/router.py:93-100 | a token the router extracts belongs to a configured engine, so its entry can be found |
| Directives.LowerMap | src/yee88/directives.py:41-42 | a key is found exactly when some name lower-cases to it, and the name found does |
| Directives.LowerMapLastWins | src/yee88/directives.py:41-42 | of several names with the same lower-case form, the dictionary keeps the last |
| Directives.Aliases | src/yee88/directives.py:42 | the project names in configuration order |
| Directives.CommandName | src/yee88/directives.py:50-53 | the name of a `/name@bot` token holds no `@` |
| Directives.Classify | src/yee88/directives.py:49-81 | a branch token is `@` and a non-empty name; a token starting with neither `/` nor `@` stops the scan |
| Directives.BotSuffixIgnored | src/yee88/directives.py:50-53 | a `@bot` suffix does not change what a `/name` token means |
| Directives.ScanTokens | src/yee88/directives.py:49-81 | the scan consumes one token per directive found and stops at the end or at a token that is no directive |
| Directives.ScanConsumesDirectives | src/yee88/directives.py:49-81 | every consumed token is a directive |
| Directives.TwoEnginesRejected | src/yee88/directives.py:59-61 | two engine directives are refused |
| Directives.FirstNonBlank | src/yee88/directives.py:31-34 | the first line that is not all whitespace, every line before it being blank |
| Directives.DirectivesOf | src/yee88/directives.py:22-95 | empty text gives an empty prompt; a result without any directive keeps the text unchanged as the prompt |
| Directives.KeptLines | src/yee88/directives.py:86-90 | with tokens left, the first line is replaced by them joined with spaces and the other lines stay; with none left, that line is removed and the others keep their order |
| Directives.ScanStopsAtFirstOther | src/yee88/directives.py:49-81 | a scan without error consumes exactly the tokens before the first one that is no directive |
| Directives.DirectivesPrompt | src/yee88/directives.py:22-95 | after directives, the prompt is the lines with the consumed tokens of the first non-blank line removed, re-joined with newlines and stripped |
| Directives.ScanLoop | src/yee88/directives.py:44-81 | the loop computes the scan function, errors included |
| Directives.ParseDirectives | src/yee88/directives.py:22-95 | the method, whose loop is `ScanLoop`, computes `DirectivesOf`, whose prompt `DirectivesPrompt` states |
| Directives.BranchOf | src/yee88/directives.py:120-126 | a lone project word names no branch |
| Directives.ContextOfContent | src/yee88/directives.py:114-133 | an error exactly when there is a first word and its lower-case form is not a configured project; a context found names a configured project |
| Directives.ContextOfLine | src/yee88/directives.py:105-133 | a line that does not start with `ctx:` in any case once unquoted gives nothing; a context found names a configured project |
| Directives.ContextLoop | src/yee88/directives.py:103-134 | success means every line parsed; a context found comes from one of the lines (which one: `ContextLoopLastWins`) |
| Directives.ContextLoopNone | src/yee88/directives.py:103-134 | lines none of which holds a context and all of which parse leave the context as it was |
| Directives.ContextLoopLastWins | src/yee88/directives.py:103-134 | when every line parses, the context is that of the last line that holds one |
| Directives.ContextLoopFirstError | src/yee88/directives.py:103-134 | the error is that of the first line that does not parse |
| Directives.ParseContextLine | src/yee88/directives.py:98-134 | empty text gives nothing; otherwise the loop over the lines: the context of the last line holding one (`ContextLoopLastWins`), or the error of the first bad line (`ContextLoopFirstError`) |
| Directives.FormatContextLine | src/yee88/directives.py:137-146 | nothing exactly when there is no context or it has no project |
| Directives.CtxPrefix | src/yee88/directives.py:112-114 | a line starting `ctx:` is recognised and its content is what follows the colon |
| Directives.UnquoteBackticks | src/yee88/directives.py:106-107 | one pair of backticks comes off a tight text |
| Directives.QuotedContext | src/yee88/directives.py:105-133 | a backticked `ctx:` line names the lower-cased project of its first word and the branch of the words after it |
| Directives.ContextLineRoundTrip | src/yee88/directives.py:98-146 | a formatted context line reads back as the same context, for a project configured under a one-word alias whose lower-case form is its key and a one-word branch; an empty branch reads back as none |
| Directives.BranchSuffixReadsBack | src/yee88/directives.py:144-145 | the ` @branch` suffix reads back as the branch |
| Directives.FormatShape | src/yee88/directives.py:137-146 | a context of a configured project is written as `` `ctx: alias @branch` `` with the branch only when there is one |
| EngineDefaults.TopicDefaultOf | src/yee88/telegram/engine_defaults.py:40-42 | a topic default is read only when both the topic store and the topic key are present, and it is the store's entry for that key |
| EngineDefaults.ChatDefaultOf | src/yee88/telegram/engine_defaults.py:43-45 | a chat default is read only when the chat preferences store is present and holds the chat |
| EngineDefaults.ResolveEngineForMessage | src/yee88/telegram/engine_defaults.py:30-86 | the resolution reports the topic, chat and project defaults it saw; its source is the directive exactly when an engine was named explicitly, and that engine wins |
| EngineDefaults.FirstPresent | src/yee88/telegram/engine_defaults.py:48-86 | nothing exactly when every candidate is missing; otherwise the position and value of the first present candidate |
| EngineDefaults.ResolutionIsFirstPresent | src/yee88/telegram/engine_defaults.py:48-86 | the engine is the first present of directive, topic default, chat default and project default, labelled by its position, and the global default when none is present |
| EngineOverrides.AllowedReasoningLevels | src/yee88/telegram/engine_overrides.py:99-101 | the same five levels for every engine, from `minimal` to `xhigh` |
| EngineOverrides.NormalizeValue | src/yee88/telegram/engine_overrides.py:27-31 | a value is unset exactly when it is missing or blank; a set value is the stripped, non-empty text |
| EngineOverrides.NormalizeValueIdempotent | src/yee88/telegram/engine_overrides.py:27-31 | normalising twice is normalising once |
| EngineOverrides.NormalizeOverrides | src/yee88/telegram/engine_overrides.py:34-41 | no overrides exactly when both normalised fields are unset; otherwise both fields normalised |
| EngineOverrides.NormalizeOverridesIdempotent | src/yee88/telegram/engine_overrides.py:34-41 | normalising overrides twice is normalising them once |
| EngineOverrides.MergeOverrides | src/yee88/telegram/engine_overrides.py:44-62 | merged overrides, when there are any, set at least one field |
| EngineOverrides.ResolveOverrideValue | src/yee88/telegram/engine_overrides.py:65-96 | the topic's normalised value wins when set, else the chat's, else none; the source says which, and no value means the default source |
| EngineOverrides.LayerField | src/yee88/telegram/engine_overrides.py:34-41 | a normalised layer holds each field's normalised value |
| EngineOverrides.MergeAgreesWithResolve | src/yee88/telegram/engine_overrides.py:44-96 | the merged overrides hold, for each field, exactly the value that resolving that field picks |
| CommandParse.BlankIsNotCancel | src/yee88/telegram/commands/parse.py:4-7 | blank text is never a cancel command |
| CommandParse.CancelByFirstWord | src/yee88/telegram/commands/parse.py:4-9 | text is a cancel command exactly when its first word is `/cancel` or starts `/cancel@`, whatever whitespace precedes it and whatever follows |
| CommandParse.Tail | src/yee88/telegram/commands/parse.py:21 | `s[1:]` drops the first character, and is empty for an empty string |
| CommandParse.PartitionSpace | src/yee88/telegram/commands/parse.py:20 | `partition(" ")`: the head holds no space; with a space, head, space and tail make the line; without one, the whole line is the head |
| CommandParse.BeforeAt | src/yee88/telegram/commands/parse.py:24-25 | the text before the first `@`, all of it when there is none |
| CommandParse.ParseSlashCommand | src/yee88/telegram/commands/parse.py:12-30 | text whose stripped form does not start with `/` comes back unchanged with no command, and a command is found only in text that does; no command leaves the text as it was; a command name holds no `@` |
| CommandParse.BareSlash | src/yee88/telegram/commands/parse.py:21-23 | a lone `/` after whitespace, followed by nothing, a space or a line break, is no command and leaves the text unchanged |
| CommandParse.PartitionAfterWord | src/yee88/telegram/commands/parse.py:20 | partitioning `word args` at its first space gives the word and the arguments |
| CommandParse.BotSuffixCut | src/yee88/telegram/commands/parse.py:24-25 | an `@bot` suffix is cut off the command name |
| CommandParse.SlashCommandOneLine | src/yee88/telegram/commands/parse.py:12-30 | `/name args` and `/name@bot args` on one line give the lower-cased name and the arguments |
| CommandParse.SlashCommandLines | src/yee88/telegram/commands/parse.py:16-30 | `/name rest` followed by more lines gives the lower-cased name and, as arguments, `rest`, a line break and the later lines joined by line breaks; when `rest` is empty, the later lines alone |
| CommandParse.SlashCommandBareLines | src/yee88/telegram/commands/parse.py:16-30 | `/name` alone on the first line, followed by more lines, gives the lower-cased name and the later lines joined by line breaks |
| CommandParse.CommandLinesArgs | src/yee88/telegram/commands/parse.py:19-30 | on several lines, the arguments are the rest of the first line and the later lines joined by line breaks, or the later lines alone when that rest is empty |
| CommandParse.CommandIsLowerCase | src/yee88/telegram/commands/parse.py:30 | the command name comes back lower-cased |
| TriggerMode.ResolveTriggerMode | src/yee88/telegram/trigger_mode.py:14-29 | `mentions` exactly when the topic says so (read only with a topic store and a thread) or the chat says so; `all` otherwise |
| TriggerMode.ShouldTriggerRun | src/yee88/telegram/trigger_mode.py:32-68 | a mention of the bot or a reply to the bot (other than the implicit reply to a topic's first message) triggers; otherwise the message triggers exactly when it is a non-empty slash command that is reserved, a plugin command, an engine or a project |
| TriggerMode.ImplicitTopicReplyIsSilent | src/yee88/telegram/trigger_mode.py:46-58 | in a topic, plain text whose only reply is the implicit one to the topic's first message does not trigger |
| TriggerMode.EngineCommandTriggers | src/yee88/telegram/trigger_mode.py:59-66 | `/engine` or `/engine@bot`, with arguments, triggers in any mode when the engine is known, case-insensitively |
| CommandParse.ParseCommandLines | src/yee88/telegram/commands/parse.py:16-30 | no command leaves the text as it was; a command name never holds `@` |
| CommandParse.CancelStrippedFirstWord | src/yee88/telegram/commands/parse.py:4-9 | a text is a cancel command exactly when its first word is `/cancel` or `/cancel@bot` |
| Render.SplitLineEnding | src/yee88/telegram/render.py:36-43 | the line is its content followed by its ending, which is `\r\n`, `\n`, `\r` or nothing; no ending means the line does not end in a line break |
| Render.ContentSlices | src/yee88/telegram/render.py:51-55 | the slices, with the ending on the last one, concatenate back to the rest of the content and the ending |
| Render.SplitLongLineAsWritten | src/yee88/telegram/render.py:46-58 | the parts as the code cuts them concatenate back to the line; a line within the limit is one part; every part is at most two characters over the limit, and within it when the line has no ending |
| Render.SplitLongLineOverflows | src/yee88/telegram/render.py:46-58 | with a limit of 3, the line `abc\n` comes back as one part of 4 characters, over the limit |
| Render.SplitLongLineIntended | src/yee88/telegram/render.py:46-58 | as intended: the parts are each within the limit and concatenate back to the line; a short line is kept whole; the last part ends with the line's last character |
| Render.SplitLongLineParts | src/yee88/telegram/render.py:46-58 | the slicing loop computes the parts as written (`SplitLongLineAsWritten`): a short line whole, else the slices with the ending glued to the last one, or the ending alone |
| Render.SliceContent | src/yee88/telegram/render.py:51-55 | the loop over the slice starts computes the content's slices, the ending glued to the last one |
| Render.LinePartsConcat | src/yee88/telegram/render.py:66-67 | the parts as written of all the lines concatenate back to the lines |
| Render.LinePartsIntendedConcat | src/yee88/telegram/render.py:66-67 | as intended: the corrected parts of all the lines concatenate back to the lines |
| Render.PackAllSound | src/yee88/telegram/render.py:64-79 | packing parts within a bound and flushing the last piece gives non-empty pieces within that bound that concatenate back to the parts |
| Render.PackPartsSound | src/yee88/telegram/render.py:66-78 | packing parts no longer than a bound at least the limit keeps every closed piece non-empty and within that bound, and the packed text is the old one followed by the parts |
| Render.SplitBlockSound | src/yee88/telegram/render.py:61-79 | the pieces of a block, as written, concatenate back to it; a short block is one piece; those of a long block are non-empty and at most two characters over the limit |
| Render.SplitBlockIntendedSound | src/yee88/telegram/render.py:61-79 | as intended: the pieces concatenate back to the block, each within the limit, and non-empty for a long block |
| Render.SplitBlockOverflows | src/yee88/telegram/render.py:61-79 | as written, the block `abc\nd` at limit 3 gives the pieces `abc\n` and `d`, the first over the limit |
| Render.SplitBlockPieces | src/yee88/telegram/render.py:61-79 | the loops compute `_split_block` as written (`SplitBlock`, built on the parts as written) |
| Render.RunLen | src/yee88/telegram/render.py:83 | the longest prefix whose characters all pass the test |
| Render.FenceMatch | src/yee88/telegram/render.py:83-87 | a match is an indent of spaces and tabs then a run of at least three backticks or tildes that start the line |
| Render.FenceLineMatches | src/yee88/telegram/render.py:83-87 | the pattern finds exactly the indent and the fence a line was built from |
| Render.UpdateFenceState | src/yee88/telegram/render.py:82-92 | a non-fence line leaves the state; a fence line opens a fence when none is open; an open fence closes exactly on a fence of the same character that is at least as long |
| Render.CloseAndReopenFence | src/yee88/telegram/render.py:107-112 | the line a cut appends closes the open fence, and the header the next chunk starts with opens the same fence again |
| Render.ScanFence | src/yee88/telegram/render.py:95-98 | the state after every line is one the fence pattern built |
| Render.FoldWithoutFences | src/yee88/telegram/render.py:95-98 | lines that are not fence lines leave the state as it was |
| Render.ScanFenceState | src/yee88/telegram/render.py:95-98 | the loop computes `ScanFence` |
| Render.DoubleNewlineFrom | src/yee88/telegram/render.py:119 | the first run of two or more newlines from a position on, or none |
| Render.Paragraphs | src/yee88/telegram/render.py:119-126 | the blocks are non-empty and concatenate back to the body |
| Render.ParagraphsHead | src/yee88/telegram/render.py:119-126 | the first block runs to the end of the first newline run, which the rest does not continue |
| Render.ParagraphsEndWithRun | src/yee88/telegram/render.py:119-126 | every block but the last ends with its separating newline run |
| Render.ParagraphsStartAfterRun | src/yee88/telegram/render.py:119-126 | no block but the first starts with a newline: each run is taken whole |
| Render.EnsureTrailingNewline | src/yee88/telegram/render.py:101-104 | the text, with a newline added only when it does not already end in a line break |
| Render.NonBlank | src/yee88/telegram/render.py:152 | exactly the chunks that are not blank, in order |
| Render.Limit | src/yee88/telegram/render.py:118 | the limit is at least 1 and is the given one when that is positive |
| Render.SplitMarkdownBody | src/yee88/telegram/render.py:115-152 | a blank body has no chunks and no chunk is blank; built on `_split_block` as written |
| Render.SplitMarkdownBodyChunks | src/yee88/telegram/render.py:115-152 | the loops compute `SplitMarkdownBody`, the chunks as written |
| Render.CutClosesOpenFence | src/yee88/telegram/render.py:142-147 | a cut inside an open fence ends the chunk with a line that closes the fence and starts the next chunk with the line that opened it |
| Render.ScanFenceFree | src/yee88/telegram/render.py:95-98 | text with no backtick or tilde neither opens nor closes a fence |
| Render.FenceFreeBodySplit | src/yee88/telegram/render.py:115-152 | a body without fences is cut into chunks that, before blank ones are dropped, concatenate back to the body; every chunk kept is non-empty and at most two characters over the limit |
| Render.ShortBodyOneChunk | src/yee88/telegram/render.py:115-152 | a non-blank body within the limit is one chunk, the body itself |
| Render.PyPrefix | src/yee88/telegram/render.py:159 | Python's `s[:k]`, a negative `k` counting from the end |
| Render.TrimBody | src/yee88/telegram/render.py:155-160 | no body, an empty one or a blank one gives nothing; a body within the limit is kept; a longer one keeps its first `max_chars - 1` characters and ends in an ellipsis, exactly `max_chars` long |
| Files.ParseFileCommand | src/takopi/telegram/files.py:41-49 | no tokens, or a first token other than `put` or `get` in any case, is the usage error; otherwise the lower-cased command and the other tokens joined and stripped |
| Files.FileCommandWithPath | src/takopi/telegram/files.py:41-49 | `PUT path`, `Get path` and the like give the lower-cased command and the path |
| Files.FirstUnknownFlag | src/takopi/telegram/files.py:56-62 | the position of the first flag other than `--force`, or none |
| Files.PathTokens | src/takopi/telegram/files.py:56-64 | the path tokens are the tokens other than `--force`, in order |
| Files.PathTokensAppend | src/takopi/telegram/files.py:56-64 | the path tokens of two lists are those of each, concatenated |
| Files.FilePromptOf | src/takopi/telegram/files.py:52-68 | the first unknown flag is the error, with `force` set exactly when `--force` came before it; otherwise `force` says whether `--force` appears, the path is the other tokens joined and stripped, and an empty path is an error unless allowed |
| Files.ParseFilePrompt | src/takopi/telegram/files.py:52-68 | the loop computes `FilePromptOf` |
| Files.ForceAnywhere | src/takopi/telegram/files.py:56-64 | `--force` anywhere among the path words sets `force` and changes neither the path nor the error |
| Files.KeptParts | src/takopi/telegram/files.py:77-86 | the parts kept are the non-empty parts other than `.`, all of them when all qualify |
| Files.PathParts | src/takopi/telegram/files.py:77-86 | the names of a path hold no `/` and are neither empty nor `.` |
| Files.NormalizeRelativePath | src/takopi/telegram/files.py:71-87 | an empty, `~` or absolute path is refused; an accepted path has at least one part and none of them is empty, `.`, `..` or `.git` |
| Files.PathPartsOfJoin | src/takopi/telegram/files.py:77-86 | the names of a path joined with `/` read back as its parts |
| Files.NormalizeRoundTrip | src/takopi/telegram/files.py:71-87 | a relative path of plain names written with `/` normalises back to its names |
| Files.DenyReason | src/takopi/telegram/files.py:98-105 | a path through `.git` is denied by `.git/**`; otherwise the first deny pattern that matches, and none exactly when no pattern matches |
| Files.FirstMatch | src/takopi/telegram/files.py:101-104 | the first pattern that matches, or none when none does |
| Files.BaseName | src/takopi/telegram/files.py:122-128 | a path's name holds no `/` and is not `.` |
| Files.DefaultUploadName | src/takopi/telegram/files.py:122-128 | the name of the file name when it has one, else that of the file path when it has one, else `upload.bin`; never empty, never holding `/` |
| Files.UploadNameOfPath | src/takopi/telegram/files.py:122-128 | a file named by a path keeps the path's last name |
| BridgeCommon.ChunkLineSound | codex/codex_telegram_bridge/bridge_common.py:84-100 | one line through the chunking loop keeps every closed chunk and the buffer non-empty and within the limit, and loses or adds no character |
| BridgeCommon.ChunkTextSound | codex/codex_telegram_bridge/bridge_common.py:72-104 | a text within the limit is one chunk; otherwise every chunk is non-empty and within the limit; the chunks always concatenate back to the text |
| BridgeCommon.AppendSlices | codex/codex_telegram_bridge/bridge_common.py:91-92 | the hard-split loop appends the `limit`-wide slices of the line |
| BridgeCommon.ChunkTextLoop | codex/codex_telegram_bridge/bridge_common.py:72-104 | the loops compute the chunks `ChunkTextSound` is about |
| BridgeCommon.AppendIndexSlices | codex/codex_telegram_bridge/bridge_common.py:127-129 | the hard-split loop appends each slice with its start and end in the text |
| BridgeCommon.ChunkTextWithIndicesLoop | codex/codex_telegram_bridge/bridge_common.py:107-149 | the loop computes the indexed chunks `ChunkIndicesAgree` is about |
| BridgeCommon.Chunks | codex/codex_telegram_bridge/bridge_common.py:107-149 | the chunk strings of the indexed chunks, in order |
| BridgeCommon.IndexSlicesLocated | codex/codex_telegram_bridge/bridge_common.py:127-129 | every slice of a long line is the text between its positions |
| BridgeCommon.IndexLinesSound | codex/codex_telegram_bridge/bridge_common.py:118-145 | the indexed loop cuts every line as the plain loop does, and its positions end at the end of the text |
| BridgeCommon.ChunkIndicesAgree | codex/codex_telegram_bridge/bridge_common.py:107-149 | the indexed chunker cuts exactly the chunks of `chunk_text`, and each chunk is `text[start:end]` |
| BridgeCommon.SliceEntity | codex/codex_telegram_bridge/bridge_common.py:155-173 | an entity is kept exactly when it overlaps the chunk; a kept one is rebased to the chunk with positive length, and its other keys are copied unchanged |
| BridgeCommon.SliceEntitySpan | codex/codex_telegram_bridge/bridge_common.py:162-172 | a kept entity covers, relative to the chunk, exactly the positions it covered in the text that lie inside the chunk |
| BridgeCommon.SliceEntities | codex/codex_telegram_bridge/bridge_common.py:152-174 | the entities kept are rebased and no more than given; all are kept when all overlap, none when none does |
| BridgeCommon.SliceEntitiesLoop | codex/codex_telegram_bridge/bridge_common.py:152-174 | the loop computes `SliceEntities` |
| BridgeCommon.CollectIds | codex/codex_telegram_bridge/bridge_common.py:405-411 | succeeds exactly when every element reads, and then holds exactly the ids read, skipped elements aside |
| BridgeCommon.CollectIdsLoop | codex/codex_telegram_bridge/bridge_common.py:405-432 | the loop computes `CollectIds` |
| BridgeCommon.ParseAllowedChatIds | codex/codex_telegram_bridge/bridge_common.py:398-411 | a blank value gives `None`; otherwise the ids of the comma-separated non-blank parts |
| BridgeCommon.JoinedIds | codex/codex_telegram_bridge/bridge_common.py:398-411 | ids written in decimal and joined with commas split back into their forms, each of which reads back as its id |
| BridgeCommon.AllowedChatIdsRoundTrip | codex/codex_telegram_bridge/bridge_common.py:398-411 | writing ids as `1,-2,3` and parsing them back gives the set of those ids |
| BridgeCommon.ParseChatIdList | codex/codex_telegram_bridge/bridge_common.py:414-433 | `None` gives none; a string is a comma-separated list; an integer is one id; a list gives its elements' ids, none when empty, and fails when an element fails; anything else is none |
| BridgeCommon.ConfigGet | codex/codex_telegram_bridge/bridge_common.py:47-53 | a top-level key wins; otherwise the key in the nested `telegram` table; nothing exactly when neither holds it |
| BridgeCommon.ResolveChatIds | codex/codex_telegram_bridge/bridge_common.py:436-442 | `chat_id`, then `allowed_chat_ids`, then `startup_chat_ids`: the first that gives ids wins, and an error in `chat_id` is an error |
| BridgeCommon.TopLevelChatIdWins | codex/codex_telegram_bridge/bridge_common.py:436-442 | a top-level integer `chat_id` decides, whatever the nested table says |
| BridgeCommon.ChunkLinesSound | codex/codex_telegram_bridge/bridge_common.py:84-100 | the chunking loop over several lines keeps every chunk within the limit and loses and adds nothing |
| BridgeCommon.PartIdOfInt | codex/codex_telegram_bridge/bridge_common.py:405-411 | an id written in decimal has no comma and reads back as that id |
| BridgeCommon.CollectAllIds | codex/codex_telegram_bridge/bridge_common.py:405-411 | parts that each read as an id collect into the set of those ids |
| CliConfig.SegmentError | src/yee88/cli/config.py:73-79 | a segment draws no complaint exactly when it is a non-empty run of letters, digits, `_` and `-` |
| CliConfig.FirstSegmentError | src/yee88/cli/config.py:72-79 | no complaint exactly when every segment is valid; otherwise the complaint about the first bad segment |
| CliConfig.ParseKeyPath | src/yee88/cli/config.py:67-80 | a blank path is refused; accepted segments are valid, at least one, and joined with dots give the stripped path back; a refusal names a bad segment |
| CliConfig.FirstErrorPrefix | src/yee88/cli/config.py:72-79 | the first complaint within a prefix is the first complaint of the whole |
| CliConfig.ParseKeyPathLoop | src/yee88/cli/config.py:67-80 | the validating loop computes `ParseKeyPath` |
| CliConfig.CheckSegmentsLoop | src/yee88/cli/config.py:72-79 | the loop over the segments finds the complaint about the first bad segment, none when all are valid |
| CliConfig.KeyPathTight | src/yee88/cli/config.py:68 | valid segments joined with dots need no stripping |
| CliConfig.KeyPathRoundTrip | src/yee88/cli/config.py:67-80 | valid segments joined with dots parse back as themselves |
| CliConfig.InsertByKey | src/yee88/cli/config.py:128 | inserting keeps the entries sorted by key and adds exactly the one entry |
| CliConfig.SortByKey | src/yee88/cli/config.py:128 | `sorted(node)`: the same entries, sorted by key |
| CliConfig.Walk | src/yee88/cli/config.py:126-136 | the walk lists only leaves, never a table (which leaves: `WalkListsLeaf`, `WalkListsOnlyLeaves`) |
| CliConfig.FlattenConfig | src/yee88/cli/config.py:123-139 | the listing holds only leaves, never a table (exactly which: `FlattenConfigLeaves`) |
| CliConfig.WalkListsLeaf | src/yee88/cli/config.py:126-136 | every non-table value a path of keys reaches from a node is listed under that dotted path |
| CliConfig.WalkListsOnlyLeaves | src/yee88/cli/config.py:126-136 | every listed entry is a non-table value that its dotted path reaches |
| CliConfig.FlattenConfigLeaves | src/yee88/cli/config.py:123-139 | a path and value are listed exactly when the value is no table and the non-empty key path written as the dotted path reaches it |
| CliConfig.FlatEntriesListed | src/yee88/cli/config.py:127-134 | a table with no nested table lists exactly its entries, in the order walked |
| CliConfig.FlatConfigSorted | src/yee88/cli/config.py:123-139 | a configuration without tables lists every entry once, sorted by key, and nothing else |
| CliConfig.WalkInto | src/yee88/cli/config.py:126-136 | the recursive walk that appends to `items` appends exactly the listing `Walk` describes, whose entries `WalkListsLeaf` and `WalkListsOnlyLeaves` characterise |
| Config.GetProject | src/takopi/config.py:83-84 | `projects.get(key)`: nothing exactly when no project has the key; otherwise the project stored under it |
| Config.Resolve | src/takopi/config.py:79-84 | no alias means the default project, nothing when there is none; an alias is looked up lower-cased |
| Config.ProjectForChat | src/takopi/config.py:86-89 | a project exactly when a chat id is given and bound, and then the bound one |
| Config.EnsureTable | src/takopi/config.py:15-30 | an error exactly when the key holds something that is neither `None` nor a table; otherwise the key holds the returned table afterwards, other keys are unchanged, an existing table is returned as it is, and a missing one is created empty |
| Config.ReplaceChar | src/takopi/config.py:96 | replacing a character by a text without it removes every occurrence |
| Config.TomlEscapePerChar | src/takopi/config.py:95-96 | escaping backslashes first and quotes second escapes every character on its own: the backslashes added for quotes are not doubled |
| Config.UnescapeEscapeEach | src/takopi/config.py:95-96 | reading escaped text back gives the original |
| Config.TomlEscapeRoundTrip | src/takopi/config.py:95-96 | the TOML-escaped text reads back as the original |
| Config.FormatValue | src/takopi/config.py:99-113 | an error exactly for a value that cannot be written at some depth; a boolean is `true`/`false` and never a number; strings and paths are quoted and escaped |
| Config.FormatItems | src/takopi/config.py:110-112 | a list is written exactly when every item can be |
| Config.FormatStringRoundTrip | src/takopi/config.py:108-109 | a written string is a quoted text whose body reads back as the string |
| Config.KvLines | src/takopi/config.py:123-141 | the `key = value` lines are written exactly when every scalar can be (their text: `KvLinesOfScalars`) |
| Config.WriteTable | src/takopi/config.py:126-136 | a table is written exactly when all its values at every depth can be, and writing only appends lines (the lines of a flat table: `WriteFlatTable`) |
| Config.WriteSubtables | src/takopi/config.py:134-136 | the sub-tables are written exactly when each can be, appending only |
| Config.DumpTables | src/takopi/config.py:143-154 | the tables are written exactly when each can be, appending only |
| Config.DumpLines | src/takopi/config.py:120-156 | the lines are produced exactly when the whole configuration can be written, and they start with the top-level scalar lines |
| Config.DumpToml | src/takopi/config.py:120-156 | fails exactly when some value cannot be written; the text is the lines joined by newlines and ends with a newline (the text of scalars and of a table: `DumpScalars`, `DumpOneTable`, `DumpNestedTable`) |
| Config.KvLinesOfScalars | src/takopi/config.py:123-141 | scalar entries give one `key = value` line each, in order |
| Config.WriteFlatTable | src/takopi/config.py:126-136 | a table of scalars is written as a blank separator line when needed, the `[name]` header and its `key = value` lines |
| Config.DumpScalars | src/takopi/config.py:120-156 | a configuration of scalars dumps as its `key = value` lines joined by newlines, with a final newline |
| Config.DumpOneTable | src/takopi/config.py:120-156 | a configuration of one table of scalars dumps as the `[name]` header followed by its `key = value` lines |
| Config.DumpNestedTable | src/takopi/config.py:120-156 | a table nested in a table with nothing else dumps under the dotted header `[name.sub]` |
| ConfigMigrations.CopyLegacy | src/yee88/config_migrations.py:40-43 | a top-level key is copied into the `telegram` table only when the table does not hold it yet; other keys of the table are unchanged |
| ConfigMigrations.LegacyTables | src/yee88/config_migrations.py:32-38 | an error exactly when `transports` or `transports.telegram` holds something that is not a table; otherwise only `transports` changes at the top level and the `telegram` table is the existing one or empty |
| ConfigMigrations.DropLegacyKeys | src/yee88/config_migrations.py:45-46 | `bot_token` and `chat_id` are gone and every other key is unchanged |
| ConfigMigrations.SetDefault | src/yee88/config_migrations.py:47 | `setdefault`: a key already present keeps its value; other keys are unchanged |
| ConfigMigrations.FinishLegacy | src/yee88/config_migrations.py:40-47 | the legacy keys are gone, the filled `telegram` table is stored, `transport` defaults to `telegram`, and nothing else changes |
| ConfigMigrations.LegacyTelegram | src/yee88/config_migrations.py:27-48 | without `bot_token` or `chat_id` nothing changes and the answer is no; otherwise the answer is yes unless a table is malformed, and an error leaves the configuration as it was |
| ConfigMigrations.LegacyMoved | src/yee88/config_migrations.py:27-48 | afterwards the legacy keys are gone from the top level and sit in `transports.telegram`, where a value already there is kept; `transport` defaults to `telegram`; nothing else changes |
| ConfigMigrations.Subtable | src/yee88/config_migrations.py:12-24 | an error exactly when the key holds something that is not a table; otherwise the table, or nothing |
| ConfigMigrations.WithScope | src/yee88/config_migrations.py:81-98 | with `scope` set it stays; otherwise `mode` must be a known mode string and gives `main` or `projects`; other keys unchanged |
| ConfigMigrations.TopicsScope | src/yee88/config_migrations.py:51-101 | anything but a yes leaves the configuration unchanged; yes exactly when a topics table has a `mode` that can become a scope; a bad mode is the error |
| ConfigMigrations.RemoveMode | src/yee88/config_migrations.py:100 | `mode` is gone and every other key is unchanged |
| ConfigMigrations.BadModeRefused | src/yee88/config_migrations.py:81-97 | a `mode` that is not a string, or not one of the two known modes, is refused when no `scope` is set |
| ConfigMigrations.ModeBecomesScope | src/yee88/config_migrations.py:78-101 | afterwards `mode` is gone and `scope` is the old scope or the one the mode stands for; nothing else changes |
| ConfigMigrations.Migrations | src/yee88/config_migrations.py:104-110 | the names applied are a subsequence of `legacy-telegram`, `topics-scope`, in that order, and `legacy-telegram` is among them exactly when the configuration had a legacy key |
| ConfigMigrations.MigrationsStops | src/yee88/config_migrations.py:106 | a failing legacy migration stops the run with the configuration unchanged |
| ConfigMigrations.MigrationsRuns | src/yee88/config_migrations.py:104-110 | after a successful legacy migration the topics one runs on its result |
| ConfigMigrations.Applied | src/yee88/config_migrations.py:105-109 | the list holds each name exactly when that migration applied, in the order they ran |
| ConfigMigrations.LegacyCleared | src/yee88/config_migrations.py:45-46 | after a successful legacy migration no legacy key is left |
| ConfigMigrations.TopicsSettled | src/yee88/config_migrations.py:51-101 | running the topics migration again after it went through does nothing |
| ConfigMigrations.MigrateIdempotent | src/yee88/config_migrations.py:104-110 | a migrated configuration reports no migration and stays as it is |
| ConfigMigrations.ConfigDocument.constructor | src/yee88/config_migrations.py:104 | the document holds the configuration given |
| ConfigMigrations.ConfigDocument.MigrateLegacyTelegram | src/yee88/config_migrations.py:27-48 | the in-place migration answers and leaves the configuration as `LegacyTelegram` says |
| ConfigMigrations.ConfigDocument.MigrateTopicsScope | src/yee88/config_migrations.py:51-101 | the in-place migration answers and leaves the configuration as `TopicsScope` says |
| ConfigMigrations.ConfigDocument.MigrateConfig | src/yee88/config_migrations.py:104-110 | the in-place run reports and leaves what `Migrations` says |
| ChatPrefs.ChatKey | src/yee88/telegram/chat_prefs.py:35-36 | the key reads back as the chat id |
| ChatPrefs.ChatKeyInjective | src/yee88/telegram/chat_prefs.py:35-36 | two chats never share a key |
| ChatPrefs.NormalizeText | src/yee88/telegram/chat_prefs.py:39-43 | unset exactly when missing or blank; otherwise the stripped text |
| ChatPrefs.NormalizeTriggerMode | src/yee88/telegram/chat_prefs.py:46-54 | only `mentions`, in any case and spacing, is kept; anything else is unset |
| ChatPrefs.NormalizeEngineId | src/yee88/telegram/chat_prefs.py:57-61 | unset exactly when missing or blank; otherwise the stripped, lower-cased, non-empty id |
| ChatPrefs.NormalizeTriggerModeIdempotent | src/yee88/telegram/chat_prefs.py:46-54 | a normalised mode normalises to itself |
| ChatPrefs.NormalizeEngineIdIdempotent | src/yee88/telegram/chat_prefs.py:57-61 | a normalised engine id normalises to itself |
| ChatPrefs.HasEngineOverridesLoop | src/yee88/telegram/chat_prefs.py:231-235 | the loop finds a stored override exactly when one still sets a model or a reasoning level |
| ChatPrefs.Stored | src/yee88/telegram/chat_prefs.py:212-242 | the chat is stored exactly when its entry is not empty, as written; every other chat is unchanged |
| ChatPrefs.StoredKeepsNoEmpty | src/yee88/telegram/chat_prefs.py:221-228 | every write keeps the store free of empty entries |
| ChatPrefs.StoredView | src/yee88/telegram/chat_prefs.py:209-228 | after a write the chat reads exactly as the entry written, whether it was kept or removed |
| ChatPrefs.TriggerModeWritten | src/yee88/telegram/chat_prefs.py:115-130 | after setting a mode the chat reads back the normalised mode |
| ChatPrefs.ClearAbsentIsNoOp | src/yee88/telegram/chat_prefs.py:87-98 | clearing a field of a chat with no entry leaves the store as it is |
| ChatPrefs.ChatPrefsStore.constructor | src/yee88/telegram/chat_prefs.py:69-77 | a new store holds no chat |
| ChatPrefs.ChatPrefsStore.GetChat | src/yee88/telegram/chat_prefs.py:209-210 | the chat's entry exactly when it is stored |
| ChatPrefs.ChatPrefsStore.GetDefaultEngine | src/yee88/telegram/chat_prefs.py:79-85 | the stored default engine, normalised; none for a chat without an entry |
| ChatPrefs.ChatPrefsStore.GetTriggerMode | src/yee88/telegram/chat_prefs.py:107-113 | the stored trigger mode, normalised |
| ChatPrefs.ChatPrefsStore.GetContext | src/yee88/telegram/chat_prefs.py:135-145 | a context exactly when a project is set, with the normalised project and branch |
| ChatPrefs.ChatPrefsStore.GetEngineOverride | src/yee88/telegram/chat_prefs.py:170-182 | a blank engine id gives none; otherwise the normalised overrides stored under the lower-cased id |
| ChatPrefs.ChatPrefsStore.Store | src/yee88/telegram/chat_prefs.py:212-242 | the store becomes `Stored` of the entry |
| ChatPrefs.ChatPrefsStore.SetDefaultEngine | src/yee88/telegram/chat_prefs.py:87-105 | only this chat's default engine changes, and it reads back normalised |
| ChatPrefs.ChatPrefsStore.SetTriggerMode | src/yee88/telegram/chat_prefs.py:115-133 | only this chat's trigger mode changes, and it reads back normalised |
| ChatPrefs.ChatPrefsStore.SetContext | src/yee88/telegram/chat_prefs.py:147-168 | only this chat's context changes; without a project both project and branch are cleared; it reads back as written |
| ChatPrefs.ChatPrefsStore.SetEngineOverride | src/yee88/telegram/chat_prefs.py:184-207 | a blank engine id changes nothing; otherwise only that engine's override changes and reads back normalised |
| ChatPrefs.ContextNormalized | src/yee88/telegram/chat_prefs.py:153-161 | what `set_context` stores is already normalised, and a branch is stored only with a project |
| ChatPrefs.WithOverride | src/yee88/telegram/chat_prefs.py:190-202 | a normalised override is stored under the engine; none removes its entry; other engines keep theirs |
| TopicState.ThreadPart | src/yee88/telegram/topic_state.py:296-301 | the text after the first `:` of a key, and none exactly when the key has no `:` |
| TopicState.ThreadKeyParts | src/yee88/telegram/topic_state.py:57-58 | a thread key starts with its chat's prefix and its thread part reads back the thread id |
| TopicState.ContextFromState | src/yee88/telegram/topic_state.py:86-93 | no context exactly when nothing is stored or both fields are blank; otherwise both fields normalised |
| TopicState.ContextToState | src/yee88/telegram/topic_state.py:96-103 | nothing is stored exactly when there is no context or both fields are blank; otherwise both fields normalised |
| TopicState.ContextRoundTrip | src/yee88/telegram/topic_state.py:86-103 | storing a context and reading it back gives the normalised context |
| TopicState.ContextStateStable | src/yee88/telegram/topic_state.py:86-103 | storing what was read back changes nothing a reader sees |
| TopicState.LiveSessions | src/yee88/telegram/topic_state.py:307-322 | the snapshot's resumes are exactly the stored non-empty ones, with their values |
| TopicState.Without | src/yee88/telegram/topic_state.py:276-283 | the remaining keys are exactly the others, and no more than before |
| TopicState.WithoutDistinct | src/yee88/telegram/topic_state.py:276-283 | removing a key keeps the thread table free of duplicate keys |
| TopicState.TopicStateStore.constructor | src/yee88/telegram/topic_state.py:111-119 | a new store holds no thread |
| TopicState.TopicStateStore.GetThreadState | src/yee88/telegram/topic_state.py:324-325 | the thread's entry exactly when it is stored |
| TopicState.TopicStateStore.GetThread | src/yee88/telegram/topic_state.py:121-129 | a snapshot exactly when the thread is stored, naming that chat and thread, and agreeing with the other getters: its context is `get_context`'s, its default engine is `get_default_engine`'s, its resumes are the non-empty stored ones (exactly the engines `get_session_resume` answers for), and its title is the stored one |
| TopicState.TopicStateStore.GetContext | src/yee88/telegram/topic_state.py:131-137 | the stored context, read back normalised |
| TopicState.TopicStateStore.GetSessionResume | src/yee88/telegram/topic_state.py:164-175 | a resume exactly when a non-empty one is stored for that engine, and it is that one |
| TopicState.TopicStateStore.GetDefaultEngine | src/yee88/telegram/topic_state.py:177-183 | the stored default engine, normalised |
| TopicState.TopicStateStore.GetTriggerMode | src/yee88/telegram/topic_state.py:185-191 | the stored trigger mode, normalised |
| TopicState.TopicStateStore.GetEngineOverride | src/yee88/telegram/topic_state.py:193-205 | none for a blank engine id; otherwise the normalised override stored under the normalised id |
| TopicState.TopicStateStore.PutThread | src/yee88/telegram/topic_state.py:327-334 | the thread is written; a new key joins the end of the table and an existing one keeps its place |
| TopicState.TopicStateStore.SetContext | src/yee88/telegram/topic_state.py:139-153 | only this thread's context, and its title when one is given, change; the context reads back normalised |
| TopicState.TopicStateStore.ClearContext | src/yee88/telegram/topic_state.py:155-162 | a stored thread loses its context; a missing thread stays missing |
| TopicState.TopicStateStore.SetDefaultEngine | src/yee88/telegram/topic_state.py:207-218 | only this thread's default engine changes, and it reads back normalised |
| TopicState.TopicStateStore.SetTriggerMode | src/yee88/telegram/topic_state.py:220-231 | only this thread's trigger mode changes, and it reads back normalised |
| TopicState.TopicStateStore.SetEngineOverride | src/yee88/telegram/topic_state.py:233-256 | a blank engine id changes nothing; otherwise only that engine's override changes and reads back normalised |
| TopicState.TopicStateStore.SetSessionResume | src/yee88/telegram/topic_state.py:258-265 | the engine's resume is overwritten and read back; every other engine's resume is unchanged |
| TopicState.TopicStateStore.ClearSessions | src/yee88/telegram/topic_state.py:267-274 | afterwards no engine has a resume for the thread; a missing thread stays missing |
| TopicState.TopicStateStore.DeleteThread | src/yee88/telegram/topic_state.py:276-283 | the thread is gone from the table and from the key order; deleting a missing thread changes nothing |
| TopicState.TopicStateStore.FindThreadForContext | src/yee88/telegram/topic_state.py:285-305 | the first thread of the chat, in table order, whose stored context equals the normalised target; none exactly when no thread matches |
| TopicState.StoredThreadMatches | src/yee88/telegram/topic_state.py:285-305 | a thread that was given a context matches a search for that context |
| CronManager.FirstWithId | src/yee88/cron/manager.py:76-80 | a job exactly when one has the id, and it is a job of the list with that id |
| CronManager.WithoutId | src/yee88/cron/manager.py:69 | exactly the jobs with another id remain, and the list does not grow |
| CronManager.WithoutIdShorter | src/yee88/cron/manager.py:67-74 | filtering shortens the list exactly when a job had the id |
| CronManager.WithoutIdUnique | src/yee88/cron/manager.py:69 | filtering keeps job ids unique |
| CronManager.SetEnabled | src/yee88/cron/manager.py:85-99 | the list keeps its length and every position keeps its job id |
| CronManager.SetEnabledLookup | src/yee88/cron/manager.py:85-99 | the switched job looks up with the new flag and nothing else about it changed; other ids look up as before |
| CronManager.IndexOfId | src/yee88/cron/manager.py:86-87 | the position of a job with the id, with no job before it having that id |
| CronManager.SetEnabledAt | src/yee88/cron/manager.py:86-88 | switching a job is replacing the first job with the id at its position |
| CronManager.CronManager.constructor | src/yee88/cron/manager.py:11-13 | a new manager holds no job |
| CronManager.CronManager.Add | src/yee88/cron/manager.py:58-65 | refused exactly when the project is a directory outside git or the id is taken, leaving the jobs unchanged; otherwise the job is appended; ids stay unique |
| CronManager.CronManager.Remove | src/yee88/cron/manager.py:67-74 | true exactly when a job with the id was there; afterwards no job has it and the others keep their order |
| CronManager.CronManager.Get | src/yee88/cron/manager.py:76-80 | the loop returns the first job with the id, and none for an unknown id |
| CronManager.CronManager.SetFlag | src/yee88/cron/manager.py:85-99 | true exactly when a job has the id; then that job's flag is set; otherwise nothing changes |
| CronManager.CronManager.Enable | src/yee88/cron/manager.py:85-91 | true exactly when a job has the id; then it is switched on; otherwise nothing changes |
| CronManager.CronManager.Disable | src/yee88/cron/manager.py:93-99 | true exactly when a job has the id; then it is switched off; otherwise nothing changes |
| Codex.KindOfItemType | src/takopi/runners/codex.py:31-39 | tool calls map to the tool kind, reasoning and todo lists to notes, and exactly the seven listed item types have a kind |
| Codex.ShortToolName | src/takopi/runners/codex.py:93-95 | never empty; `tool` when neither server nor tool is set; `server.tool` when both are |
| Codex.SummarizeToolResult | src/takopi/runners/codex.py:98-116 | a summary exactly when the result is a dict with content or structured content; a list of content counts its blocks, any other content counts one, and no content gives no count |
| Codex.TruthyPaths | src/takopi/runners/codex.py:119-124 | only truthy paths are kept, no more than there are changes, and none exactly when no change has a path |
| Codex.FormatChangeSummaryCases | src/takopi/runners/codex.py:119-127 | `files` without changes, `N files` when no change has a path, and the one path for one change |
| Codex.ChangeSummaryNamesPaths | src/takopi/runners/codex.py:121-127 | when every change names a file, the summary is those names, in order, joined by `, ` |
| Codex.Summarize | src/takopi/runners/codex.py:137-157 | the done count never exceeds the total |
| Codex.FirstOpenText | src/takopi/runners/codex.py:145-155 | the text comes from an open dict item of the list |
| Codex.CountsAppend | src/takopi/runners/codex.py:137-157 | the counts of a concatenation add up and its next text is the first list's, else the second's |
| Codex.SummarizeCounts | src/takopi/runners/codex.py:137-157 | the loop's summary equals the reference counts: dict items, completed items and the first open text |
| Codex.NonDictSkipped | src/takopi/runners/codex.py:146-147 | an item that is not a dict does not change the summary |
| Codex.SummarizeTodoList | src/takopi/runners/codex.py:137-157 | the loop's summary equals the reference counts, with done at most total, and an empty summary when `items` is not a list |
| Codex.TodoTitle | src/takopi/runners/codex.py:160-165 | `todo` exactly when the list is empty; otherwise `todo d/t: ` followed by the next open item or by `done` |
| Codex.ActionIdOf | src/takopi/runners/codex.py:179-182 | an id only when the item's id is a non-empty string, and it is that id |
| Codex.TranslateItemEvent | src/takopi/runners/codex.py:168-364 | at most one event; one exactly when the item has an id, a known type, and is not an error or file change before completion; it carries the id and the phase; errors are failed warnings; other kinds follow the kind map |
| Codex.TranslateCodexEvent | src/takopi/runners/codex.py:367-381 | at most one event and never a completion; `Started` exactly for `thread.started` with a thread id, carrying that session and the title; other non-item events give nothing |
| Codex.TranslateStep | src/takopi/runners/codex.py:465-550 | at most one event; a completion carries the answer so far and the session found, else the resume; it succeeds exactly on `turn.completed` and then has no error; a fatal error always completes unsuccessfully; counters grow by at most one |
| Codex.TurnIdsDistinct | src/takopi/runners/codex.py:514-524 | two turns started one after another get different action ids |
| Codex.LastAgentMessageAnswers | src/takopi/runners/codex.py:525-550 | a completed turn answers with the text of the agent message recorded before it |
| Codex.StreamEndEvents | src/takopi/runners/codex.py:578-605 | exactly one completion; it succeeds exactly when a session was found, carrying that session, else the resume token and an error |
| Codex.ProcessErrorStep | src/takopi/runners/codex.py:552-576 | a warning under the next note id, then a failed completion whose error is the warning's message; only the note counter moves |
| Codex.HandleStartedAgrees | src/takopi/runners/codex.py:444-463 | Codex accepts and rejects the same `Started` events as the shared runner protocol, with the same outcome |
| Codex.CodexRunState.constructor | src/takopi/runners/codex.py:383-388 | every counter starts at zero with no answer |
| Codex.CodexRunState.NextNoteId | src/takopi/runner.py:182-190 | the note counter grows by one and the id names the new count |
| Codex.CodexRunner.constructor | src/takopi/runners/codex.py:396-406 | the runner keeps the session title |
| Codex.CodexRunner.Translate | src/takopi/runners/codex.py:465-550 | the events and the new run state are those of `TranslateStep` on the old state |
| Codex.CodexRunner.ProcessErrorEvents | src/takopi/runners/codex.py:552-576 | the events and the new run state are those of `ProcessErrorStep` on the old state |
| Claude.ResultParts | src/takopi/runners/claude.py:59-75 | only non-empty texts are kept, no more than there are entries |
| Claude.NormalizeToolResult | src/takopi/runners/claude.py:59-75 | `None` gives the empty text and a string gives itself |
| Claude.NormalizeSplitsBack | src/takopi/runners/claude.py:59-75 | when no entry text holds a newline, splitting the joined result on newlines gives back the entry texts |
| Claude.StrOrNone | src/takopi/runners/claude.py:277-282 | a value exactly for a string |
| Claude.ClaudeKindAndTitle | src/takopi/runners/claude.py:97-137 | a name outside Claude's table is a plain tool titled by its name |
| Claude.ClaudeAgreesWithShared | src/takopi/runners/claude.py:97-137 | on every name Claude's table knows, it gives what the shared tool table gives with the keys `file_path` and `path` |
| Claude.ToolAction | src/takopi/runners/claude.py:140-170 | an action exactly when the block has a non-empty string id, keyed by it, with the kind and title of the tool table and the tool name in its detail |
| Claude.ToolResultEvent | src/takopi/runners/claude.py:173-205 | the completion of the given action, same id, kind and title; failed exactly when `is_error` is true, which its detail records |
| Claude.FirstListedError | src/takopi/runners/claude.py:214-222 | a message found in the list is never empty |
| Claude.ExtractError | src/takopi/runners/claude.py:208-223 | a non-empty `error` string wins; a result flagged as an error always yields a non-empty message |
| Claude.CopyKeys | src/takopi/runners/claude.py:226-241 | the copy holds only listed keys with their values, no `None` when asked, and every listed key that qualifies |
| Claude.ActionIdsSnoc | src/takopi/runners/claude.py:286-305 | adding an event adds at most its action's id |
| Claude.AssistantFold | src/takopi/runners/claude.py:286-305 | only started actions are emitted; the pending table gains exactly their ids and stays keyed by id; the note counter is untouched |
| Claude.UserFold | src/takopi/runners/claude.py:317-337 | only completions are emitted; the pending table only loses entries, exactly the completed ids; nothing else changes |
| Claude.DenialEvents | src/takopi/runners/claude.py:341-366 | at most one failed warning per denial |
| Claude.ResultCompleted | src/takopi/runners/claude.py:368-393 | a completion that succeeds exactly unless `is_error` is set; a failure carries the extracted error, a success none; it resumes exactly when a session id is given |
| Claude.ResultAnswerFallback | src/takopi/runners/claude.py:369-373 | the result's own text wins; a failure without text answers empty; a success without text answers with the last assistant text |
| Claude.ResultEvents | src/takopi/runners/claude.py:339-394 | denial warnings first, then exactly one completion, last |
| Claude.SystemInitEvents | src/takopi/runners/claude.py:251-271 | a `Started` event exactly when a session id is given, resuming that session |
| Claude.TranslateStep | src/takopi/runners/claude.py:244-396 | at most one start, only for `system`/`init`; exactly one completion for `result`, and last; init without a session does nothing; pending stays keyed; only assistant and user events change the state |
| Claude.ToolUseThenResult | src/takopi/runners/claude.py:287-336 | a tool use answered by a result completes the same action and leaves the pending table as before |
| Claude.AnnounceOne | src/takopi/runners/claude.py:273-305 | an assistant message with one tool use starts it and files it under its id |
| Claude.CompleteOne | src/takopi/runners/claude.py:307-337 | a user message with one tool result completes its target and drops it from the pending table |
| Claude.UnknownResultIsSynthetic | src/takopi/runners/claude.py:326-333 | a result for an id never announced completes a synthetic tool action of that id, titled `tool result` |
| Claude.ClaudeStreamState.constructor | src/takopi/runners/claude.py:35-38 | no pending action, no text, note counter zero |
| Claude.ClaudeStreamState.NextNoteId | src/takopi/runner.py:182-190 | the note counter grows by one and the id names the new count |
| Claude.TranslateAssistant | src/takopi/runners/claude.py:286-305 | the loop's events and new state are those of `AssistantFold` |
| Claude.TranslateUser | src/takopi/runners/claude.py:317-337 | the loop's events and new state are those of `UserFold` |
| Claude.TranslateResult | src/takopi/runners/claude.py:339-394 | the loop's events are those of `ResultEvents` |
| Claude.TranslateClaudeEvent | src/takopi/runners/claude.py:244-396 | the events and new state are those of `TranslateStep` on the old state |
| Claude.ProcessErrorStep | src/takopi/runners/claude.py:508-533 | a warning under the next note id, then a failed completion; only the note counter moves |
| Claude.ProcessErrorIsShared | src/takopi/runners/claude.py:508-533 | apart from the stderr tail, these are the shared runner's error events |
| Claude.ProcessErrorEvents | src/takopi/runners/claude.py:508-533 | the events and new state are those of `ProcessErrorStep` on the old state |
| Claude.StreamEndEvents | src/takopi/runners/claude.py:535-566 | one failed completion with an error; on the session found with the last text as answer, else on the resume asked for with no answer |
| ToolActions.ToolInputPath | src/yee88/runners/tool_actions.py:10-19 | none exactly when no listed key holds a non-empty string; otherwise the value of the first key that does |
| ToolActions.ToolKindAndTitle | src/yee88/runners/tool_actions.py:22-90 | up to case, shell names are commands, edit names file changes, web names web searches, and no other name except a task gets those kinds; todo and question tools are notes; tasks get the task kind; an unknown name is a plain tool titled by itself; an edit is titled by its path, relativised, else by the tool name |
| ToolActions.KindIgnoresCase | src/yee88/runners/tool_actions.py:29 | two names that lower-case alike get the same kind |
| ToolActions.TaskTitle | src/yee88/runners/tool_actions.py:86-88 | a task is titled by its description, else its prompt, else the tool name |
| ExecRender.OneLine | codex_telegram_bridge/src/codex_telegram_bridge/exec_render.py:20-21 | the result has exactly the words of the text |
| ExecRender.Truncate | codex_telegram_bridge/src/codex_telegram_bridge/exec_render.py:24-25 | a prefix of the one-line text no longer than the limit, and the whole of it when it fits |
| ExecRender.Pad2 | codex_telegram_bridge/src/codex_telegram_bridge/exec_render.py:33-35 | two digits that read back as the number |
| ExecRender.FormatElapsed | codex_telegram_bridge/src/codex_telegram_bridge/exec_render.py:28-36 | `0s` for no time; the text ends in seconds below an hour and in minutes from one hour on |
| ExecRender.ElapsedRoundTrip | codex_telegram_bridge/src/codex_telegram_bridge/exec_render.py:28-36 | reading the text back gives the clamped time, exact below an hour and rounded down to the minute from one hour on |
| ExecRender.FormatHeader | codex_telegram_bridge/src/codex_telegram_bridge/exec_render.py:39-43 | the label, the separator and the elapsed time come first |
| ExecRender.QuotedPaths | codex_telegram_bridge/src/codex_telegram_bridge/exec_render.py:55-59 | one entry per path, each the truncated path in backquotes |
| ExecRender.FileChangeCases | codex_telegram_bridge/src/codex_telegram_bridge/exec_render.py:62-69 | `updated files` without changes, a count beyond three paths, and the one quoted path for one |
| ExecRender.FormatItemLine | codex_telegram_bridge/src/codex_telegram_bridge/exec_render.py:97-124 | a line only for started or completed items; started lines carry the running mark, completed lines other than reasoning the done mark |
| ExecRender.LeadingDigits | codex_telegram_bridge/src/codex_telegram_bridge/exec_render.py:84 | the maximal run of digits at the front |
| ExecRender.DigitRun | codex_telegram_bridge/src/codex_telegram_bridge/exec_render.py:84-86 | none exactly when the text has no digit; otherwise a non-empty run of digits |
| ExecRender.ExtractNumericId | codex_telegram_bridge/src/codex_telegram_bridge/exec_render.py:80-87 | an integer (or bool) id is kept; a string with digits gives the value of its first digit run; anything else the fallback |
| ExecRender.NumericIdRoundTrip | codex_telegram_bridge/src/codex_telegram_bridge/exec_render.py:80-87 | an id written as a digit-free prefix, a number and a rest not starting with a digit reads back as that number |
| ExecRender.AttachId | codex_telegram_bridge/src/codex_telegram_bridge/exec_render.py:90-91 | the line is kept whole after the bracketed tag |
| ExecRender.RunningPrefix | codex_telegram_bridge/src/codex_telegram_bridge/exec_render.py:196-199 | every running line written for the item starts with this prefix |
| ExecRender.RunningPrefixAsWritten | codex_telegram_bridge/src/codex_telegram_bridge/exec_render.py:199 | the prefix the code tests: for an item with an id it is the one `attach_id` writes; for one without, no running line starts with it |
| ExecRender.RunningPrefixAgrees | codex_telegram_bridge/src/codex_telegram_bridge/exec_render.py:196-199 | for an item with a number, the prefix as written is the right one |
| ExecRender.RunningLineMissedAsWritten | codex_telegram_bridge/src/codex_telegram_bridge/exec_render.py:196-199 | as written, the running line of an item without a number is never recognised |
| ExecRender.Push | codex_telegram_bridge/src/codex_telegram_bridge/exec_render.py:178-201 | the deque grows by one up to its bound, the new line is last, and the oldest lines go first |
| ExecRender.Kept | codex_telegram_bridge/src/codex_telegram_bridge/exec_render.py:196-200 | as written (the `[None]` prefix test): the lines stay, or only the last one is dropped |
| ExecRender.KeptIntended | codex_telegram_bridge/src/codex_telegram_bridge/exec_render.py:196-200 | with the intended prefix: the lines stay, or only the last one is dropped |
| ExecRender.KeptAgrees | codex_telegram_bridge/src/codex_telegram_bridge/exec_render.py:196-200 | for an item with an id the code and the intended prefix keep the same lines |
| ExecRender.IdlessRunningLineKept | codex_telegram_bridge/src/codex_telegram_bridge/exec_render.py:196-200 | as written, the completion of an item without a number keeps its running line; the intended prefix drops it |
| ExecRender.NoteStep | codex_telegram_bridge/src/codex_telegram_bridge/exec_render.py:181-205 | the deque never exceeds its bound; only item events change the state; thread and turn starts report a change; an item event reports one exactly when it is not an agent message and has a line; no change keeps the lines |
| ExecRender.NoteStepShowsLine | codex_telegram_bridge/src/codex_telegram_bridge/exec_render.py:188-202 | a shown line, tagged with the item's number, is pushed after the lines `Kept` leaves (the code's own prefix test), and the item's turn is recorded |
| ExecRender.NoteStepHidden | codex_telegram_bridge/src/codex_telegram_bridge/exec_render.py:188-195 | an agent message or an item without a line changes nothing shown; only the item's turn is recorded |
| ExecRender.CompletionReplacesRunning | codex_telegram_bridge/src/codex_telegram_bridge/exec_render.py:196-202 | with the intended prefix, a completion takes the place of its item's running line when that is last, else is appended |
| ExecRender.CompletionReplacesNumberedRunning | codex_telegram_bridge/src/codex_telegram_bridge/exec_render.py:196-202 | as written, the completion of an item with an id replaces its running line when that is last |
| ExecRender.FinalLines | codex_telegram_bridge/src/codex_telegram_bridge/exec_render.py:216-218 | when done, exactly the lines that are not command log lines; otherwise all lines |
| ExecRender.Assemble | codex_telegram_bridge/src/codex_telegram_bridge/exec_render.py:225-229 | the header comes first, and alone exactly when there are no lines |
| ExecRender.WithAnswer | codex_telegram_bridge/src/codex_telegram_bridge/exec_render.py:220-223 | the body comes first; a blank answer adds nothing; otherwise it ends with a blank line and the stripped answer |
| ExecRender.ExecProgressRenderer.constructor | codex_telegram_bridge/src/codex_telegram_bridge/exec_render.py:176-179 | the bounds are kept and there are no lines and no turn |
| ExecRender.ExecProgressRenderer.NoteEvent | codex_telegram_bridge/src/codex_telegram_bridge/exec_render.py:181-205 | the answer and the new state are those of `NoteStep` (the code as written) on the old state |
| ExecRender.ExecProgressRenderer.RenderProgress | codex_telegram_bridge/src/codex_telegram_bridge/exec_render.py:207-212 | starts with the header; fits the limit or is the header alone; it is the full message exactly when that fits |
| ExecRender.ExecProgressRenderer.RenderFinal | codex_telegram_bridge/src/codex_telegram_bridge/exec_render.py:214-223 | the status header and the kept lines first, then the stripped answer when it is not blank |
| DiscordHandlers.SplitFirstWord | reference/src/takopi_discord/handlers.py:1106-1114 | none exactly when the text is all whitespace; otherwise a non-empty word without whitespace and a rest that does not start with whitespace |
| DiscordHandlers.SplitFirstWordWords | reference/src/takopi_discord/handlers.py:1106-1114 | none exactly when the text has no word; otherwise the first word followed by the words of the rest are the words of the text |
| DiscordHandlers.ParseBranchPrefix | reference/src/takopi_discord/handlers.py:1091-1115 | without a leading `@` (or with a lone `@`) no branch and the stripped message; a branch only after `@`, non-empty and without whitespace; the prompt has no whitespace at either end |
| DiscordHandlers.BranchPrefixWords | reference/src/takopi_discord/handlers.py:1101-1115 | no branch exactly when no word follows the `@`; otherwise the branch and the prompt's words are the words after the `@` |
| DiscordHandlers.WordsOfStrip | reference/src/takopi_discord/handlers.py:1115 | stripping keeps the words |
| DiscordHandlers.BranchPrefixRoundTrip | reference/src/takopi_discord/handlers.py:1091-1115 | writing `@branch prompt` and parsing it gives back the branch and the prompt |
| DiscordOverrides.Cascade | reference/src/takopi_discord/overrides.py:50-81 | the thread's value when set, labelled `thread`, else the channel's, labelled `channel`; no label exactly when no value |
| DiscordOverrides.ResolveOverrides | reference/src/takopi_discord/overrides.py:31-88 | model and reasoning level are each the thread's when it sets one, else the channel's, else unset, with the matching source label |
| DiscordOverrides.OverridesAreFirstPresent | reference/src/takopi_discord/overrides.py:31-88 | the model agrees with the shared first-present cascade over thread then channel, with the label of its position |
| DiscordOverrides.ThreadShadowsChannel | reference/src/takopi_discord/overrides.py:50-74 | changing a channel's model does not change what a thread that sets its own resolves to |
| DiscordOverrides.ResolveTriggerMode | reference/src/takopi_discord/overrides.py:91-116 | the thread's mode when set, else the channel's, else `all` |
| DiscordOverrides.TriggerModeAgreesWithTelegram | reference/src/takopi_discord/overrides.py:91-116 | without a thread mode, Discord resolves to `mentions` exactly when the Telegram rule does |
| DiscordOverrides.ThreadAllShadowsChannelMentions | reference/src/takopi_discord/overrides.py:104-108 | a thread set to `all` in a channel set to `mentions` resolves to `all`, where the Telegram rule gives `mentions` |
| DiscordOverrides.ResolveDefaultEngine | reference/src/takopi_discord/overrides.py:119-150 | an engine exactly when a source label is given; the `config` label carries the configured default |
| DiscordOverrides.DefaultEngineIsFirstPresent | reference/src/takopi_discord/overrides.py:119-150 | the first present of the thread's, the channel's and the configured engine, labelled by its position; nothing exactly when none is set |
| DiscordOverrides.ReasoningAgreesWithTelegram | reference/src/takopi_discord/overrides.py:153-160 | the Discord and Telegram transports accept the same reasoning engines and the same five levels |
| Menu.EngineCandidates | src/yee88/telegram/commands/menu.py:28-33 | one lower-cased `use engine:` candidate per engine |
| Menu.AliasCandidates | src/yee88/telegram/commands/menu.py:34-45 | one lower-cased `work on:` candidate per alias, valid when the id check accepts it |
| Menu.TailCandidates | src/yee88/telegram/commands/menu.py:73-95 | the built-ins and optional commands end with `cancel` |
| Menu.Candidates | src/yee88/telegram/commands/menu.py:28-95 | every candidate in the order the builder tries them, ending with `cancel` |
| Menu.Dedup | src/yee88/telegram/commands/menu.py:26-95 | no name twice; every valid candidate's name is listed; every entry comes from a valid candidate; no more entries than candidates |
| Menu.FirstCandidateWins | src/yee88/telegram/commands/menu.py:30-63 | the first valid candidate of a name is the one listed |
| Menu.Truncated | src/yee88/telegram/commands/menu.py:96-104 | at most 100 entries; a short menu is kept; a long one keeps its first 99 and ends in `cancel` if it lost it; `cancel` and distinct names are kept; no new entry but `cancel` |
| Menu.MenuShape | src/yee88/telegram/commands/menu.py:20-105 | the menu has at most 100 entries, no name twice, and always `cancel` |
| Menu.InvalidAliasSkipped | src/yee88/telegram/commands/menu.py:38-43 | an alias the id check refuses is a candidate that is never listed |
| Menu.Add | src/yee88/telegram/commands/menu.py:30-33 | adding one candidate keeps the menu equal to the deduplicated candidates so far, with `seen` its names |
| Menu.AddEngines | src/yee88/telegram/commands/menu.py:28-33 | the engine loop extends the deduplicated menu by the engine candidates |
| Menu.AddAliases | src/yee88/telegram/commands/menu.py:34-45 | the alias loop extends the deduplicated menu by the alias candidates |
| Menu.AddBackends | src/yee88/telegram/commands/menu.py:46-72 | the plugin loop extends the deduplicated menu by the accepted plugin commands |
| Menu.AddBuiltins | src/yee88/telegram/commands/menu.py:73-84 | the built-in loop extends the deduplicated menu by the built-ins |
| Menu.AddOptional | src/yee88/telegram/commands/menu.py:85-93 | an enabled optional command is added unless its name is listed |
| Menu.AddTail | src/yee88/telegram/commands/menu.py:73-95 | the tail extends the deduplicated menu by the built-ins, optional commands and `cancel` |
| Menu.Truncate | src/yee88/telegram/commands/menu.py:96-104 | the cut menu is `Truncated` of the menu |
| Menu.BuildBotCommands | src/yee88/telegram/commands/menu.py:20-105 | the built menu is the reference `BotCommands`, with at most 100 entries, no name twice, and `cancel` |
| TelegramContext.BranchOfToken | src/takopi/telegram/context.py:67-74 | no branch exactly for a lone `@`; otherwise `@` followed by the branch is the token |
| TelegramContext.ShapeOf | src/takopi/telegram/context.py:63-74 | an error exactly for two tokens neither of which starts with `@`; a project token exactly when the first token does not start with `@`, and it is that token; a branch is non-empty and comes from an `@` token |
| TelegramContext.ParseProjectBranchArgs | src/takopi/telegram/context.py:44-98 | no tokens give the usage text, more than two `too many arguments`, two plain tokens the `@` error; a result always names a project: the chat's own when the chat has one, else the normalised first token; a branch comes from an `@` token and is present whenever required |
| TelegramContext.ProjectKey | src/takopi/telegram/context.py:76-93 | a bound chat yields its own project, and a different named project is a mismatch; an unknown name is an error; an unbound chat needs a named project and yields its normalised key |
| TelegramContext.ProjectAndBranch | src/takopi/telegram/context.py:44-98 | naming a known project and a branch reads back as that project and branch in an unbound chat or one bound to that project |
| TelegramContext.BranchOnlyInBoundChat | src/takopi/telegram/context.py:66-79 | in a bound chat `@branch` alone gives the chat's project and that branch |
| TelegramContext.SecondTokenAfterBranchIgnored | src/takopi/telegram/context.py:65-74 | a second token after an `@branch` token is not read |
| TelegramContext.MergeTopicContext | src/takopi/telegram/context.py:131-140 | without a chat project the bound context stands; with one the result always names a project, the bound one when it has one, else the chat's; the bound branch is kept |
| TelegramContext.MergeIdempotent | src/takopi/telegram/context.py:131-140 | merging a merged context changes nothing |

## Left out

- Concurrency: anyio tasks, events and locks are not modelled; the scheduler's worker (`Scheduler.ThreadScheduler.RunWorker`) and the outbox's run loop (`Outbox.TelegramOutbox.NextStep`, `Finish` and `Crash`) are sequential steps, and interleavings are modelled only where an enqueue or a close happens between a pick and its outcome.
- Text.ParseInt: models `int()` on a stripped string as an optional sign followed by ASCII digits. Python also accepts single underscores between digits (`"1_000"`) and non-ASCII decimal digits (for example Arabic-Indic or full-width digits), and the model refuses both. This matters where ids are read from text: chat ids in `BridgeCommon.IntOf` and `BridgeCommon.IdOf`, and thread ids in `TopicState.ThreadIdOf`.
- `run_with_resume_lock` and `run_locked`: only the choice of lock (`Runner.SessionLockTable.LockFor`, `LockForRun` and `Runner.RunLockedLock`, which is given the whole event stream) is modelled, not the acquiring, holding and releasing of the lock around the streaming run; the lock table's weak references are a plain map that never forgets an entry.
- `ThreadScheduler.enqueue_resume` is a thin wrapper that builds a job and calls `enqueue`; it is not modelled separately.
- Persistence and file I/O: loading and saving the JSON state files of the chat-preference and topic stores, `cron.toml` and migrated configuration files; the stores are modelled in memory only.
- `CronManager.CronManager.Add`: `_validate_project`'s filesystem test (the path exists, is a directory, has `.git`) is a boolean parameter.
- Cron due-job selection (`get_due_jobs`): needs the clock and croniter schedules.
- Logging calls of every module.
- Regular expressions: the engines' resume-line patterns are a parameter (the list of match groups), `is_resume_line` is not modelled, and exec_render's `\d` is read as the ASCII digits only.
- `split_command_args` (shlex): the tokens are the input of the file-command parsers.
- Glob matching in `deny_reason`: the matcher is a parameter.
- Markdown rendering through markdown_it and sulguk (`prepare_telegram`, `render_markdown`): only the splitting and trimming of the rendered text are modelled.
- Project-key normalisation and alias lookup of the Telegram runtime, `is_valid_id`, `RESERVED_COMMAND_IDS`, the plugin entry points (`list_entrypoints`, `get_command`, whose `ConfigError` is an absent entry) and `relativize_command`/`relativize_path` are parameters: their modules are not part of this model.
- Floating point: a float is carried as the text of its Python `repr`, which `Config.FormatValue` writes as it is; no arithmetic on floats is modelled, and `int()` of a float (a chat id in a list, an entity offset or length, in `BridgeCommon.ItemId` and `BridgeCommon.IntOf`) is refused instead of truncated.
- `str.lower()` is modelled for ASCII letters only; other characters are kept as they are.
- Python's `repr` of a string (`Text.Repr`) is written as the string in single quotes, without escaping quotes or backslashes; `Config.FormatValue` leaves the repr of an unsupported value other than `None` out of its message.
- `Json.ToStr` prints a list or a dict as `<object>` where Python's `str` would print its repr; only ids and paths that are strings, numbers or booleans are displayed through it.
- `ExecRender.FormatElapsed` (and the headers built on it) takes the elapsed time as an integer number of seconds, where Python is given a float and truncates it with `int()`; the float and its truncation are not modelled.
- Messages that name the configuration file (`config_path`) in `src/takopi/config.py` and the configuration migrations leave the path out, since file paths are not modelled.
- SplitBlock: as written a piece can be up to two characters over the limit when a long line's ending is glued to its last slice; the model keeps that behaviour (see Findings) and states `SplitBlockSound`, `FenceFreeBodySplit` and the chunk bounds with that `+ 2`.
- FlatConfigSorted: the order of the listing is stated only for a configuration without nested tables; for nested tables the model states which dotted paths and values are listed (`CliConfig.FlattenConfigLeaves`), not their order, which follows the sorted keys level by level.
- WriteSubtables: the lines written are stated only through `Config.DumpNestedTable` (one table holding one table of scalars); for other shapes only success and appending are stated.
- DumpTables: the lines written are stated only through `Config.DumpOneTable` and `Config.DumpNestedTable`; for several or mixed tables only success and appending are stated.
- DumpLines: beyond the top-level scalar lines it starts with, the table lines that follow are stated only for the one-table shapes of `Config.DumpOneTable` and `Config.DumpNestedTable`.
- NoteStep: modelled as written, with the `[None]` prefix test; the corrected behaviour is stated only for `ExecRender.KeptIntended` and `ExecRender.CompletionReplacesRunning`, not for a whole corrected renderer.
- Python error paths of loosely typed JSON: `.get` on a value that is not a dict reads as empty, and a missing key reads as `None` or as the default the code passes.
- Codex runner: `build_args`, `command`, `start_run` and `build_runner` (process start-up) are not modelled.
- Claude runner: `_build_args`, `stdin_payload`, the environment and `invalid_json_events` are not modelled.
- exec_render: `render_event_cli` is not modelled.
- `src/takopi/telegram/context.py`: `_format_context` and `_format_ctx_status` (display strings) are not modelled.
- Duplicates of modelled files are not modelled again: `src/yee88/discord/handlers.py`, `src/takopi/runner.py` (apart from `next_note_id`), and the reference Discord `outbox.py` and `render.py`.
- Router: the plain accessors `entries`, `available_entries`, `engine_ids` and `default_entry` are not modelled separately.
- `Config.EnsureTable`: modelled on values (it returns the updated table and the child) instead of updating the dictionary in place, so aliasing of the returned child with the parent is not captured.
- The legacy `src/takopi/bridge.py` is not part of this model.
- Topic state: `resolve_state_path` (a path computation on the filesystem layout) is not modelled.

## Findings

| source | as written | input that shows it | evidently intended | confidence | as-written member | corrected member |
|---|---|---|---|---|---|---|
| src/yee88/telegram/render.py:46-58 | `_split_long_line` slices the line body into pieces of at most `max_chars` and then appends the line ending to the last piece, so that piece can be `max_chars + 1` or `max_chars + 2` long | `max_chars = 3`, line `"abc\n"` gives the single part `"abc\n"` of length 4 | every part at most `max_chars` long, the parts concatenating back to the line | not executed | Render.SplitLongLineAsWritten, Render.SplitLongLineOverflows, Render.SplitBlockOverflows | Render.SplitLongLineIntended, Render.SplitBlockIntendedSound |
| codex_telegram_bridge/src/codex_telegram_bridge/exec_render.py:196-202 | a completion looks for the running line by the prefix `f"[{item_id}] ▸ "`, which reads `[None] ▸ ` when the id has no number, while `attach_id` wrote that line as `[?] ▸ ...` | an item whose id is `"abc"` (no digits) and no earlier turn: its completed line is appended beside its running line instead of replacing it | the prefix written with `attach_id`'s `?` for a missing id, so the completion replaces the running line | not executed | ExecRender.RunningPrefixAsWritten, ExecRender.RunningLineMissedAsWritten, ExecRender.IdlessRunningLineKept | ExecRender.KeptIntended, ExecRender.CompletionReplacesRunning |
