/** Per-topic state of the Telegram bridge: for each forum thread, its
    bound context, the resume token of each engine's session, its title,
    default engine, trigger mode and engine overrides. */
module TopicState {
  import opened Wrappers
  import Text
  import Model
  import EO = EngineOverrides
  import ChatPrefs

  /** `_ContextState`: the stored project and branch. */
  datatype ContextState = ContextState(project: Option<string>, branch: Option<string>)

  /** `_ThreadState`; each session is stored as its resume value. */
  datatype ThreadState = ThreadState(
    context: Option<ContextState>,
    sessions: map<Model.EngineId, string>,
    topicTitle: Option<string>,
    defaultEngine: Option<string>,
    triggerMode: Option<string>,
    engineOverrides: map<string, EO.Overrides>)

  const EMPTY_THREAD := ThreadState(None, map[], None, None, None, map[])

  /** `TopicThreadSnapshot`. */
  datatype Snapshot = Snapshot(
    chatId: int,
    threadId: int,
    context: Option<Model.RunContext>,
    sessions: map<Model.EngineId, string>,
    topicTitle: Option<string>,
    defaultEngine: Option<string>)

  /** `_thread_key`: `chat:thread`. */
  function ThreadKey(chatId: int, threadId: int): string {
    Text.IntToString(chatId) + ":" + Text.IntToString(threadId)
  }

  /** The prefix every key of one chat starts with. */
  function ChatPrefix(chatId: int): string {
    Text.IntToString(chatId) + ":"
  }

  /** The part after the first `:` (`raw_key.split(":", 1)`), when there is one. */
  function ThreadPart(key: string): (r: Option<string>)
    ensures r.Some? ==> exists i :: 0 <= i < |key| && key[i] == ':' && ':' !in key[..i] && r.value == key[i + 1..]
    ensures r.None? <==> ':' !in key
  {
    match Text.IndexOf(key, ':')
    case None => None
    case Some(i) => Some(key[i + 1..])
  }

  /** `int(thread_str)` on the part after the colon. */
  function ThreadIdOf(key: string): Option<int> {
    match ThreadPart(key)
    case None => None
    case Some(part) => Text.ParseInt(Text.Strip(part))
  }

  /** A thread key starts with its chat's prefix and reads back its thread id. */
  lemma ThreadKeyParts(chatId: int, threadId: int)
    ensures Text.StartsWith(ThreadKey(chatId, threadId), ChatPrefix(chatId))
    ensures ThreadPart(ThreadKey(chatId, threadId)) == Some(Text.IntToString(threadId))
    ensures ThreadIdOf(ThreadKey(chatId, threadId)) == Some(threadId)
  {
    var c := Text.IntToString(chatId);
    var t := Text.IntToString(threadId);
    var key := ThreadKey(chatId, threadId);
    Text.IntToStringSigned(chatId);
    Text.IntToStringSigned(threadId);
    assert key[..|c| + 1] == ChatPrefix(chatId);
    assert ':' !in key[..|c|] by {
      assert key[..|c|] == c;
    }
    assert Text.IndexOf(key, ':') == Some(|c|);
    assert key[|c| + 1..] == t;
    assert !Text.IsSpace(t[0]) && !Text.IsSpace(t[|t| - 1]);
    Text.StripTight(t);
    Text.ParseIntRoundTrip(threadId);
  }

  /** `_context_from_state`: a stored context with neither project nor
      branch reads as no context. */
  function ContextFromState(state: Option<ContextState>): (r: Option<Model.RunContext>)
    ensures r.None? <==> state.None? || (ChatPrefs.NormalizeText(state.value.project).None?
                                          && ChatPrefs.NormalizeText(state.value.branch).None?)
    ensures r.Some? ==> r.value == Model.RunContext(ChatPrefs.NormalizeText(state.value.project),
                                                    ChatPrefs.NormalizeText(state.value.branch))
  {
    if state.None? then None
    else
      var project := ChatPrefs.NormalizeText(state.value.project);
      var branch := ChatPrefs.NormalizeText(state.value.branch);
      if project.None? && branch.None? then None
      else Some(Model.RunContext(project, branch))
  }

  /** `_context_to_state`: a context with neither project nor branch is
      stored as no context. */
  function ContextToState(context: Option<Model.RunContext>): (r: Option<ContextState>)
    ensures r.None? <==> context.None? || (ChatPrefs.NormalizeText(context.value.project).None?
                                            && ChatPrefs.NormalizeText(context.value.branch).None?)
    ensures r.Some? ==> r.value == ContextState(ChatPrefs.NormalizeText(context.value.project),
                                                ChatPrefs.NormalizeText(context.value.branch))
  {
    if context.None? then None
    else
      var project := ChatPrefs.NormalizeText(context.value.project);
      var branch := ChatPrefs.NormalizeText(context.value.branch);
      if project.None? && branch.None? then None
      else Some(ContextState(project, branch))
  }

  /** The context as normalised: blank fields unset, and nothing set means none. */
  function NormalizedContext(context: Model.RunContext): Option<Model.RunContext> {
    var project := ChatPrefs.NormalizeText(context.project);
    var branch := ChatPrefs.NormalizeText(context.branch);
    if project.None? && branch.None? then None else Some(Model.RunContext(project, branch))
  }

  /** Storing a context and reading it back gives the normalised context. */
  lemma ContextRoundTrip(context: Model.RunContext)
    ensures ContextFromState(ContextToState(Some(context))) == NormalizedContext(context)
  {
    var project := ChatPrefs.NormalizeText(context.project);
    var branch := ChatPrefs.NormalizeText(context.branch);
    if project.Some? || branch.Some? {
      assert ContextToState(Some(context)) == Some(ContextState(project, branch));
      StoredReadsBack(context.project, context.branch);
    }
  }

  /** Normalised fields read back unchanged. */
  lemma StoredReadsBack(project: Option<string>, branch: Option<string>)
    requires ChatPrefs.NormalizeText(project).Some? || ChatPrefs.NormalizeText(branch).Some?
    ensures ContextFromState(Some(ContextState(ChatPrefs.NormalizeText(project), ChatPrefs.NormalizeText(branch))))
         == Some(Model.RunContext(ChatPrefs.NormalizeText(project), ChatPrefs.NormalizeText(branch)))
  {
    EO.NormalizeValueIdempotent(project);
    EO.NormalizeValueIdempotent(branch);
  }

  /** Storing a context that was read back changes nothing a reader sees. */
  lemma ContextStateStable(state: Option<ContextState>)
    ensures ContextFromState(ContextToState(ContextFromState(state))) == ContextFromState(state)
  {
    if ContextFromState(state).Some? {
      var c := ContextFromState(state).value;
      EO.NormalizeValueIdempotent(state.value.project);
      EO.NormalizeValueIdempotent(state.value.branch);
      assert NormalizedContext(c) == Some(c);
      ContextRoundTrip(c);
    }
  }

  /** The session resumes a snapshot reports: the non-empty ones. */
  function LiveSessions(sessions: map<Model.EngineId, string>): (r: map<Model.EngineId, string>)
    ensures forall e :: e in r <==> e in sessions && sessions[e] != []
    ensures forall e :: e in r ==> r[e] == sessions[e]
  {
    map e | e in sessions && sessions[e] != [] :: sessions[e]
  }

  /** The keys in `order` other than `key`, in order. */
  function Without(order: seq<string>, key: string): (r: seq<string>)
    ensures forall k :: k in r <==> k in order && k != key
    ensures |r| <= |order|
  {
    if order == [] then []
    else if order[0] == key then Without(order[1..], key)
    else [order[0]] + Without(order[1..], key)
  }

  /** No key is listed twice. */
  predicate Distinct(order: seq<string>) {
    forall i, j :: 0 <= i < j < |order| ==> order[i] != order[j]
  }

  lemma {:induction false} WithoutDistinct(order: seq<string>, key: string)
    requires Distinct(order)
    ensures Distinct(Without(order, key))
  {
    if order != [] {
      WithoutDistinct(order[1..], key);
      assert order[0] !in order[1..];
    }
  }

  /** The thread's entry, or a fresh empty one (`_ensure_thread_locked`). */
  function EntryOf(threads: map<string, ThreadState>, key: string): ThreadState {
    if key in threads then threads[key] else EMPTY_THREAD
  }

  /** The insertion order after `_ensure_thread_locked`: a new key goes last. */
  function Ensured(order: seq<string>, threads: map<string, ThreadState>, key: string): seq<string> {
    if key in threads then order else order + [key]
  }

  /** The thread `find_thread_for_context` accepts: one of the chat's keys,
      whose stored context equals the normalised target, with a thread id
      that parses. */
  predicate Matches(key: string, thread: ThreadState, chatId: int, project: Option<string>, branch: Option<string>) {
    Text.StartsWith(key, ChatPrefix(chatId))
    && ContextFromState(thread.context).Some?
    && ContextFromState(thread.context).value == Model.RunContext(project, branch)
    && ThreadIdOf(key).Some?
  }

  /** The `i`-th key in table order names a matching thread. */
  predicate MatchesAt(order: seq<string>, threads: map<string, ThreadState>, i: int, chatId: int, context: Model.RunContext) {
    0 <= i < |order| && order[i] in threads
    && Matches(order[i], threads[order[i]], chatId, ChatPrefs.NormalizeText(context.project), ChatPrefs.NormalizeText(context.branch))
  }

  /** None of the first `n` keys names a matching thread. */
  predicate NoMatchBefore(order: seq<string>, threads: map<string, ThreadState>, n: nat, chatId: int, context: Model.RunContext)
    decreases n
  {
    n == 0 || (NoMatchBefore(order, threads, n - 1, chatId, context) && !MatchesAt(order, threads, n - 1, chatId, context))
  }

  /** The `i`-th key is the first one that names a matching thread. */
  predicate FirstMatch(order: seq<string>, threads: map<string, ThreadState>, i: nat, chatId: int, context: Model.RunContext) {
    MatchesAt(order, threads, i, chatId, context) && NoMatchBefore(order, threads, i, chatId, context)
  }

  /** `TopicStateStore`, held in memory: the `threads` table of its state,
      with the order its keys were inserted in, which is the order the
      table is walked in. */
  class TopicStateStore {
    var threads: map<string, ThreadState>
    var order: seq<string>

    ghost predicate Valid()
      reads this
    {
      (forall key :: key in threads <==> key in order) && Distinct(order)
    }

    constructor()
      ensures Valid() && threads == map[] && order == []
    {
      threads := map[];
      order := [];
    }

    /** `_get_thread_locked`. */
    function GetThreadState(chatId: int, threadId: int): (r: Option<ThreadState>)
      reads this
      ensures r.Some? <==> ThreadKey(chatId, threadId) in threads
      ensures r.Some? ==> r.value == threads[ThreadKey(chatId, threadId)]
    {
      var key := ThreadKey(chatId, threadId);
      if key in threads then Some(threads[key]) else None
    }

    /** `get_thread`: the snapshot, with empty resumes left out. */
    function GetThread(chatId: int, threadId: int): (r: Option<Snapshot>)
      reads this
      ensures r.Some? <==> ThreadKey(chatId, threadId) in threads
      ensures r.Some? ==> r.value.chatId == chatId && r.value.threadId == threadId
      ensures r.Some? ==> forall e :: e in r.value.sessions ==> r.value.sessions[e] != []
      ensures r.Some? ==> r.value.context == GetContext(chatId, threadId)
      ensures r.Some? ==> r.value.sessions == LiveSessions(threads[ThreadKey(chatId, threadId)].sessions)
      ensures r.Some? ==> forall e :: e in r.value.sessions <==> GetSessionResume(chatId, threadId, e).Some?
      ensures r.Some? ==> r.value.topicTitle == threads[ThreadKey(chatId, threadId)].topicTitle
      ensures r.Some? ==> r.value.defaultEngine == GetDefaultEngine(chatId, threadId)
    {
      match GetThreadState(chatId, threadId)
      case None => None
      case Some(thread) =>
        Some(Snapshot(chatId, threadId, ContextFromState(thread.context), LiveSessions(thread.sessions),
                      thread.topicTitle, ChatPrefs.NormalizeText(thread.defaultEngine)))
    }

    /** `get_context`. */
    function GetContext(chatId: int, threadId: int): (r: Option<Model.RunContext>)
      reads this
      ensures r == ContextFromState(EntryOf(threads, ThreadKey(chatId, threadId)).context)
    {
      match GetThreadState(chatId, threadId)
      case None => None
      case Some(thread) => ContextFromState(thread.context)
    }

    /** `get_session_resume`: an empty resume counts as none. */
    function GetSessionResume(chatId: int, threadId: int, engine: Model.EngineId): (r: Option<Model.ResumeToken>)
      reads this
      ensures r.Some? <==> engine in EntryOf(threads, ThreadKey(chatId, threadId)).sessions
                           && EntryOf(threads, ThreadKey(chatId, threadId)).sessions[engine] != []
      ensures r.Some? ==> r.value.engine == engine
                          && r.value.value == EntryOf(threads, ThreadKey(chatId, threadId)).sessions[engine]
    {
      match GetThreadState(chatId, threadId)
      case None => None
      case Some(thread) =>
        if engine !in thread.sessions || thread.sessions[engine] == [] then None
        else Some(Model.ResumeToken(engine, thread.sessions[engine]))
    }

    /** `get_default_engine`. */
    function GetDefaultEngine(chatId: int, threadId: int): (r: Option<string>)
      reads this
      ensures r == ChatPrefs.NormalizeText(EntryOf(threads, ThreadKey(chatId, threadId)).defaultEngine)
    {
      match GetThreadState(chatId, threadId)
      case None => None
      case Some(thread) => ChatPrefs.NormalizeText(thread.defaultEngine)
    }

    /** `get_trigger_mode`. */
    function GetTriggerMode(chatId: int, threadId: int): (r: Option<string>)
      reads this
      ensures r == ChatPrefs.NormalizeTriggerMode(EntryOf(threads, ThreadKey(chatId, threadId)).triggerMode)
    {
      match GetThreadState(chatId, threadId)
      case None => None
      case Some(thread) => ChatPrefs.NormalizeTriggerMode(thread.triggerMode)
    }

    /** `get_engine_override`: looked up under the normalised engine id. */
    function GetEngineOverride(chatId: int, threadId: int, engine: string): (r: Option<EO.Overrides>)
      reads this
      ensures ChatPrefs.NormalizeEngineId(Some(engine)).None? ==> r.None?
      ensures ChatPrefs.NormalizeEngineId(Some(engine)).Some? ==>
                r == ChatPrefs.OverrideView(EntryOf(threads, ThreadKey(chatId, threadId)).engineOverrides,
                                            ChatPrefs.NormalizeEngineId(Some(engine)).value)
    {
      var engineKey := ChatPrefs.NormalizeEngineId(Some(engine));
      if engineKey.None? then None
      else
        match GetThreadState(chatId, threadId)
        case None => None
        case Some(thread) => ChatPrefs.OverrideView(thread.engineOverrides, engineKey.value)
    }

    /** `_ensure_thread_locked` followed by writing the entry back. */
    method PutThread(key: string, thread: ThreadState)
      requires Valid()
      modifies this
      ensures Valid()
      ensures threads == old(threads)[key := thread]
      ensures order == Ensured(old(order), old(threads), key)
    {
      if key !in threads {
        assert key !in order;
        order := order + [key];
      }
      threads := threads[key := thread];
    }

    /** `set_context`: the context is stored normalised, and the title
        only when one is given. */
    method SetContext(chatId: int, threadId: int, context: Model.RunContext, topicTitle: Option<string>)
      requires Valid()
      modifies this
      ensures Valid()
      ensures var key := ThreadKey(chatId, threadId);
              var thread := EntryOf(old(threads), key);
              threads == old(threads)[key := thread.(context := ContextToState(Some(context)),
                                                     topicTitle := if topicTitle.Some? then topicTitle else thread.topicTitle)]
      ensures order == Ensured(old(order), old(threads), ThreadKey(chatId, threadId))
      ensures GetContext(chatId, threadId) == NormalizedContext(context)
    {
      var key := ThreadKey(chatId, threadId);
      var thread := EntryOf(threads, key);
      thread := thread.(context := ContextToState(Some(context)));
      if topicTitle.Some? {
        thread := thread.(topicTitle := topicTitle);
      }
      ContextRoundTrip(context);
      PutThread(key, thread);
    }

    /** `clear_context`: a missing thread is left missing. */
    method ClearContext(chatId: int, threadId: int)
      requires Valid()
      modifies this
      ensures Valid()
      ensures var key := ThreadKey(chatId, threadId);
              threads == if key in old(threads) then old(threads)[key := old(threads)[key].(context := None)] else old(threads)
      ensures order == old(order)
      ensures GetContext(chatId, threadId).None?
    {
      var key := ThreadKey(chatId, threadId);
      if key !in threads {
        return;
      }
      PutThread(key, threads[key].(context := None));
    }

    /** `set_default_engine`; `clear_default_engine` is the call with `None`. */
    method SetDefaultEngine(chatId: int, threadId: int, engine: Option<string>)
      requires Valid()
      modifies this
      ensures Valid()
      ensures var key := ThreadKey(chatId, threadId);
              threads == old(threads)[key := EntryOf(old(threads), key).(defaultEngine := ChatPrefs.NormalizeText(engine))]
      ensures order == Ensured(old(order), old(threads), ThreadKey(chatId, threadId))
      ensures GetDefaultEngine(chatId, threadId) == ChatPrefs.NormalizeText(engine)
    {
      var key := ThreadKey(chatId, threadId);
      EO.NormalizeValueIdempotent(engine);
      PutThread(key, EntryOf(threads, key).(defaultEngine := ChatPrefs.NormalizeText(engine)));
    }

    /** `set_trigger_mode`; `clear_trigger_mode` is the call with `None`. */
    method SetTriggerMode(chatId: int, threadId: int, mode: Option<string>)
      requires Valid()
      modifies this
      ensures Valid()
      ensures var key := ThreadKey(chatId, threadId);
              threads == old(threads)[key := EntryOf(old(threads), key).(triggerMode := ChatPrefs.NormalizeTriggerMode(mode))]
      ensures order == Ensured(old(order), old(threads), ThreadKey(chatId, threadId))
      ensures GetTriggerMode(chatId, threadId) == ChatPrefs.NormalizeTriggerMode(mode)
    {
      var key := ThreadKey(chatId, threadId);
      ChatPrefs.NormalizeTriggerModeIdempotent(mode);
      PutThread(key, EntryOf(threads, key).(triggerMode := ChatPrefs.NormalizeTriggerMode(mode)));
    }

    /** `set_engine_override`; `clear_engine_override` is the call with
        `None`. A blank engine id changes nothing. */
    method SetEngineOverride(chatId: int, threadId: int, engine: string, override: Option<EO.Overrides>)
      requires Valid()
      modifies this
      ensures Valid()
      ensures ChatPrefs.NormalizeEngineId(Some(engine)).None? ==> threads == old(threads) && order == old(order)
      ensures ChatPrefs.NormalizeEngineId(Some(engine)).Some? ==>
                var key := ThreadKey(chatId, threadId);
                var thread := EntryOf(old(threads), key);
                threads == old(threads)[key := thread.(engineOverrides := ChatPrefs.WithOverride(
                  thread.engineOverrides, ChatPrefs.NormalizeEngineId(Some(engine)).value, override))]
                && order == Ensured(old(order), old(threads), key)
      ensures ChatPrefs.NormalizeEngineId(Some(engine)).Some? ==>
                GetEngineOverride(chatId, threadId, engine) == EO.NormalizeOverrides(override)
    {
      var engineKey := ChatPrefs.NormalizeEngineId(Some(engine));
      if engineKey.None? {
        return;
      }
      var key := ThreadKey(chatId, threadId);
      var thread := EntryOf(threads, key);
      var normalized := EO.NormalizeOverrides(override);
      EO.NormalizeOverridesIdempotent(override);
      if normalized.None? {
        thread := thread.(engineOverrides := thread.engineOverrides - {engineKey.value});
      } else {
        thread := thread.(engineOverrides := thread.engineOverrides[engineKey.value := normalized.value]);
      }
      assert ChatPrefs.OverrideView(thread.engineOverrides, engineKey.value) == normalized;
      PutThread(key, thread);
    }

    /** `set_session_resume`: the engine's resume is overwritten. */
    method SetSessionResume(chatId: int, threadId: int, token: Model.ResumeToken)
      requires Valid()
      modifies this
      ensures Valid()
      ensures var key := ThreadKey(chatId, threadId);
              var thread := EntryOf(old(threads), key);
              threads == old(threads)[key := thread.(sessions := thread.sessions[token.engine := token.value])]
      ensures order == Ensured(old(order), old(threads), ThreadKey(chatId, threadId))
      ensures token.value != [] ==> GetSessionResume(chatId, threadId, token.engine) == Some(token)
      ensures forall e :: e != token.engine ==> GetSessionResume(chatId, threadId, e) == old(GetSessionResume(chatId, threadId, e))
    {
      var key := ThreadKey(chatId, threadId);
      var thread := EntryOf(threads, key);
      PutThread(key, thread.(sessions := thread.sessions[token.engine := token.value]));
    }

    /** `clear_sessions`: only this thread's sessions are dropped. */
    method ClearSessions(chatId: int, threadId: int)
      requires Valid()
      modifies this
      ensures Valid()
      ensures var key := ThreadKey(chatId, threadId);
              threads == if key in old(threads) then old(threads)[key := old(threads)[key].(sessions := map[])] else old(threads)
      ensures order == old(order)
      ensures forall e :: GetSessionResume(chatId, threadId, e).None?
    {
      var key := ThreadKey(chatId, threadId);
      if key !in threads {
        return;
      }
      PutThread(key, threads[key].(sessions := map[]));
    }

    /** `delete_thread`: a missing thread is a no-op. */
    method DeleteThread(chatId: int, threadId: int)
      requires Valid()
      modifies this
      ensures Valid()
      ensures threads == old(threads) - {ThreadKey(chatId, threadId)}
      ensures order == if ThreadKey(chatId, threadId) in old(threads) then Without(old(order), ThreadKey(chatId, threadId))
                       else old(order)
      ensures GetThread(chatId, threadId).None?
    {
      var key := ThreadKey(chatId, threadId);
      if key !in threads {
        return;
      }
      WithoutDistinct(order, key);
      threads := threads - {key};
      order := Without(order, key);
    }

    /** `find_thread_for_context`: the first thread, in table order, of
        the chat whose stored context equals the normalised target. */
    method FindThreadForContext(chatId: int, context: Model.RunContext) returns (r: Option<int>)
      requires Valid()
      ensures r.Some? ==> exists i: nat :: FirstMatch(order, threads, i, chatId, context) && ThreadIdOf(order[i]) == r
      ensures r.None? ==> NoMatchBefore(order, threads, |order|, chatId, context)
    {
      var targetProject := ChatPrefs.NormalizeText(context.project);
      var targetBranch := ChatPrefs.NormalizeText(context.branch);
      var prefix := ChatPrefix(chatId);
      for i := 0 to |order|
        invariant NoMatchBefore(order, threads, i, chatId, context)
      {
        var rawKey := order[i];
        assert rawKey in order;
        var thread := threads[rawKey];
        if !Text.StartsWith(rawKey, prefix) {
          assert !MatchesAt(order, threads, i, chatId, context);
          continue;
        }
        var parsed := ContextFromState(thread.context);
        if parsed.None? {
          assert !MatchesAt(order, threads, i, chatId, context);
          continue;
        }
        if parsed.value.project != targetProject || parsed.value.branch != targetBranch {
          assert !MatchesAt(order, threads, i, chatId, context);
          continue;
        }
        var threadId := ThreadIdOf(rawKey);
        if threadId.None? {
          assert !MatchesAt(order, threads, i, chatId, context);
          continue;
        }
        assert FirstMatch(order, threads, i, chatId, context);
        return threadId;
      }
      return None;
    }
  }

  /** A thread stored under its own key with the target context is found
      unless an earlier thread of the chat matches first. */
  lemma StoredThreadMatches(chatId: int, threadId: int, thread: ThreadState, context: Model.RunContext)
    requires NormalizedContext(context).Some?
    requires ContextFromState(thread.context) == NormalizedContext(context)
    ensures Matches(ThreadKey(chatId, threadId), thread, chatId, ChatPrefs.NormalizeText(context.project),
                    ChatPrefs.NormalizeText(context.branch))
  {
    ThreadKeyParts(chatId, threadId);
  }
}
