/** Settings resolution for the Discord transport: a thread's own setting
    wins over its channel's, which wins over the configured default. The
    state store's answers are read from maps keyed by guild and by channel
    or thread id. */
module DiscordOverrides {
  import opened Wrappers
  import EngineDefaults
  import EngineOverrides
  import TriggerMode

  const REASONING_LEVELS: set<string> := {"minimal", "low", "medium", "high", "xhigh"}
  const REASONING_ENGINES: set<string> := {"codex"}

  /** What the state store holds: model and reasoning overrides per guild,
      channel or thread and engine; trigger modes and default engines per
      guild and channel or thread. */
  datatype Store = Store(
    models: map<(int, int, string), string>,
    reasonings: map<(int, int, string), string>,
    triggerModes: map<(int, int), string>,
    defaultEngines: map<(int, int), string>)

  datatype Scope = ThreadScope | ChannelScope | ConfigScope

  /** The labels the source reports: `"thread"`, `"channel"`, `"config"`. */
  function Label(scope: Scope): string {
    match scope
    case ThreadScope => "thread"
    case ChannelScope => "channel"
    case ConfigScope => "config"
  }

  datatype ResolvedOverrides = ResolvedOverrides(
    model: Option<string>,
    reasoning: Option<string>,
    sourceModel: Option<string>,
    sourceReasoning: Option<string>)

  function Lookup<K(==), V>(m: map<K, V>, k: K): Option<V> {
    if k in m then Some(m[k]) else None
  }

  /** The value a per-engine table holds for a thread, read only when there is a thread. */
  function ThreadValue(table: map<(int, int, string), string>, guild: int, thread: Option<int>, engine: string): Option<string> {
    if thread.Some? then Lookup(table, (guild, thread.value, engine)) else None
  }

  /** One field of `resolve_overrides`: the thread's value, else the
      channel's, with the label of where it came from. */
  function Cascade(threadValue: Option<string>, channelValue: Option<string>): (r: (Option<string>, Option<string>))
    ensures r.1.None? <==> r.0.None?
    ensures r.1 == Some("thread") <==> threadValue.Some?
    ensures r.1 == Some("channel") <==> threadValue.None? && channelValue.Some?
    ensures r.0 == (if threadValue.Some? then threadValue else channelValue)
  {
    if threadValue.Some? then (threadValue, Some(Label(ThreadScope)))
    else if channelValue.Some? then (channelValue, Some(Label(ChannelScope)))
    else (None, None)
  }

  /** Where one field of the overrides comes from and what it is: the
      thread when it sets the field, else the channel when it does, else
      nowhere and unset. */
  predicate FieldResolved(table: map<(int, int, string), string>, guild: int, channel: int, thread: Option<int>,
                          engine: string, value: Option<string>, source: Option<string>)
  {
    var inThread := thread.Some? && (guild, thread.value, engine) in table;
    var inChannel := (guild, channel, engine) in table;
    && (source == Some("thread") <==> inThread)
    && (source == Some("channel") <==> !inThread && inChannel)
    && (source.None? <==> !inThread && !inChannel)
    && (inThread ==> value == Some(table[(guild, thread.value, engine)]))
    && (!inThread && inChannel ==> value == Some(table[(guild, channel, engine)]))
    && (!inThread && !inChannel ==> value.None?)
  }

  /** `resolve_overrides`: the model and the reasoning level are resolved
      independently, each from the thread (when there is one) and then the
      channel, with its source. */
  function ResolveOverrides(store: Store, guild: int, channel: int, thread: Option<int>, engine: string): (r: ResolvedOverrides)
    ensures FieldResolved(store.models, guild, channel, thread, engine, r.model, r.sourceModel)
    ensures FieldResolved(store.reasonings, guild, channel, thread, engine, r.reasoning, r.sourceReasoning)
  {
    var model := Cascade(ThreadValue(store.models, guild, thread, engine), Lookup(store.models, (guild, channel, engine)));
    var reasoning := Cascade(ThreadValue(store.reasonings, guild, thread, engine), Lookup(store.reasonings, (guild, channel, engine)));
    ResolvedOverrides(model.0, reasoning.0, model.1, reasoning.1)
  }

  /** Each field is the first present of the thread's and the channel's
      values, labelled by its position. */
  lemma {:induction false} OverridesAreFirstPresent(store: Store, guild: int, channel: int, thread: Option<int>, engine: string)
    ensures var r := ResolveOverrides(store, guild, channel, thread, engine);
      var first := EngineDefaults.FirstPresent([ThreadValue(store.models, guild, thread, engine),
                                                Lookup(store.models, (guild, channel, engine))]);
      (first.None? ==> r.model.None? && r.sourceModel.None?)
      && (first.Some? ==> r.model == Some(first.value.1)
                          && r.sourceModel == Some(Label(if first.value.0 == 0 then ThreadScope else ChannelScope)))
  {
    var cs := [ThreadValue(store.models, guild, thread, engine), Lookup(store.models, (guild, channel, engine))];
    assert cs[1..] == [cs[1]];
    assert cs[1..][1..] == [];
  }

  /** A thread's model shadows its channel's: changing the channel's
      model does not change what a thread that sets one resolves to. */
  lemma {:induction false} ThreadShadowsChannel(store: Store, guild: int, channel: int, thread: int, engine: string, v: string)
    requires (guild, thread, engine) in store.models && channel != thread
    ensures var store2 := store.(models := store.models[(guild, channel, engine) := v]);
      ResolveOverrides(store2, guild, channel, Some(thread), engine).model
        == ResolveOverrides(store, guild, channel, Some(thread), engine).model
        == Some(store.models[(guild, thread, engine)])
  {
    assert (guild, thread, engine) != (guild, channel, engine);
  }

  /** `resolve_trigger_mode`: the thread's mode, else the channel's, else `"all"`. */
  function ResolveTriggerMode(store: Store, guild: int, channel: int, thread: Option<int>): (r: string)
    ensures thread.Some? && (guild, thread.value) in store.triggerModes ==> r == store.triggerModes[(guild, thread.value)]
    ensures (thread.None? || (guild, thread.value) !in store.triggerModes) && (guild, channel) in store.triggerModes
            ==> r == store.triggerModes[(guild, channel)]
    ensures (thread.None? || (guild, thread.value) !in store.triggerModes) && (guild, channel) !in store.triggerModes
            ==> r == "all"
  {
    if thread.Some? && (guild, thread.value) in store.triggerModes then store.triggerModes[(guild, thread.value)]
    else if (guild, channel) in store.triggerModes then store.triggerModes[(guild, channel)]
    else "all"
  }

  /** Outside a thread, or in a thread that sets no mode, Discord resolves
      to `mentions` exactly when Telegram's resolution (with the channel as
      the chat) does. */
  lemma TriggerModeAgreesWithTelegram(store: Store, guild: int, channel: int, thread: Option<int>)
    requires thread.None? || (guild, thread.value) !in store.triggerModes
    ensures ResolveTriggerMode(store, guild, channel, thread) == "mentions"
       <==> TriggerMode.ResolveTriggerMode(thread, true, None, true, Lookup(store.triggerModes, (guild, channel)))
            == TriggerMode.Mentions
  {
  }

  /** But a thread set to `all` in a channel set to `mentions` triggers on
      every message in Discord, where Telegram's topic-or-chat rule gives
      `mentions`. */
  lemma ThreadAllShadowsChannelMentions(guild: int, channel: int, thread: int)
    requires channel != thread
    ensures var store := Store(map[], map[], map[(guild, thread) := "all", (guild, channel) := "mentions"], map[]);
      && ResolveTriggerMode(store, guild, channel, Some(thread)) == "all"
      && TriggerMode.ResolveTriggerMode(Some(thread), true, Some("all"), true, Some("mentions")) == TriggerMode.Mentions
  {
    var store := Store(map[], map[], map[(guild, thread) := "all", (guild, channel) := "mentions"], map[]);
    assert (guild, thread) in store.triggerModes && store.triggerModes[(guild, thread)] == "all";
  }

  /** `resolve_default_engine`: the thread's default engine, the channel's,
      then the configured one, each with its label; nothing when none is set. */
  function ResolveDefaultEngine(store: Store, guild: int, channel: int, thread: Option<int>, configDefault: Option<string>)
    : (r: (Option<string>, Option<string>))
    ensures r.0.None? <==> r.1.None?
    ensures r.1 == Some("config") ==> r.0 == configDefault
  {
    var threadEngine := if thread.Some? then Lookup(store.defaultEngines, (guild, thread.value)) else None;
    if threadEngine.Some? then (threadEngine, Some(Label(ThreadScope)))
    else if (guild, channel) in store.defaultEngines then (Some(store.defaultEngines[(guild, channel)]), Some(Label(ChannelScope)))
    else if configDefault.Some? then (configDefault, Some(Label(ConfigScope)))
    else (None, None)
  }

  /** The default engine is the first present of the thread's, the
      channel's and the configured one, labelled by its position; it is
      missing exactly when all three are. */
  lemma {:induction false} DefaultEngineIsFirstPresent(store: Store, guild: int, channel: int, thread: Option<int>,
                                                        configDefault: Option<string>)
    ensures var r := ResolveDefaultEngine(store, guild, channel, thread, configDefault);
      var first := EngineDefaults.FirstPresent([
        if thread.Some? then Lookup(store.defaultEngines, (guild, thread.value)) else None,
        Lookup(store.defaultEngines, (guild, channel)),
        configDefault]);
      (first.None? <==> r == (None, None))
      && (first.Some? ==> r.0 == Some(first.value.1)
                          && r.1 == Some(Label(if first.value.0 == 0 then ThreadScope
                                               else if first.value.0 == 1 then ChannelScope else ConfigScope)))
  {
    var cs := [if thread.Some? then Lookup(store.defaultEngines, (guild, thread.value)) else None,
               Lookup(store.defaultEngines, (guild, channel)), configDefault];
    assert cs[1..] == [cs[1], cs[2]];
    assert cs[1..][1..] == [cs[2]];
    assert cs[1..][1..][1..] == [];
  }

  /** `supports_reasoning`. */
  predicate SupportsReasoning(engine: string) {
    engine in REASONING_ENGINES
  }

  /** `is_valid_reasoning_level`. */
  predicate IsValidReasoningLevel(level: string) {
    level in REASONING_LEVELS
  }

  /** The Discord and Telegram transports accept the same engines and the
      same five levels. */
  lemma ReasoningAgreesWithTelegram(engine: string, level: string)
    ensures SupportsReasoning(engine) <==> EngineOverrides.SupportsReasoning(engine)
    ensures IsValidReasoningLevel(level) <==> level in EngineOverrides.AllowedReasoningLevels(engine)
    ensures |REASONING_LEVELS| == 5
  {
    assert REASONING_LEVELS == set l | l in EngineOverrides.REASONING_LEVELS;
  }
}
