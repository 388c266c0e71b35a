/** Choosing the engine for an incoming message: an explicit directive,
    then the topic's default, the chat's default, the project's default and
    finally the global default. */
module EngineDefaults {
  import opened Wrappers
  import opened Model

  datatype EngineSource = Directive | TopicDefault | ChatDefault | ProjectDefault | GlobalDefault

  datatype EngineResolution = EngineResolution(
    engine: EngineId,
    source: EngineSource,
    topicDefault: Option<EngineId>,
    chatDefault: Option<EngineId>,
    projectDefault: Option<EngineId>)

  /** The default engines a topic store and a chat-preference store hold;
      the stores themselves are optional. */
  datatype Stores = Stores(
    topicStore: Option<map<(int, int), EngineId>>,
    chatPrefs: Option<map<int, EngineId>>)

  /** The topic default is read only when both the store and the topic key are present. */
  function TopicDefaultOf(stores: Stores, topicKey: Option<(int, int)>): (r: Option<EngineId>)
    ensures r.Some? ==> stores.topicStore.Some? && topicKey.Some? && topicKey.value in stores.topicStore.value
    ensures r.Some? ==> r.value == stores.topicStore.value[topicKey.value]
  {
    if stores.topicStore.Some? && topicKey.Some? && topicKey.value in stores.topicStore.value then
      Some(stores.topicStore.value[topicKey.value])
    else None
  }

  function ChatDefaultOf(stores: Stores, chatId: int): (r: Option<EngineId>)
    ensures r.Some? ==> stores.chatPrefs.Some? && chatId in stores.chatPrefs.value
  {
    if stores.chatPrefs.Some? && chatId in stores.chatPrefs.value then Some(stores.chatPrefs.value[chatId]) else None
  }

  /** `resolve_engine_for_message`; the project default and the global
      default come from the runtime and are given as values. */
  function ResolveEngineForMessage(
    explicitEngine: Option<EngineId>, chatId: int, topicKey: Option<(int, int)>, stores: Stores,
    projectDefault: Option<EngineId>, globalDefault: EngineId): (r: EngineResolution)
    ensures r.topicDefault == TopicDefaultOf(stores, topicKey)
    ensures r.chatDefault == ChatDefaultOf(stores, chatId)
    ensures r.projectDefault == projectDefault
    ensures explicitEngine.Some? <==> r.source == Directive
    ensures explicitEngine.Some? ==> r.engine == explicitEngine.value
  {
    var topicDefault := TopicDefaultOf(stores, topicKey);
    var chatDefault := ChatDefaultOf(stores, chatId);
    if explicitEngine.Some? then
      EngineResolution(explicitEngine.value, Directive, topicDefault, chatDefault, projectDefault)
    else if topicDefault.Some? then
      EngineResolution(topicDefault.value, TopicDefault, topicDefault, chatDefault, projectDefault)
    else if chatDefault.Some? then
      EngineResolution(chatDefault.value, ChatDefault, topicDefault, chatDefault, projectDefault)
    else if projectDefault.Some? then
      EngineResolution(projectDefault.value, ProjectDefault, topicDefault, chatDefault, projectDefault)
    else
      EngineResolution(globalDefault, GlobalDefault, topicDefault, chatDefault, projectDefault)
  }

  /** The first present value of a list of candidates, in order. */
  function FirstPresent<T>(candidates: seq<Option<T>>): (r: Option<(nat, T)>)
    ensures r.None? <==> forall i :: 0 <= i < |candidates| ==> candidates[i].None?
    ensures r.Some? ==> r.value.0 < |candidates| && candidates[r.value.0] == Some(r.value.1)
    ensures r.Some? ==> forall i :: 0 <= i < r.value.0 ==> candidates[i].None?
  {
    if candidates == [] then None
    else if candidates[0].Some? then Some((0, candidates[0].value))
    else
      var r := FirstPresent(candidates[1..]);
      assert forall i :: 1 <= i < |candidates| ==> candidates[i] == candidates[1..][i - 1];
      if r.Some? then Some((r.value.0 + 1, r.value.1)) else None
  }

  function SourceAt(i: nat): EngineSource {
    if i == 0 then Directive else if i == 1 then TopicDefault else if i == 2 then ChatDefault else ProjectDefault
  }

  /** The resolution is the first present candidate in the order directive,
      topic, chat, project, with the global default when none is present. */
  lemma ResolutionIsFirstPresent(
    explicitEngine: Option<EngineId>, chatId: int, topicKey: Option<(int, int)>, stores: Stores,
    projectDefault: Option<EngineId>, globalDefault: EngineId)
    ensures var r := ResolveEngineForMessage(explicitEngine, chatId, topicKey, stores, projectDefault, globalDefault);
      var first := FirstPresent([explicitEngine, TopicDefaultOf(stores, topicKey), ChatDefaultOf(stores, chatId), projectDefault]);
      (first.None? ==> r.engine == globalDefault && r.source == GlobalDefault)
      && (first.Some? ==> r.engine == first.value.1 && r.source == SourceAt(first.value.0))
  {
    var cs := [explicitEngine, TopicDefaultOf(stores, topicKey), ChatDefaultOf(stores, chatId), projectDefault];
    assert cs[1..] == [cs[1], cs[2], cs[3]];
    assert cs[1..][1..] == [cs[2], cs[3]];
    assert cs[1..][1..][1..] == [cs[3]];
    assert cs[1..][1..][1..][1..] == [];
  }
}
