/** Upgrades of an older configuration layout, applied to the configuration
    dict in place: top-level Telegram keys move under `transports.telegram`,
    and the old `topics.mode` setting becomes `topics.scope`. */
module ConfigMigrations {
  import opened Wrappers
  import Text
  import Json
  import Config

  /** The dict stored under `key`, when a dict is stored there. */
  function TableAt(f: Json.Fields, key: string): Option<Json.Fields> {
    match Json.Lookup(f, key)
    case Some(Obj(t)) => Some(t)
    case _ => None
  }

  /** A stored value counts as missing when it is absent or `None`. */
  predicate Missing(f: Json.Fields, key: string) {
    Json.Lookup(f, key).None? || Json.Lookup(f, key).value.Null?
  }

  /** The key holds something other than a table. */
  predicate NotATable(f: Json.Fields, key: string) {
    !Missing(f, key) && !Json.Lookup(f, key).value.Obj?
  }

  predicate HasLegacyKeys(config: Json.Fields) {
    Json.HasKey(config, "bot_token") || Json.HasKey(config, "chat_id")
  }

  /** `transports` as it stands, empty when it is not a table. */
  function OldTransports(config: Json.Fields): Json.Fields {
    TableAt(config, "transports").GetOr([])
  }

  /** `transports.telegram` as it stands, empty when it is missing. */
  function OldTelegram(config: Json.Fields): Json.Fields {
    match TableAt(config, "transports")
    case None => []
    case Some(t) => TableAt(t, "telegram").GetOr([])
  }

  /** `telegram[key] = config[key]` when the key is at the top level and not yet in the table. */
  function CopyLegacy(config: Json.Fields, telegram: Json.Fields, key: string): (r: Json.Fields)
    ensures Json.Lookup(r, key) == if Json.HasKey(telegram, key) then Json.Lookup(telegram, key) else Json.Lookup(config, key)
    ensures forall k :: k != key ==> Json.Lookup(r, k) == Json.Lookup(telegram, k)
  {
    if Json.HasKey(config, key) && !Json.HasKey(telegram, key) then Json.Put(telegram, key, Json.Lookup(config, key).value)
    else telegram
  }

  /** The two `ensure_table` calls of the legacy migration: the configuration
      after them, the `transports` table after them, and the `telegram` table. */
  function LegacyTables(config: Json.Fields): (r: Result<(Json.Fields, Json.Fields, Json.Fields)>)
    requires Json.WellFormed(Json.Obj(config))
    ensures r.Err? <==> NotATable(config, "transports") || NotATable(OldTransports(config), "telegram")
    ensures r.Ok? ==> r.value.2 == OldTelegram(config) && Json.DistinctKeys(r.value.0) && Json.DistinctKeys(r.value.1)
    ensures r.Ok? ==> forall k :: k != "transports" ==> Json.Lookup(r.value.0, k) == Json.Lookup(config, k)
  {
    match Config.EnsureTable(config, "transports", "transports")
    case Err(e) => Err(e)
    case Ok((c1, transports)) =>
      SubtableWellFormed(config, "transports");
      Json.PutDistinct(config, "transports", Json.Obj([]));
      match Config.EnsureTable(transports, "telegram", "transports.telegram")
      case Err(e) => Err(e)
      case Ok((t1, telegram)) =>
        Json.PutDistinct(transports, "telegram", Json.Obj([]));
        Ok((c1, t1, telegram))
  }

  /** `config.pop("bot_token", None)` and `config.pop("chat_id", None)`. */
  function DropLegacyKeys(c: Json.Fields): (r: Json.Fields)
    requires Json.DistinctKeys(c)
    ensures Json.Lookup(r, "bot_token").None? && Json.Lookup(r, "chat_id").None?
    ensures forall key :: key != "bot_token" && key != "chat_id" ==> Json.Lookup(r, key) == Json.Lookup(c, key)
    ensures Json.DistinctKeys(r)
  {
    var c1 := Json.Remove(c, "bot_token");
    var r := Json.Remove(c1, "chat_id");
    assert Json.Lookup(r, "bot_token") == Json.Lookup(c1, "bot_token");
    r
  }

  /** `d.setdefault(key, v)`: a key already present keeps its value. */
  function SetDefault(c: Json.Fields, key: string, v: Json.Value): (r: Json.Fields)
    ensures Json.Lookup(r, key) == if Json.HasKey(c, key) then Json.Lookup(c, key) else Some(v)
    ensures forall k :: k != key ==> Json.Lookup(r, k) == Json.Lookup(c, k)
  {
    if Json.HasKey(c, key) then c else Json.Put(c, key, v)
  }

  /** Storing the filled `telegram` table, dropping the legacy keys and defaulting `transport`. */
  function FinishLegacy(c1: Json.Fields, t1: Json.Fields, tg: Json.Fields): (r: Json.Fields)
    requires Json.DistinctKeys(c1)
    ensures Json.Lookup(r, "bot_token").None? && Json.Lookup(r, "chat_id").None?
    ensures TableAt(r, "transports") == Some(Json.Put(t1, "telegram", Json.Obj(tg)))
    ensures Json.Lookup(r, "transport") == if Json.HasKey(c1, "transport") then Json.Lookup(c1, "transport") else Some(Json.Str("telegram"))
    ensures forall key :: key != "bot_token" && key != "chat_id" && key != "transports" && key != "transport" ==> Json.Lookup(r, key) == Json.Lookup(c1, key)
  {
    var transports := Json.Obj(Json.Put(t1, "telegram", Json.Obj(tg)));
    FinishedDropsLegacy(c1, transports);
    FinishedStoresTransports(c1, transports);
    FinishedTransport(c1, transports);
    FinishedKeepsOthers(c1, transports);
    Finished(c1, transports)
  }

  /** Storing `transports`, dropping the legacy keys and defaulting `transport`. */
  function Finished(c1: Json.Fields, transports: Json.Value): Json.Fields
    requires Json.DistinctKeys(c1)
  {
    Json.PutDistinct(c1, "transports", transports);
    SetDefault(DropLegacyKeys(Json.Put(c1, "transports", transports)), "transport", Json.Str("telegram"))
  }

  lemma FinishedDropsLegacy(c1: Json.Fields, transports: Json.Value)
    requires Json.DistinctKeys(c1)
    ensures Json.Lookup(Finished(c1, transports), "bot_token").None? && Json.Lookup(Finished(c1, transports), "chat_id").None?
  {
  }

  lemma FinishedStoresTransports(c1: Json.Fields, transports: Json.Value)
    requires Json.DistinctKeys(c1)
    ensures Json.Lookup(Finished(c1, transports), "transports") == Some(transports)
  {
    DroppedLegacy(c1, transports);
  }

  lemma FinishedTransport(c1: Json.Fields, transports: Json.Value)
    requires Json.DistinctKeys(c1)
    ensures Json.Lookup(Finished(c1, transports), "transport")
         == if Json.HasKey(c1, "transport") then Json.Lookup(c1, "transport") else Some(Json.Str("telegram"))
  {
    DroppedLegacy(c1, transports);
  }

  lemma FinishedKeepsOthers(c1: Json.Fields, transports: Json.Value)
    requires Json.DistinctKeys(c1)
    ensures forall key :: key != "bot_token" && key != "chat_id" && key != "transports" && key != "transport" ==>
      Json.Lookup(Finished(c1, transports), key) == Json.Lookup(c1, key)
  {
    DroppedLegacy(c1, transports);
  }

  /** Storing `transports` and dropping the legacy keys leaves every other key as it was. */
  lemma DroppedLegacy(c1: Json.Fields, transports: Json.Value)
    requires Json.DistinctKeys(c1)
    ensures Json.DistinctKeys(Json.Put(c1, "transports", transports))
    ensures var c3 := DropLegacyKeys(Json.Put(c1, "transports", transports));
            && Json.Lookup(c3, "transports") == Some(transports)
            && Json.Lookup(c3, "transport") == Json.Lookup(c1, "transport")
            && (Json.HasKey(c3, "transport") <==> Json.HasKey(c1, "transport"))
            && forall key :: key != "bot_token" && key != "chat_id" && key != "transports" ==> Json.Lookup(c3, key) == Json.Lookup(c1, key)
  {
    Json.PutDistinct(c1, "transports", transports);
  }

  /** `_migrate_legacy_telegram`: the result and the configuration after it. */
  function LegacyTelegram(config: Json.Fields): (r: (Result<bool>, Json.Fields))
    requires Json.WellFormed(Json.Obj(config))
    ensures !HasLegacyKeys(config) ==> r == (Ok(false), config)
    ensures r.0.Ok? ==> (r.0.value <==> HasLegacyKeys(config))
    ensures r.0.Err? ==> r.1 == config
    ensures r.0.Err? <==> HasLegacyKeys(config) && (NotATable(config, "transports") || NotATable(OldTransports(config), "telegram"))
  {
    if !HasLegacyKeys(config) then (Ok(false), config)
    else
      match LegacyTables(config)
      case Err(e) => (Err(e), config)
      case Ok((c1, t1, telegram)) =>
        (Ok(true), FinishLegacy(c1, t1, CopyLegacy(config, CopyLegacy(config, telegram, "bot_token"), "chat_id")))
  }

  /** The tables a migration walks into are well formed. */
  lemma SubtableWellFormed(f: Json.Fields, key: string)
    requires Json.WellFormed(Json.Obj(f))
    ensures TableAt(f, key).Some? ==> Json.WellFormed(Json.Obj(TableAt(f, key).value))
  {
    if TableAt(f, key).Some? {
      Json.LookupWellFormed(f, key);
    }
  }

  /** After the legacy migration the Telegram keys are gone from the top
      level and sit in `transports.telegram`, where a value already there
      is kept; `transport` defaults to `telegram`; nothing else changes. */
  lemma LegacyMoved(config: Json.Fields)
    requires Json.WellFormed(Json.Obj(config)) && LegacyTelegram(config).0 == Ok(true)
    ensures var c := LegacyTelegram(config).1;
            Json.Lookup(c, "bot_token").None? && Json.Lookup(c, "chat_id").None?
            && TableAt(c, "transports").Some? && TableAt(TableAt(c, "transports").value, "telegram").Some?
    ensures var tg := TableAt(TableAt(LegacyTelegram(config).1, "transports").value, "telegram").value;
            forall key :: key == "bot_token" || key == "chat_id" ==>
              Json.Lookup(tg, key) == if Json.HasKey(OldTelegram(config), key) then Json.Lookup(OldTelegram(config), key) else Json.Lookup(config, key)
    ensures var tg := TableAt(TableAt(LegacyTelegram(config).1, "transports").value, "telegram").value;
            forall key :: key != "bot_token" && key != "chat_id" ==> Json.Lookup(tg, key) == Json.Lookup(OldTelegram(config), key)
    ensures var c := LegacyTelegram(config).1;
            Json.Lookup(c, "transport") == if Json.HasKey(config, "transport") then Json.Lookup(config, "transport") else Some(Json.Str("telegram"))
    ensures var c := LegacyTelegram(config).1;
            forall key :: key != "bot_token" && key != "chat_id" && key != "transports" && key != "transport" ==> Json.Lookup(c, key) == Json.Lookup(config, key)
  {
    var (c1, t1, telegram) := LegacyTables(config).value;
    var tg1 := CopyLegacy(config, telegram, "bot_token");
    var tg := CopyLegacy(config, tg1, "chat_id");
    assert TableAt(Json.Put(t1, "telegram", Json.Obj(tg)), "telegram") == Some(tg);
    assert Json.Lookup(c1, "transport") == Json.Lookup(config, "transport");
    assert Json.HasKey(c1, "transport") <==> Json.HasKey(config, "transport");
  }

  /** `_ensure_subtable`: the dict stored under `key`, `None` when nothing
      (or `None`) is stored there, and an error for any other value. */
  function Subtable(parent: Json.Fields, key: string, name: string): (r: Result<Option<Json.Fields>>)
    ensures r.Err? <==> NotATable(parent, key)
    ensures r.Ok? ==> r.value == TableAt(parent, key)
  {
    match Json.Lookup(parent, key)
    case None => Ok(None)
    case Some(Null) => Ok(None)
    case Some(Obj(t)) => Ok(Some(t))
    case Some(_) => Err("Invalid `" + name + "` in config; expected a table.")
  }

  /** The `scope` an old `mode` stands for. */
  function ScopeOfMode(mode: string): Option<string> {
    if mode == "multi_project_chat" then Some("main")
    else if mode == "per_project_chat" then Some("projects")
    else None
  }

  /** The scope the table's `mode` stands for, when it is a known mode string. */
  function ModeScope(topics: Json.Fields): Option<string> {
    match Json.Lookup(topics, "mode")
    case Some(Str(m)) => ScopeOfMode(Text.Strip(m))
    case _ => None
  }

  /** The topics table with `scope` set from `mode` when it is not set yet. */
  function WithScope(topics: Json.Fields): (r: Result<Json.Fields>)
    requires Json.Lookup(topics, "mode").Some?
    ensures r.Ok? <==> Json.Lookup(topics, "scope").Some? || ModeScope(topics).Some?
    ensures r.Ok? ==> Json.Lookup(r.value, "scope") == if Json.Lookup(topics, "scope").Some? then Json.Lookup(topics, "scope")
                                                      else Some(Json.Str(ModeScope(topics).value))
    ensures r.Ok? ==> forall key :: key != "scope" ==> Json.Lookup(r.value, key) == Json.Lookup(topics, key)
  {
    if Json.Lookup(topics, "scope").Some? then Ok(topics)
    else
      match ModeScope(topics)
      case Some(scope) => Ok(Json.Put(topics, "scope", Json.Str(scope)))
      case None =>
        if Json.Lookup(topics, "mode").value.Str? then Err(BAD_MODE_VALUE) else Err(BAD_MODE_TYPE)
  }

  const BAD_MODE_VALUE: string := "Invalid `transports.telegram.topics.mode` in config; expected 'multi_project_chat' or 'per_project_chat'."
  const BAD_MODE_TYPE: string := "Invalid `transports.telegram.topics.mode` in config; expected a string."

  /** The chain `transports.telegram.topics`, when every link of it is a table. */
  function TopicsTable(config: Json.Fields): Option<Json.Fields> {
    match TableAt(config, "transports")
    case None => None
    case Some(t) =>
      match TableAt(t, "telegram")
      case None => None
      case Some(tg) => TableAt(tg, "topics")
  }

  /** Stores a new topics table at `transports.telegram.topics`. */
  function PutTopics(config: Json.Fields, topics: Json.Fields): Json.Fields
    requires TopicsTable(config).Some?
  {
    var t := TableAt(config, "transports").value;
    var tg := TableAt(t, "telegram").value;
    Json.Put(config, "transports", Json.Obj(Json.Put(t, "telegram", Json.Obj(Json.Put(tg, "topics", Json.Obj(topics))))))
  }

  /** The topics table has a `mode` the migration cannot turn into a `scope`. */
  predicate BadTopicsMode(config: Json.Fields) {
    TopicsTable(config).Some? && Json.Lookup(TopicsTable(config).value, "mode").Some?
    && WithScope(TopicsTable(config).value).Err?
  }

  /** `_migrate_topics_scope`: the result and the configuration after it. */
  function TopicsScope(config: Json.Fields): (r: (Result<bool>, Json.Fields))
    requires Json.WellFormed(Json.Obj(config))
    ensures r.0 != Ok(true) ==> r.1 == config
    ensures r.0 == Ok(true) <==> TopicsTable(config).Some? && Json.Lookup(TopicsTable(config).value, "mode").Some?
                                  && WithScope(TopicsTable(config).value).Ok?
    ensures BadTopicsMode(config) ==> r.0.Err?
    ensures TopicsTable(config).Some? ==> (r.0.Err? <==> BadTopicsMode(config))
  {
    match Subtable(config, "transports", "transports")
    case Err(e) => (Err(e), config)
    case Ok(None) => (Ok(false), config)
    case Ok(Some(transports)) =>
      match Subtable(transports, "telegram", "transports.telegram")
      case Err(e) => (Err(e), config)
      case Ok(None) => (Ok(false), config)
      case Ok(Some(telegram)) =>
        match Subtable(telegram, "topics", "transports.telegram.topics")
        case Err(e) => (Err(e), config)
        case Ok(None) => (Ok(false), config)
        case Ok(Some(topics)) =>
          if Json.Lookup(topics, "mode").None? then (Ok(false), config)
          else
            match WithScope(topics)
            case Err(e) => (Err(e), config)
            case Ok(scoped) =>
              TopicsWellFormed(config);
              Json.PutDistinct(topics, "scope", Json.Str(""));
              (Ok(true), PutTopics(config, RemoveMode(topics, scoped)))
  }

  /** `topics.pop("mode", None)` on the scoped table. */
  function RemoveMode(topics: Json.Fields, scoped: Json.Fields): (r: Json.Fields)
    requires Json.Lookup(topics, "mode").Some? && WithScope(topics) == Ok(scoped) && Json.DistinctKeys(topics)
    ensures Json.Lookup(r, "mode").None?
    ensures forall key :: key != "mode" ==> Json.Lookup(r, key) == Json.Lookup(scoped, key)
  {
    if Json.Lookup(topics, "scope").Some? then Json.Remove(scoped, "mode")
    else
      Json.PutDistinct(topics, "scope", Json.Lookup(scoped, "scope").value);
      Json.Remove(scoped, "mode")
  }

  lemma TopicsWellFormed(config: Json.Fields)
    requires Json.WellFormed(Json.Obj(config))
    ensures TopicsTable(config).Some? ==> Json.WellFormed(Json.Obj(TopicsTable(config).value))
  {
    SubtableWellFormed(config, "transports");
    if TableAt(config, "transports").Some? {
      var t := TableAt(config, "transports").value;
      SubtableWellFormed(t, "telegram");
      if TableAt(t, "telegram").Some? {
        SubtableWellFormed(TableAt(t, "telegram").value, "topics");
      }
    }
  }

  /** A `mode` that is not a string, or not one of the two known modes, is
      refused when no `scope` is set. */
  lemma BadModeRefused(config: Json.Fields)
    requires Json.WellFormed(Json.Obj(config))
    requires TopicsTable(config).Some?
    requires Json.Lookup(TopicsTable(config).value, "mode").Some? && Json.Lookup(TopicsTable(config).value, "scope").None?
    requires ModeScope(TopicsTable(config).value).None?
    ensures TopicsScope(config).0.Err?
  {
    TopicsPath(config);
  }

  /** After the topics migration `mode` is gone and `scope` is the old
      scope if there was one, else the scope the old mode stands for. */
  lemma ModeBecomesScope(config: Json.Fields)
    requires Json.WellFormed(Json.Obj(config)) && TopicsScope(config).0 == Ok(true)
    ensures TopicsTable(TopicsScope(config).1).Some?
    ensures Json.Lookup(TopicsTable(TopicsScope(config).1).value, "mode").None?
    ensures Json.Lookup(TopicsTable(TopicsScope(config).1).value, "scope")
            == if Json.Lookup(TopicsTable(config).value, "scope").Some? then Json.Lookup(TopicsTable(config).value, "scope")
               else Some(Json.Str(ModeScope(TopicsTable(config).value).value))
    ensures forall key :: key != "mode" && key != "scope" ==>
              Json.Lookup(TopicsTable(TopicsScope(config).1).value, key) == Json.Lookup(TopicsTable(config).value, key)
    ensures forall key :: key != "transports" ==> Json.Lookup(TopicsScope(config).1, key) == Json.Lookup(config, key)
  {
    TopicsWellFormed(config);
    var topics := TopicsTable(config).value;
    var scoped := WithScope(topics).value;
    var newTopics := RemoveMode(topics, scoped);
    TopicsScopeStores(config);
    PutTopicsReads(config, newTopics);
  }

  /** What the topics migration stores when it applies. */
  lemma TopicsScopeStores(config: Json.Fields)
    requires Json.WellFormed(Json.Obj(config)) && TopicsScope(config).0 == Ok(true)
    ensures TopicsTable(config).Some? && Json.Lookup(TopicsTable(config).value, "mode").Some?
    ensures WithScope(TopicsTable(config).value).Ok?
    ensures Json.DistinctKeys(TopicsTable(config).value)
    ensures TopicsScope(config).1
            == PutTopics(config, RemoveMode(TopicsTable(config).value, WithScope(TopicsTable(config).value).value))
  {
    TopicsWellFormed(config);
    TopicsPath(config);
  }

  /** The three `_ensure_subtable` calls succeed along an existing topics table. */
  lemma TopicsPath(config: Json.Fields)
    requires TopicsTable(config).Some?
    ensures Subtable(config, "transports", "transports") == Ok(TableAt(config, "transports"))
    ensures Subtable(TableAt(config, "transports").value, "telegram", "transports.telegram")
            == Ok(TableAt(TableAt(config, "transports").value, "telegram"))
    ensures Subtable(TableAt(TableAt(config, "transports").value, "telegram").value, "topics", "transports.telegram.topics")
            == Ok(TopicsTable(config))
  {
  }

  /** Reading back the topics table just stored. */
  lemma PutTopicsReads(config: Json.Fields, topics: Json.Fields)
    requires TopicsTable(config).Some?
    ensures TopicsTable(PutTopics(config, topics)) == Some(topics)
    ensures forall key :: key != "transports" ==> Json.Lookup(PutTopics(config, topics), key) == Json.Lookup(config, key)
  {
  }

  /** `migrate_config`: the names of the migrations that applied, in order,
      and the configuration after them. A failing migration raises, leaving
      the changes of the ones before it in place. */
  function Migrations(config: Json.Fields): (r: (Result<seq<string>>, Json.Fields))
    requires Json.WellFormed(Json.Obj(config))
    ensures r.0.Ok? ==> r.0.value in {[], ["legacy-telegram"], ["topics-scope"], ["legacy-telegram", "topics-scope"]}
    ensures r.0.Ok? ==> ("legacy-telegram" in r.0.value <==> HasLegacyKeys(config))
  {
    var (legacy, c1) := LegacyTelegram(config);
    match legacy
    case Err(e) => (Err(e), c1)
    case Ok(movedLegacy) =>
      LegacyWellFormed(config);
      var (topics, c2) := TopicsScope(c1);
      match topics
      case Err(e) => (Err(e), c2)
      case Ok(movedTopics) =>
        (Ok(Applied(movedLegacy, movedTopics)), c2)
  }

  /** A failing legacy migration stops `migrate_config`. */
  lemma MigrationsStops(config: Json.Fields)
    requires Json.WellFormed(Json.Obj(config)) && LegacyTelegram(config).0.Err?
    ensures Migrations(config) == (Err(LegacyTelegram(config).0.error), config)
  {
  }

  /** After a successful legacy migration, `migrate_config` runs the topics one. */
  lemma MigrationsRuns(config: Json.Fields)
    requires Json.WellFormed(Json.Obj(config)) && LegacyTelegram(config).0.Ok?
    ensures Json.WellFormed(Json.Obj(LegacyTelegram(config).1))
    ensures var c1 := LegacyTelegram(config).1;
            Migrations(config) == if TopicsScope(c1).0.Err? then (Err(TopicsScope(c1).0.error), TopicsScope(c1).1)
                                  else (Ok(Applied(LegacyTelegram(config).0.value, TopicsScope(c1).0.value)), TopicsScope(c1).1)
  {
    LegacyWellFormed(config);
  }

  /** The names of the migrations that applied, in the order they ran. */
  function Applied(legacy: bool, topics: bool): (r: seq<string>)
    ensures r in {[], ["legacy-telegram"], ["topics-scope"], ["legacy-telegram", "topics-scope"]}
    ensures "legacy-telegram" in r <==> legacy
    ensures "topics-scope" in r <==> topics
  {
    if legacy && topics then ["legacy-telegram", "topics-scope"]
    else if legacy then ["legacy-telegram"]
    else if topics then ["topics-scope"]
    else []
  }

  /** Recording the topics migration after the legacy one. */
  lemma AppliedTopics(legacy: bool)
    ensures Applied(legacy, false) + ["topics-scope"] == Applied(legacy, true)
  {
  }

  /** The legacy migration keeps the configuration well formed. */
  lemma LegacyWellFormed(config: Json.Fields)
    requires Json.WellFormed(Json.Obj(config))
    ensures Json.WellFormed(Json.Obj(LegacyTelegram(config).1))
  {
    if HasLegacyKeys(config) && LegacyTables(config).Ok? {
      var (c1, t1, telegram) := LegacyTables(config).value;
      LegacyTablesWellFormed(config);
      var tg1 := CopyLegacy(config, telegram, "bot_token");
      var tg := CopyLegacy(config, tg1, "chat_id");
      CopyLegacyWellFormed(config, telegram, "bot_token");
      CopyLegacyWellFormed(config, tg1, "chat_id");
      FinishLegacyWellFormed(c1, t1, tg);
      LegacyResult(config);
    }
  }

  /** What the legacy migration leaves when it has keys to move and the tables to move them into. */
  lemma LegacyResult(config: Json.Fields)
    requires Json.WellFormed(Json.Obj(config)) && HasLegacyKeys(config) && LegacyTables(config).Ok?
    ensures var (c1, t1, telegram) := LegacyTables(config).value;
            LegacyTelegram(config).1 == FinishLegacy(c1, t1, CopyLegacy(config, CopyLegacy(config, telegram, "bot_token"), "chat_id"))
  {
  }

  lemma LegacyTablesWellFormed(config: Json.Fields)
    requires Json.WellFormed(Json.Obj(config)) && LegacyTables(config).Ok?
    ensures var (c1, t1, telegram) := LegacyTables(config).value;
            Json.WellFormed(Json.Obj(c1)) && Json.WellFormed(Json.Obj(t1)) && Json.WellFormed(Json.Obj(telegram))
  {
    var (c1, transports) := Config.EnsureTable(config, "transports", "transports").value;
    SubtableWellFormed(config, "transports");
    assert Json.WellFormed(Json.Obj(c1)) && Json.WellFormed(Json.Obj(transports)) by {
      if Missing(config, "transports") {
        Json.PutDistinct(config, "transports", Json.Obj([]));
        Json.PutWellFormed(config, "transports", Json.Obj([]));
      }
    }
    var (t1, telegram) := Config.EnsureTable(transports, "telegram", "transports.telegram").value;
    if Missing(transports, "telegram") {
      Json.PutDistinct(transports, "telegram", Json.Obj([]));
      Json.PutWellFormed(transports, "telegram", Json.Obj([]));
    } else {
      Json.LookupWellFormed(transports, "telegram");
    }
  }

  lemma FinishLegacyWellFormed(c1: Json.Fields, t1: Json.Fields, tg: Json.Fields)
    requires Json.WellFormed(Json.Obj(c1)) && Json.WellFormed(Json.Obj(t1)) && Json.WellFormed(Json.Obj(tg))
    ensures Json.WellFormed(Json.Obj(FinishLegacy(c1, t1, tg)))
  {
    var t2 := Json.Put(t1, "telegram", Json.Obj(tg));
    Json.PutDistinct(t1, "telegram", Json.Obj(tg));
    Json.PutWellFormed(t1, "telegram", Json.Obj(tg));
    var c2 := Json.Put(c1, "transports", Json.Obj(t2));
    Json.PutDistinct(c1, "transports", Json.Obj(t2));
    Json.PutWellFormed(c1, "transports", Json.Obj(t2));
    var c3a := Json.Remove(c2, "bot_token");
    Json.RemoveWellFormed(c2, "bot_token");
    var c3 := Json.Remove(c3a, "chat_id");
    Json.RemoveWellFormed(c3a, "chat_id");
    assert c3 == DropLegacyKeys(c2);
    if !Json.HasKey(c3, "transport") {
      Json.PutDistinct(c3, "transport", Json.Str("telegram"));
      Json.PutWellFormed(c3, "transport", Json.Str("telegram"));
    }
  }

  lemma CopyLegacyWellFormed(config: Json.Fields, telegram: Json.Fields, key: string)
    requires Json.WellFormed(Json.Obj(config)) && Json.WellFormed(Json.Obj(telegram))
    ensures Json.WellFormed(Json.Obj(CopyLegacy(config, telegram, key)))
  {
    if Json.HasKey(config, key) && !Json.HasKey(telegram, key) {
      Json.LookupWellFormed(config, key);
      Json.PutDistinct(telegram, key, Json.Lookup(config, key).value);
      Json.PutWellFormed(telegram, key, Json.Lookup(config, key).value);
    }
  }

  /** The topics migration keeps the configuration well formed. */
  lemma TopicsScopeWellFormed(config: Json.Fields)
    requires Json.WellFormed(Json.Obj(config))
    ensures Json.WellFormed(Json.Obj(TopicsScope(config).1))
  {
    if TopicsScope(config).0 == Ok(true) {
      TopicsScopeStores(config);
      var t := TableAt(config, "transports").value;
      var tg := TableAt(t, "telegram").value;
      var topics := TopicsTable(config).value;
      SubtableWellFormed(config, "transports");
      SubtableWellFormed(t, "telegram");
      TopicsWellFormed(config);
      var scoped := WithScope(topics).value;
      if Json.Lookup(topics, "scope").None? {
        Json.PutDistinct(topics, "scope", Json.Str(ModeScope(topics).value));
        Json.PutWellFormed(topics, "scope", Json.Str(ModeScope(topics).value));
      }
      var newTopics := Json.Remove(scoped, "mode");
      Json.RemoveWellFormed(scoped, "mode");
      assert newTopics == RemoveMode(topics, scoped);
      PutWellFormedObj(tg, "topics", newTopics);
      var tg2 := Json.Put(tg, "topics", Json.Obj(newTopics));
      PutWellFormedObj(t, "telegram", tg2);
      PutWellFormedObj(config, "transports", Json.Put(t, "telegram", Json.Obj(tg2)));
    }
  }

  /** Storing a well-formed table under a key of a well-formed table. */
  lemma PutWellFormedObj(f: Json.Fields, key: string, table: Json.Fields)
    requires Json.WellFormed(Json.Obj(f)) && Json.WellFormed(Json.Obj(table))
    ensures Json.WellFormed(Json.Obj(Json.Put(f, key, Json.Obj(table))))
  {
    Json.PutDistinct(f, key, Json.Obj(table));
    Json.PutWellFormed(f, key, Json.Obj(table));
  }

  /** After a successful legacy migration no legacy key is left. */
  lemma LegacyCleared(config: Json.Fields)
    requires Json.WellFormed(Json.Obj(config)) && LegacyTelegram(config).0.Ok?
    ensures !HasLegacyKeys(LegacyTelegram(config).1)
  {
    if LegacyTelegram(config).0 == Ok(true) {
      LegacyMoved(config);
    }
  }

  /** The topics migration leaves the top-level legacy keys alone. */
  lemma TopicsKeepsLegacy(config: Json.Fields)
    requires Json.WellFormed(Json.Obj(config))
    ensures HasLegacyKeys(TopicsScope(config).1) == HasLegacyKeys(config)
  {
    if TopicsScope(config).0 == Ok(true) {
      ModeBecomesScope(config);
      assert Json.Lookup(TopicsScope(config).1, "bot_token") == Json.Lookup(config, "bot_token");
      assert Json.Lookup(TopicsScope(config).1, "chat_id") == Json.Lookup(config, "chat_id");
    }
  }

  /** Once the topics migration went through, running it again does nothing. */
  lemma TopicsSettled(config: Json.Fields)
    requires Json.WellFormed(Json.Obj(config)) && TopicsScope(config).0.Ok?
    ensures Json.WellFormed(Json.Obj(TopicsScope(config).1))
    ensures TopicsScope(TopicsScope(config).1) == (Ok(false), TopicsScope(config).1)
  {
    TopicsScopeWellFormed(config);
    var c := TopicsScope(config).1;
    if TopicsScope(config).0 == Ok(true) {
      ModeBecomesScope(config);
      assert !BadTopicsMode(c);
    }
  }

  /** Migrating twice changes nothing the second time: a migrated
      configuration reports no migration and is left as it is. */
  lemma MigrateIdempotent(config: Json.Fields)
    requires Json.WellFormed(Json.Obj(config)) && Migrations(config).0.Ok?
    ensures Json.WellFormed(Json.Obj(Migrations(config).1))
    ensures Migrations(Migrations(config).1) == (Ok([]), Migrations(config).1)
  {
    if LegacyTelegram(config).0.Err? {
      MigrationsStops(config);
    }
    MigrationsRuns(config);
    var c1 := LegacyTelegram(config).1;
    LegacyCleared(config);
    TopicsKeepsLegacy(c1);
    TopicsSettled(c1);
    var c2 := TopicsScope(c1).1;
    assert c2 == Migrations(config).1;
    assert LegacyTelegram(c2) == (Ok(false), c2);
    MigrationsRuns(c2);
  }

  /** The configuration dict the migrations rewrite in place. */
  class ConfigDocument {
    var data: Json.Fields

    predicate Valid()
      reads this
    {
      Json.WellFormed(Json.Obj(data))
    }

    constructor(config: Json.Fields)
      requires Json.WellFormed(Json.Obj(config))
      ensures Valid() && data == config
    {
      data := config;
    }

    /** `_migrate_legacy_telegram` on this configuration. */
    method MigrateLegacyTelegram() returns (r: Result<bool>)
      requires Valid()
      modifies this
      ensures Valid()
      ensures (r, data) == LegacyTelegram(old(data))
    {
      LegacyWellFormed(data);
      if !HasLegacyKeys(data) {
        return Ok(false);
      }
      var tables := LegacyTables(data);
      if tables.Err? {
        return Err(tables.error);
      }
      var (c1, t1, telegram) := tables.value;
      var tg := CopyLegacy(data, telegram, "bot_token");
      tg := CopyLegacy(data, tg, "chat_id");
      data := FinishLegacy(c1, t1, tg);
      r := Ok(true);
    }

    /** `_migrate_topics_scope` on this configuration. */
    method MigrateTopicsScope() returns (r: Result<bool>)
      requires Valid()
      modifies this
      ensures Valid()
      ensures (r, data) == TopicsScope(old(data))
    {
      TopicsScopeWellFormed(data);
      var transports :- Subtable(data, "transports", "transports");
      if transports.None? {
        return Ok(false);
      }
      var telegram :- Subtable(transports.value, "telegram", "transports.telegram");
      if telegram.None? {
        return Ok(false);
      }
      var topics :- Subtable(telegram.value, "topics", "transports.telegram.topics");
      if topics.None? || Json.Lookup(topics.value, "mode").None? {
        return Ok(false);
      }
      var scoped :- WithScope(topics.value);
      TopicsWellFormed(data);
      data := PutTopics(data, RemoveMode(topics.value, scoped));
      r := Ok(true);
    }

    /** `migrate_config` on this configuration: the migrations that applied, in order. */
    method MigrateConfig() returns (r: Result<seq<string>>)
      requires Valid()
      modifies this
      ensures r == Migrations(old(data)).0 && data == Migrations(old(data)).1
    {
      ghost var config := data;
      var applied: seq<string> := [];
      var legacy := MigrateLegacyTelegram();
      assert legacy == LegacyTelegram(config).0 && data == LegacyTelegram(config).1;
      if legacy.Err? {
        MigrationsStops(config);
        return Err(legacy.error);
      }
      if legacy.value {
        applied := applied + ["legacy-telegram"];
      }
      assert applied == Applied(legacy.value, false);
      ghost var c1 := data;
      MigrationsRuns(config);
      var topics := MigrateTopicsScope();
      assert topics == TopicsScope(c1).0 && data == TopicsScope(c1).1;
      if topics.Err? {
        return Err(topics.error);
      }
      if topics.value {
        AppliedTopics(legacy.value);
        applied := applied + ["topics-scope"];
      }
      r := Ok(applied);
    }
  }
}
