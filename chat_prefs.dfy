/** Per-chat preferences of the Telegram bridge: a default engine, a
    trigger mode, a bound project and branch, and per-engine overrides.
    The store keeps no chat entry that holds nothing. */
module ChatPrefs {
  import opened Wrappers
  import Text
  import Model
  import EO = EngineOverrides

  /** `_ChatPrefs`: one chat's stored preferences. */
  datatype Prefs = Prefs(
    defaultEngine: Option<string>,
    triggerMode: Option<string>,
    contextProject: Option<string>,
    contextBranch: Option<string>,
    engineOverrides: map<string, EO.Overrides>)

  const EMPTY_PREFS := Prefs(None, None, None, None, map[])

  /** `_chat_key`: the decimal rendering of the chat id. */
  function ChatKey(chatId: int): (r: string)
    ensures Text.ParseInt(r) == Some(chatId)
  {
    Text.ParseIntRoundTrip(chatId);
    Text.IntToString(chatId)
  }

  /** Two chats never share a key. */
  lemma ChatKeyInjective(a: int, b: int)
    requires ChatKey(a) == ChatKey(b)
    ensures a == b
  {
  }

  /** `_normalize_text` is the same strip-and-blank-is-unset rule that
      engine overrides use. */
  function NormalizeText(value: Option<string>): (r: Option<string>)
    ensures r.None? <==> value.None? || Text.AllSpace(value.value)
    ensures r.Some? ==> r.value == Text.Strip(value.value)
  {
    EO.NormalizeValue(value)
  }

  /** `_normalize_trigger_mode`: only `mentions` is kept; `all` and
      anything unrecognised mean the default. */
  function NormalizeTriggerMode(value: Option<string>): (r: Option<string>)
    ensures r.Some? <==> value.Some? && Text.Lower(Text.Strip(value.value)) == "mentions"
    ensures r.Some? ==> r.value == "mentions"
  {
    if value.None? then None
    else
      var cleaned := Text.Lower(Text.Strip(value.value));
      if cleaned == "mentions" then Some(cleaned)
      else if cleaned == "all" then None
      else None
  }

  /** `_normalize_engine_id`: stripped and lower-cased; blank means none. */
  function NormalizeEngineId(value: Option<string>): (r: Option<string>)
    ensures r.None? <==> value.None? || Text.AllSpace(value.value)
    ensures r.Some? ==> r.value == Text.Lower(Text.Strip(value.value)) && r.value != []
  {
    if value.None? then None
    else
      var cleaned := Text.Lower(Text.Strip(value.value));
      if cleaned == [] then None else Some(cleaned)
  }

  /** A normalised trigger mode normalises to itself. */
  lemma NormalizeTriggerModeIdempotent(value: Option<string>)
    ensures NormalizeTriggerMode(NormalizeTriggerMode(value)) == NormalizeTriggerMode(value)
  {
    if value.Some? {
      LowerStripIdempotent(value.value);
    }
  }

  /** Lower-casing keeps whitespace where it was. */
  lemma LowerKeepsSpace(s: string)
    ensures forall i :: 0 <= i < |s| ==> (Text.IsSpace(Text.Lower(s)[i]) <==> Text.IsSpace(s[i]))
  {
  }

  /** Stripping and lower-casing a second time changes nothing. */
  lemma LowerStripIdempotent(s: string)
    ensures Text.Lower(Text.Strip(Text.Lower(Text.Strip(s)))) == Text.Lower(Text.Strip(s))
  {
    var stripped := Text.Strip(s);
    LowerKeepsSpace(stripped);
    Text.StripTight(Text.Lower(stripped));
    Text.LowerIdempotent(stripped);
  }

  /** A normalised engine id normalises to itself. */
  lemma NormalizeEngineIdIdempotent(value: Option<string>)
    ensures NormalizeEngineId(NormalizeEngineId(value)) == NormalizeEngineId(value)
  {
    if value.Some? {
      LowerStripIdempotent(value.value);
    }
  }

  /** `_has_engine_overrides`: some stored override still holds a value. */
  predicate HasEngineOverrides(overrides: map<string, EO.Overrides>) {
    exists engine :: engine in overrides && EO.NormalizeOverrides(Some(overrides[engine])).Some?
  }

  /** `_has_engine_overrides` as the loop over the stored overrides. */
  method HasEngineOverridesLoop(overrides: map<string, EO.Overrides>) returns (found: bool)
    ensures found == HasEngineOverrides(overrides)
  {
    var rest := overrides.Keys;
    while rest != {}
      invariant rest <= overrides.Keys
      invariant forall engine :: engine in overrides.Keys - rest ==> EO.NormalizeOverrides(Some(overrides[engine])).None?
      decreases rest
    {
      var engine :| engine in rest;
      if EO.NormalizeOverrides(Some(overrides[engine])).Some? {
        return true;
      }
      rest := rest - {engine};
    }
    found := false;
  }

  /** `_chat_is_empty`: nothing the getters would report is left. */
  predicate ChatIsEmpty(p: Prefs) {
    NormalizeText(p.defaultEngine).None?
    && NormalizeTriggerMode(p.triggerMode).None?
    && NormalizeText(p.contextProject).None?
    && NormalizeText(p.contextBranch).None?
    && !HasEngineOverrides(p.engineOverrides)
  }

  /** The chat's entry, or a fresh empty one (`_ensure_chat_locked`). */
  function EntryOf(chats: map<string, Prefs>, chatId: int): Prefs {
    if ChatKey(chatId) in chats then chats[ChatKey(chatId)] else EMPTY_PREFS
  }

  /** The chats after writing `p` as the chat's entry: an entry left empty
      is removed (`_remove_chat_locked`), any other is stored. */
  function Stored(chats: map<string, Prefs>, chatId: int, p: Prefs): (r: map<string, Prefs>)
    ensures ChatKey(chatId) in r <==> !ChatIsEmpty(p)
    ensures ChatKey(chatId) in r ==> r[ChatKey(chatId)] == p
    ensures forall key :: key != ChatKey(chatId) ==> (key in r <==> key in chats)
    ensures forall key :: key != ChatKey(chatId) && key in r ==> r[key] == chats[key]
  {
    if ChatIsEmpty(p) then chats - {ChatKey(chatId)} else chats[ChatKey(chatId) := p]
  }

  /** No stored chat entry is empty. */
  predicate NoEmptyChats(chats: map<string, Prefs>) {
    forall key :: key in chats ==> !ChatIsEmpty(chats[key])
  }

  /** Every write through `Stored` keeps the store free of empty entries. */
  lemma StoredKeepsNoEmpty(chats: map<string, Prefs>, chatId: int, p: Prefs)
    requires NoEmptyChats(chats)
    ensures NoEmptyChats(Stored(chats, chatId, p))
  {
  }

  /** The override a getter reports for one engine key. */
  function OverrideView(overrides: map<string, EO.Overrides>, key: string): Option<EO.Overrides> {
    EO.NormalizeOverrides(if key in overrides then Some(overrides[key]) else None)
  }

  /** Two entries the getters cannot tell apart. */
  ghost predicate SameView(p: Prefs, q: Prefs) {
    NormalizeText(p.defaultEngine) == NormalizeText(q.defaultEngine)
    && NormalizeTriggerMode(p.triggerMode) == NormalizeTriggerMode(q.triggerMode)
    && NormalizeText(p.contextProject) == NormalizeText(q.contextProject)
    && NormalizeText(p.contextBranch) == NormalizeText(q.contextBranch)
    && forall key :: OverrideView(p.engineOverrides, key) == OverrideView(q.engineOverrides, key)
  }

  /** Dropping an empty entry is invisible: after a write the chat reads
      exactly as the written entry, whether it was kept or removed. */
  lemma StoredView(chats: map<string, Prefs>, chatId: int, p: Prefs)
    ensures SameView(EntryOf(Stored(chats, chatId, p), chatId), p)
  {
    if ChatIsEmpty(p) {
      forall key
        ensures OverrideView(EMPTY_PREFS.engineOverrides, key) == OverrideView(p.engineOverrides, key)
      {
        if key in p.engineOverrides {
          assert EO.NormalizeOverrides(Some(p.engineOverrides[key])).None?;
        }
      }
    }
  }

  /** After `set_trigger_mode` the chat reads back the normalised mode. */
  lemma TriggerModeWritten(chats: map<string, Prefs>, chatId: int, mode: Option<string>)
    requires NoEmptyChats(chats)
    ensures NoEmptyChats(Stored(chats, chatId, EntryOf(chats, chatId).(triggerMode := NormalizeTriggerMode(mode))))
    ensures NormalizeTriggerMode(EntryOf(Stored(chats, chatId, EntryOf(chats, chatId).(triggerMode := NormalizeTriggerMode(mode))), chatId).triggerMode)
            == NormalizeTriggerMode(mode)
  {
    var updated := EntryOf(chats, chatId).(triggerMode := NormalizeTriggerMode(mode));
    NormalizeTriggerModeIdempotent(mode);
    StoredView(chats, chatId, updated);
    StoredKeepsNoEmpty(chats, chatId, updated);
  }

  /** Clearing a field of a chat with no entry leaves the store as it is. */
  lemma ClearAbsentIsNoOp(chats: map<string, Prefs>, chatId: int, p: Prefs)
    requires ChatKey(chatId) !in chats && ChatIsEmpty(p)
    ensures Stored(chats, chatId, p) == chats
  {
  }

  /** `ChatPrefsStore`, held in memory: the `chats` table of its state. */
  class ChatPrefsStore {
    var chats: map<string, Prefs>

    predicate Valid()
      reads this
    {
      NoEmptyChats(chats)
    }

    constructor()
      ensures Valid() && chats == map[]
    {
      chats := map[];
    }

    /** `_get_chat_locked`. */
    function GetChat(chatId: int): (r: Option<Prefs>)
      reads this
      ensures r.Some? <==> ChatKey(chatId) in chats
      ensures r.Some? ==> r.value == chats[ChatKey(chatId)]
    {
      if ChatKey(chatId) in chats then Some(chats[ChatKey(chatId)]) else None
    }

    /** `get_default_engine`. */
    function GetDefaultEngine(chatId: int): (r: Option<string>)
      reads this
      ensures r == NormalizeText(EntryOf(chats, chatId).defaultEngine)
    {
      match GetChat(chatId)
      case None => None
      case Some(chat) => NormalizeText(chat.defaultEngine)
    }

    /** `get_trigger_mode`. */
    function GetTriggerMode(chatId: int): (r: Option<string>)
      reads this
      ensures r == NormalizeTriggerMode(EntryOf(chats, chatId).triggerMode)
    {
      match GetChat(chatId)
      case None => None
      case Some(chat) => NormalizeTriggerMode(chat.triggerMode)
    }

    /** `get_context`: no context unless a project is set. */
    function GetContext(chatId: int): (r: Option<Model.RunContext>)
      reads this
      ensures r.Some? <==> NormalizeText(EntryOf(chats, chatId).contextProject).Some?
      ensures r.Some? ==> r.value.project == NormalizeText(EntryOf(chats, chatId).contextProject)
                          && r.value.branch == NormalizeText(EntryOf(chats, chatId).contextBranch)
    {
      match GetChat(chatId)
      case None => None
      case Some(chat) =>
        var project := NormalizeText(chat.contextProject);
        if project.None? then None
        else Some(Model.RunContext(project, NormalizeText(chat.contextBranch)))
    }

    /** `get_engine_override`: looked up under the normalised engine id. */
    function GetEngineOverride(chatId: int, engine: string): (r: Option<EO.Overrides>)
      reads this
      ensures NormalizeEngineId(Some(engine)).None? ==> r.None?
      ensures NormalizeEngineId(Some(engine)).Some? ==>
                var key := NormalizeEngineId(Some(engine)).value;
                var overrides := EntryOf(chats, chatId).engineOverrides;
                r == EO.NormalizeOverrides(if key in overrides then Some(overrides[key]) else None)
    {
      var engineKey := NormalizeEngineId(Some(engine));
      if engineKey.None? then None
      else
        match GetChat(chatId)
        case None => None
        case Some(chat) =>
          EO.NormalizeOverrides(if engineKey.value in chat.engineOverrides then Some(chat.engineOverrides[engineKey.value]) else None)
    }

    /** `_ensure_chat_locked` followed by writing the entry back, or
        `_remove_chat_locked` when the entry is left empty. */
    method Store(chatId: int, p: Prefs)
      modifies this
      ensures chats == Stored(old(chats), chatId, p)
    {
      var key := ChatKey(chatId);
      var hasOverrides := HasEngineOverridesLoop(p.engineOverrides);
      if NormalizeText(p.defaultEngine).None? && NormalizeTriggerMode(p.triggerMode).None?
         && NormalizeText(p.contextProject).None? && NormalizeText(p.contextBranch).None? && !hasOverrides {
        if key in chats {
          chats := chats - {key};
        }
      } else {
        chats := chats[key := p];
      }
    }

    /** `set_default_engine`; `clear_default_engine` is the call with `None`. */
    method SetDefaultEngine(chatId: int, engine: Option<string>)
      requires Valid()
      modifies this
      ensures Valid()
      ensures chats == Stored(old(chats), chatId, EntryOf(old(chats), chatId).(defaultEngine := NormalizeText(engine)))
      ensures GetDefaultEngine(chatId) == NormalizeText(engine)
    {
      EO.NormalizeValueIdempotent(engine);
      StoredView(chats, chatId, EntryOf(chats, chatId).(defaultEngine := NormalizeText(engine)));
      var normalized := NormalizeText(engine);
      var chat := GetChat(chatId);
      StoredKeepsNoEmpty(chats, chatId, EntryOf(chats, chatId).(defaultEngine := normalized));
      if normalized.None? {
        if chat.None? {
          return;
        }
        Store(chatId, chat.value.(defaultEngine := None));
        return;
      }
      Store(chatId, EntryOf(chats, chatId).(defaultEngine := normalized));
    }

    /** `set_trigger_mode`; `clear_trigger_mode` is the call with `None`. */
    method SetTriggerMode(chatId: int, mode: Option<string>)
      requires Valid()
      modifies this
      ensures Valid()
      ensures chats == Stored(old(chats), chatId, EntryOf(old(chats), chatId).(triggerMode := NormalizeTriggerMode(mode)))
      ensures GetTriggerMode(chatId) == NormalizeTriggerMode(mode)
    {
      var normalized := NormalizeTriggerMode(mode);
      var chat := GetChat(chatId);
      ghost var updated := EntryOf(chats, chatId).(triggerMode := normalized);
      TriggerModeWritten(chats, chatId, mode);
      if normalized.None? {
        if chat.None? {
          ClearAbsentIsNoOp(chats, chatId, updated);
          return;
        }
        Store(chatId, chat.value.(triggerMode := None));
        return;
      }
      Store(chatId, EntryOf(chats, chatId).(triggerMode := normalized));
    }

    /** `set_context`; `clear_context` is the call with `None`. Without a
        project both the project and the branch are cleared. */
    method SetContext(chatId: int, context: Option<Model.RunContext>)
      requires Valid()
      modifies this
      ensures Valid()
      ensures chats == Stored(old(chats), chatId, EntryOf(old(chats), chatId).(contextProject := ContextProject(context),
                                                                                  contextBranch := ContextBranch(context)))
      ensures GetContext(chatId) == if ContextProject(context).None? then None
                                    else Some(Model.RunContext(ContextProject(context), ContextBranch(context)))
    {
      ghost var p := EntryOf(chats, chatId).(contextProject := ContextProject(context), contextBranch := ContextBranch(context));
      StoredContext(chats, chatId, context);
      StoredKeepsNoEmpty(chats, chatId, p);
      var project := if context.Some? then NormalizeText(context.value.project) else None;
      var branch := if context.Some? then NormalizeText(context.value.branch) else None;
      var chat := GetChat(chatId);
      if project.None? {
        if chat.None? {
          NoChatNoContext(chats, chatId, context);
          return;
        }
        Store(chatId, chat.value.(contextProject := None, contextBranch := None));
        return;
      }
      Store(chatId, EntryOf(chats, chatId).(contextProject := project, contextBranch := branch));
    }

    /** `set_engine_override`; `clear_engine_override` is the call with
        `None`. A blank engine id changes nothing. */
    method SetEngineOverride(chatId: int, engine: string, override: Option<EO.Overrides>)
      requires Valid()
      modifies this
      ensures Valid()
      ensures NormalizeEngineId(Some(engine)).None? ==> chats == old(chats)
      ensures NormalizeEngineId(Some(engine)).Some? ==>
                chats == Stored(old(chats), chatId, EntryOf(old(chats), chatId).(engineOverrides :=
                  WithOverride(EntryOf(old(chats), chatId).engineOverrides, NormalizeEngineId(Some(engine)).value, override)))
      ensures NormalizeEngineId(Some(engine)).Some? ==> GetEngineOverride(chatId, engine) == EO.NormalizeOverrides(override)
    {
      var engineKey := NormalizeEngineId(Some(engine));
      if engineKey.None? {
        return;
      }
      var key := engineKey.value;
      var normalized := EO.NormalizeOverrides(override);
      var chat := GetChat(chatId);
      var entry := EntryOf(chats, chatId);
      ghost var updated := entry.(engineOverrides := WithOverride(entry.engineOverrides, key, override));
      StoredKeepsNoEmpty(chats, chatId, updated);
      StoredView(chats, chatId, updated);
      EO.NormalizeOverridesIdempotent(override);
      assert OverrideView(updated.engineOverrides, key) == EO.NormalizeOverrides(override);
      if normalized.None? {
        if chat.None? {
          assert updated.engineOverrides == map[];
          ClearAbsentIsNoOp(chats, chatId, updated);
          return;
        }
        assert chat.value.(engineOverrides := chat.value.engineOverrides - {key}) == updated;
        Store(chatId, chat.value.(engineOverrides := chat.value.engineOverrides - {key}));
        return;
      }
      assert entry.(engineOverrides := entry.engineOverrides[key := normalized.value]) == updated;
      Store(chatId, entry.(engineOverrides := entry.engineOverrides[key := normalized.value]));
    }
  }

  /** The project `set_context` stores. */
  function ContextProject(context: Option<Model.RunContext>): Option<string> {
    if context.Some? then NormalizeText(context.value.project) else None
  }

  /** The branch `set_context` stores: none without a project. */
  function ContextBranch(context: Option<Model.RunContext>): (r: Option<string>)
    ensures ContextProject(context).None? ==> r.None?
  {
    if ContextProject(context).None? then None else NormalizeText(context.value.branch)
  }

  /** After `set_context` the chat reads back the context's project and branch. */
  lemma StoredContext(chats: map<string, Prefs>, chatId: int, context: Option<Model.RunContext>)
    ensures var q := EntryOf(Stored(chats, chatId, EntryOf(chats, chatId).(contextProject := ContextProject(context),
                                                                            contextBranch := ContextBranch(context))), chatId);
            NormalizeText(q.contextProject) == ContextProject(context) && NormalizeText(q.contextBranch) == ContextBranch(context)
  {
    ContextNormalized(context);
    StoredView(chats, chatId, EntryOf(chats, chatId).(contextProject := ContextProject(context),
                                                      contextBranch := ContextBranch(context)));
  }

  /** Clearing the context of a chat that has no entry leaves the store as it was. */
  lemma NoChatNoContext(chats: map<string, Prefs>, chatId: int, context: Option<Model.RunContext>)
    requires ChatKey(chatId) !in chats && ContextProject(context).None?
    ensures Stored(chats, chatId, EntryOf(chats, chatId).(contextProject := ContextProject(context),
                                                          contextBranch := ContextBranch(context))) == chats
  {
    assert chats - {ChatKey(chatId)} == chats;
  }

  /** What `set_context` stores is already normalised. */
  lemma ContextNormalized(context: Option<Model.RunContext>)
    ensures NormalizeText(ContextProject(context)) == ContextProject(context)
    ensures NormalizeText(ContextBranch(context)) == ContextBranch(context)
  {
    if context.Some? {
      EO.NormalizeValueIdempotent(context.value.project);
      if ContextProject(context).Some? {
        EO.NormalizeValueIdempotent(context.value.branch);
      }
    }
  }

  /** The overrides after setting one engine's: a normalised value is
      stored, and none removes the engine's entry. */
  function WithOverride(overrides: map<string, EO.Overrides>, key: string, override: Option<EO.Overrides>): (r: map<string, EO.Overrides>)
    ensures EO.NormalizeOverrides(override).None? ==> key !in r
    ensures EO.NormalizeOverrides(override).Some? ==> key in r && r[key] == EO.NormalizeOverrides(override).value
    ensures forall k :: k != key ==> (k in r <==> k in overrides) && (k in r ==> r[k] == overrides[k])
  {
    match EO.NormalizeOverrides(override)
    case None => overrides - {key}
    case Some(o) => overrides[key := o]
  }
}
