/** Per-engine model and reasoning overrides set on a topic or a chat, and
    how the two layers combine. */
module EngineOverrides {
  import opened Wrappers
  import Text

  datatype Overrides = Overrides(model: Option<string>, reasoning: Option<string>)

  datatype Field = ModelField | ReasoningField

  datatype OverrideSource = TopicOverride | ChatDefaultSource | DefaultSource

  datatype OverrideValueResolution = OverrideValueResolution(
    value: Option<string>, source: OverrideSource, topicValue: Option<string>, chatValue: Option<string>)

  const REASONING_LEVELS: seq<string> := ["minimal", "low", "medium", "high", "xhigh"]

  /** Only codex accepts a reasoning level. */
  predicate SupportsReasoning(engine: string) {
    engine == "codex"
  }

  /** The same five levels for every engine. */
  function AllowedReasoningLevels(engine: string): (r: seq<string>)
    ensures |r| == 5 && "medium" in r && "xhigh" in r
  {
    REASONING_LEVELS
  }

  /** `normalize_override_value`: stripped, and blank means unset. */
  function NormalizeValue(value: Option<string>): (r: Option<string>)
    ensures r.None? <==> value.None? || Text.AllSpace(value.value)
    ensures r.Some? ==> r.value != [] && r.value == Text.Strip(value.value)
  {
    if value.None? then None
    else
      var cleaned := Text.Strip(value.value);
      if cleaned == [] then None else Some(cleaned)
  }

  /** Normalising twice is normalising once. */
  lemma NormalizeValueIdempotent(value: Option<string>)
    ensures NormalizeValue(NormalizeValue(value)) == NormalizeValue(value)
  {
    if value.Some? && Text.Strip(value.value) != [] {
      Text.StripTight(Text.Strip(value.value));
    }
  }

  function FieldOf(o: Overrides, field: Field): Option<string> {
    match field
    case ModelField => o.model
    case ReasoningField => o.reasoning
  }

  /** The field of an optional layer. */
  function RawField(o: Option<Overrides>, field: Field): Option<string> {
    if o.Some? then FieldOf(o.value, field) else None
  }

  /** `normalize_overrides`: both fields normalised, and nothing left means no overrides. */
  function NormalizeOverrides(overrides: Option<Overrides>): (r: Option<Overrides>)
    ensures r.None? <==> overrides.None? || (NormalizeValue(overrides.value.model).None? && NormalizeValue(overrides.value.reasoning).None?)
    ensures r.Some? ==> r.value == Overrides(NormalizeValue(overrides.value.model), NormalizeValue(overrides.value.reasoning))
  {
    if overrides.None? then None
    else
      var model := NormalizeValue(overrides.value.model);
      var reasoning := NormalizeValue(overrides.value.reasoning);
      if model.None? && reasoning.None? then None else Some(Overrides(model, reasoning))
  }

  /** Normalising overrides twice is normalising them once. */
  lemma NormalizeOverridesIdempotent(overrides: Option<Overrides>)
    ensures NormalizeOverrides(NormalizeOverrides(overrides)) == NormalizeOverrides(overrides)
  {
    if overrides.Some? {
      var model := NormalizeValue(overrides.value.model);
      var reasoning := NormalizeValue(overrides.value.reasoning);
      if model.Some? || reasoning.Some? {
        assert NormalizeOverrides(overrides) == Some(Overrides(model, reasoning));
        NormalizeValueIdempotent(overrides.value.model);
        NormalizeValueIdempotent(overrides.value.reasoning);
        NormalizedStable(model, reasoning);
      }
    }
  }

  /** Overrides whose fields are already normalised normalise to themselves. */
  lemma NormalizedStable(model: Option<string>, reasoning: Option<string>)
    requires NormalizeValue(model) == model && NormalizeValue(reasoning) == reasoning
    requires model.Some? || reasoning.Some?
    ensures NormalizeOverrides(Some(Overrides(model, reasoning))) == Some(Overrides(model, reasoning))
  {
  }

  /** `merge_overrides`: each field from the topic when the topic sets it, else from the chat. */
  function MergeOverrides(topicOverride: Option<Overrides>, chatOverride: Option<Overrides>): (r: Option<Overrides>)
    ensures r.Some? ==> r.value.model.Some? || r.value.reasoning.Some?
  {
    var topic := NormalizeOverrides(topicOverride);
    var chat := NormalizeOverrides(chatOverride);
    if topic.None? && chat.None? then None
    else
      var model := if topic.Some? && topic.value.model.Some? then topic.value.model
                   else if chat.Some? then chat.value.model else None;
      var reasoning := if topic.Some? && topic.value.reasoning.Some? then topic.value.reasoning
                       else if chat.Some? then chat.value.reasoning else None;
      NormalizeOverrides(Some(Overrides(model, reasoning)))
  }

  /** `resolve_override_value`: the topic's value, then the chat's, then none, with its source. */
  function ResolveOverrideValue(topicOverride: Option<Overrides>, chatOverride: Option<Overrides>, field: Field): (r: OverrideValueResolution)
    ensures r.topicValue == NormalizeValue(RawField(topicOverride, field))
    ensures r.chatValue == NormalizeValue(RawField(chatOverride, field))
    ensures r.source == TopicOverride <==> r.topicValue.Some?
    ensures r.source == ChatDefaultSource <==> r.topicValue.None? && r.chatValue.Some?
    ensures r.value.None? <==> r.source == DefaultSource
  {
    var topicValue := NormalizeValue(RawField(topicOverride, field));
    var chatValue := NormalizeValue(RawField(chatOverride, field));
    if topicValue.Some? then OverrideValueResolution(topicValue, TopicOverride, topicValue, chatValue)
    else if chatValue.Some? then OverrideValueResolution(chatValue, ChatDefaultSource, topicValue, chatValue)
    else OverrideValueResolution(None, DefaultSource, topicValue, chatValue)
  }

  /** A normalised layer holds the normalised value of each field. */
  lemma LayerField(o: Option<Overrides>, field: Field)
    ensures NormalizeOverrides(o).None? ==> NormalizeValue(RawField(o, field)).None?
    ensures NormalizeOverrides(o).Some? ==> FieldOf(NormalizeOverrides(o).value, field) == NormalizeValue(RawField(o, field))
  {
  }

  /** Merging the two layers and resolving one field agree: the merged
      overrides hold, for each field, exactly the value the resolution picks. */
  lemma MergeAgreesWithResolve(topicOverride: Option<Overrides>, chatOverride: Option<Overrides>, field: Field)
    ensures var merged := MergeOverrides(topicOverride, chatOverride);
      var resolved := ResolveOverrideValue(topicOverride, chatOverride, field).value;
      (merged.None? ==> resolved.None?) && (merged.Some? ==> FieldOf(merged.value, field) == resolved)
  {
    var t := NormalizeOverrides(topicOverride);
    var c := NormalizeOverrides(chatOverride);
    if t.None? && c.None? {
      LayerField(topicOverride, field);
      LayerField(chatOverride, field);
    } else {
      MergeIsPick(topicOverride, chatOverride);
      PickIsResolved(topicOverride, chatOverride, field);
      assert FieldOf(Overrides(Pick(t, c, ModelField), Pick(t, c, ReasoningField)), field) == Pick(t, c, field);
    }
  }

  /** The field a merge takes from two normalised layers: the topic's when set, else the chat's. */
  function Pick(t: Option<Overrides>, c: Option<Overrides>, field: Field): Option<string> {
    if t.Some? && FieldOf(t.value, field).Some? then FieldOf(t.value, field)
    else if c.Some? then FieldOf(c.value, field) else None
  }

  /** A field of a normalised layer is already normalised. */
  lemma NormalizedField(o: Option<Overrides>, field: Field)
    requires NormalizeOverrides(o).Some?
    ensures NormalizeValue(FieldOf(NormalizeOverrides(o).value, field)) == FieldOf(NormalizeOverrides(o).value, field)
  {
    LayerField(o, field);
    NormalizeValueIdempotent(RawField(o, field));
  }

  /** With some layer set, the merge holds the picked fields. */
  lemma MergeIsPick(topicOverride: Option<Overrides>, chatOverride: Option<Overrides>)
    requires NormalizeOverrides(topicOverride).Some? || NormalizeOverrides(chatOverride).Some?
    ensures var t := NormalizeOverrides(topicOverride);
            var c := NormalizeOverrides(chatOverride);
            MergeOverrides(topicOverride, chatOverride) == Some(Overrides(Pick(t, c, ModelField), Pick(t, c, ReasoningField)))
  {
    var t := NormalizeOverrides(topicOverride);
    var c := NormalizeOverrides(chatOverride);
    PickNormalized(topicOverride, chatOverride, ModelField);
    PickNormalized(topicOverride, chatOverride, ReasoningField);
    PickSet(topicOverride, chatOverride);
    NormalizedStable(Pick(t, c, ModelField), Pick(t, c, ReasoningField));
    MergeOfPick(topicOverride, chatOverride);
  }

  /** A picked field is already normalised. */
  lemma PickNormalized(topicOverride: Option<Overrides>, chatOverride: Option<Overrides>, field: Field)
    ensures var p := Pick(NormalizeOverrides(topicOverride), NormalizeOverrides(chatOverride), field);
            NormalizeValue(p) == p
  {
    var t := NormalizeOverrides(topicOverride);
    var c := NormalizeOverrides(chatOverride);
    if t.Some? && FieldOf(t.value, field).Some? {
      NormalizedField(topicOverride, field);
    } else if c.Some? {
      NormalizedField(chatOverride, field);
    }
  }

  /** With some layer set, some field is picked. */
  lemma PickSet(topicOverride: Option<Overrides>, chatOverride: Option<Overrides>)
    requires NormalizeOverrides(topicOverride).Some? || NormalizeOverrides(chatOverride).Some?
    ensures var t := NormalizeOverrides(topicOverride);
            var c := NormalizeOverrides(chatOverride);
            Pick(t, c, ModelField).Some? || Pick(t, c, ReasoningField).Some?
  {
    if NormalizeOverrides(topicOverride).Some? {
      LayerSet(topicOverride);
    } else {
      LayerSet(chatOverride);
    }
  }

  /** The merge normalises the picked fields. */
  lemma MergeOfPick(topicOverride: Option<Overrides>, chatOverride: Option<Overrides>)
    requires NormalizeOverrides(topicOverride).Some? || NormalizeOverrides(chatOverride).Some?
    ensures var t := NormalizeOverrides(topicOverride);
            var c := NormalizeOverrides(chatOverride);
            MergeOverrides(topicOverride, chatOverride) == NormalizeOverrides(Some(Overrides(Pick(t, c, ModelField), Pick(t, c, ReasoningField))))
  {
  }

  /** A normalised layer that is there sets a field. */
  lemma LayerSet(o: Option<Overrides>)
    requires NormalizeOverrides(o).Some?
    ensures FieldOf(NormalizeOverrides(o).value, ModelField).Some? || FieldOf(NormalizeOverrides(o).value, ReasoningField).Some?
  {
  }

  /** The picked field is the value the resolution gives. */
  lemma PickIsResolved(topicOverride: Option<Overrides>, chatOverride: Option<Overrides>, field: Field)
    ensures Pick(NormalizeOverrides(topicOverride), NormalizeOverrides(chatOverride), field)
         == ResolveOverrideValue(topicOverride, chatOverride, field).value
  {
    LayerField(topicOverride, field);
    LayerField(chatOverride, field);
  }
}
