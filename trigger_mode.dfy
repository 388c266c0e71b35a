/** Whether a chat message should start a run: in `mentions` mode only
    messages addressed to the bot do. */
module TriggerMode {
  import opened Wrappers
  import Text
  import CommandParse

  datatype TriggerMode = All | Mentions

  /** `resolve_trigger_mode`: `mentions` when the topic says so (read only
      when there is a topic store and a thread), else when the chat says so;
      `all` otherwise. The stores' answers are given as the values they
      return for this chat and thread. */
  function ResolveTriggerMode(threadId: Option<int>, hasTopicStore: bool, topicMode: Option<string>,
                              hasChatPrefs: bool, chatMode: Option<string>): (r: TriggerMode)
    ensures r == Mentions <==>
      (hasTopicStore && threadId.Some? && topicMode == Some("mentions")) || (hasChatPrefs && chatMode == Some("mentions"))
  {
    if hasTopicStore && threadId.Some? && topicMode == Some("mentions") then Mentions
    else if hasChatPrefs && chatMode == Some("mentions") then Mentions
    else All
  }

  datatype IncomingMessage = IncomingMessage(
    text: Option<string>,
    threadId: Option<int>,
    replyToMessageId: Option<int>,
    replyToIsBot: bool,
    replyToUsername: Option<string>)

  /** What the runtime knows of command, engine and project names. */
  datatype KnownIds = KnownIds(
    commandIds: set<string>, reservedChatCommands: set<string>, engineIds: seq<string>, projectAliases: seq<string>)

  /** A reply to the topic's opening message is how a topic thread looks, not a reply to the bot. */
  predicate ImplicitTopicReply(msg: IncomingMessage) {
    msg.threadId.Some? && msg.replyToMessageId == msg.threadId
  }

  predicate Mentioned(msg: IncomingMessage, botUsername: Option<string>) {
    botUsername.Some? && botUsername.value != []
    && Text.Contains(Text.Lower(msg.text.GetOr([])), "@" + botUsername.value)
  }

  predicate RepliesToBot(msg: IncomingMessage, botUsername: Option<string>) {
    !ImplicitTopicReply(msg) &&
      (msg.replyToIsBot
       || (botUsername.Some? && botUsername.value != [] && msg.replyToUsername.Some? && msg.replyToUsername.value != []
           && Text.Lower(msg.replyToUsername.value) == botUsername.value))
  }

  predicate LowerIn(name: string, names: seq<string>) {
    exists i :: 0 <= i < |names| && Text.Lower(names[i]) == name
  }

  /** A slash command the bot answers: reserved, a plugin command, an engine or a project. */
  predicate KnownCommand(commandId: string, ids: KnownIds) {
    commandId in ids.reservedChatCommands || commandId in ids.commandIds
    || LowerIn(commandId, ids.engineIds) || LowerIn(commandId, ids.projectAliases)
  }

  /** `should_trigger_run`. */
  function ShouldTriggerRun(msg: IncomingMessage, botUsername: Option<string>, ids: KnownIds): (r: bool)
    ensures Mentioned(msg, botUsername) ==> r
    ensures RepliesToBot(msg, botUsername) ==> r
    ensures !Mentioned(msg, botUsername) && !RepliesToBot(msg, botUsername) ==>
      (r <==> var c := CommandParse.ParseSlashCommand(msg.text.GetOr([])).0; c.Some? && c.value != [] && KnownCommand(c.value, ids))
  {
    var text := msg.text.GetOr([]);
    var lowered := Text.Lower(text);
    if botUsername.Some? && botUsername.value != [] && Text.Contains(lowered, "@" + botUsername.value) then true
    else
      var implicitTopicReply := msg.threadId.Some? && msg.replyToMessageId == msg.threadId;
      if msg.replyToIsBot && !implicitTopicReply then true
      else if botUsername.Some? && botUsername.value != [] && msg.replyToUsername.Some? && msg.replyToUsername.value != []
              && Text.Lower(msg.replyToUsername.value) == botUsername.value && !implicitTopicReply then true
      else
        var (commandId, _) := CommandParse.ParseSlashCommand(text);
        if commandId.None? || commandId.value == [] then false
        else if commandId.value in ids.reservedChatCommands || commandId.value in ids.commandIds then true
        else if LowerIn(commandId.value, ids.engineIds) then true
        else LowerIn(commandId.value, ids.projectAliases)
  }

  /** In a topic, the implicit reply to the topic's first message does not
      by itself start a run: plain text that mentions nobody stays silent. */
  lemma ImplicitTopicReplyIsSilent(msg: IncomingMessage, botUsername: Option<string>, ids: KnownIds)
    requires ImplicitTopicReply(msg)
    requires !Mentioned(msg, botUsername)
    requires CommandParse.ParseSlashCommand(msg.text.GetOr([])).0.None?
    ensures !ShouldTriggerRun(msg, botUsername, ids)
  {
  }

  /** `/engine args` or `/engine@bot args` starts a run in any mode when the
      engine is known, case-insensitively. */
  lemma EngineCommandTriggers(msg: IncomingMessage, botUsername: Option<string>, ids: KnownIds,
                              name: string, suffix: string, args: string, e: nat)
    requires name != [] && '@' !in name
    requires suffix == [] || suffix[0] == '@'
    requires forall i :: 0 <= i < |name + suffix| ==> !Text.IsSpace((name + suffix)[i])
    requires forall i :: 0 <= i < |args| ==> !Text.IsLineBreak(args[i])
    requires msg.text == Some("/" + name + suffix + " " + args)
    requires e < |ids.engineIds| && Text.Lower(ids.engineIds[e]) == Text.Lower(name)
    ensures ShouldTriggerRun(msg, botUsername, ids)
  {
    CommandParse.SlashCommandOneLine(name, suffix, args);
    assert Text.Lower(name) != [];
  }
}
