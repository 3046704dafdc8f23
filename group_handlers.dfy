/**
 * The group-chat handlers with the transport stripped: what each handler
 * reads and writes in `BotMemory`, how it moves the per-chat settings-editor
 * token `active_settings_user` (chat id to user id), and what it answers.
 * Replies are values of `Reply`; keyboards are the callback payloads they
 * carry. Whether a user administers a chat is a bot-API call and enters as
 * the opaque predicate `isAdmin(chatId, userId)`.
 */
module GroupHandlers {
  import opened Wrappers
  import opened CallbackData
  import opened Memory

  /** What a handler answers, with the chat-platform calls stripped. */
  datatype Reply =
    | OnlyAdmins                                   // MESSAGES[lang]["only_admins"]
    | SettingsInUse                                // MESSAGES[lang]["settings_in_use"]
    | Malformed                                    // the payload does not parse: the handler raises before acting
    | LanguageMenu(buttons: seq<string>)           // the /start keyboard
    | LanguageSet(code: string)
    | SettingsMenu(intelligence: int, frequency: int, buttons: seq<string>)
    | LevelMenu(current: int, buttons: seq<string>)
    | LevelSet(level: int)                         // "... set!"
    | Prompt(chatId: int)                          // "Reply with a number (0-100) ..."
    | NotThePrompt                                 // a reply to some other message: ignored
    | InvalidRange                                 // MESSAGES[lang]["invalid_range"]
    | Recorded                                     // an ordinary group message: stored, answered at random
    | NoHandler                                    // no registered filter matches

  /** `title or "Unnamed Chat"`. */
  function TitleOr(title: Option<string>): (t: string)
    ensures title.Some? && title.value != "" ==> t == title.value
    ensures t != ""
  {
    if title.Some? && title.value != "" then title.value else "Unnamed Chat"
  }

  /** The kind and payload `handle_group_message` stores: the text if any, else the sticker's file id. */
  function Content(text: Option<string>, stickerId: Option<string>): (c: Option<(string, string)>)
    ensures c.Some? ==> c.value.1 != "" && (c.value.0 == "text" || c.value.0 == "sticker")
    ensures text.Some? && text.value != "" ==> c == Some(("text", text.value))
    ensures c.Some? && c.value.0 == "sticker" ==> (text.None? || text.value == "") && stickerId == Some(c.value.1)
    ensures c.None? <==> (text.None? || text.value == "") && (stickerId.None? || stickerId.value == "")
  {
    if text.Some? && text.value != "" then Some(("text", text.value))
    else if stickerId.Some? && stickerId.value != "" then Some(("sticker", stickerId.value))
    else None
  }

  /** The `messages` table after `handle_group_message` has stored what the message carries, if anything. */
  function StoredMessages(messages: set<MessageRow>, chatId: int, text: Option<string>, stickerId: Option<string>)
    : (r: set<MessageRow>)
    ensures messages <= r
    ensures forall row :: row in r && row !in messages ==> row.0 == chatId && Content(text, stickerId) == Some((row.1, row.2))
    ensures Content(text, stickerId).Some? ==> (chatId, Content(text, stickerId).value.0, Content(text, stickerId).value.1) in r
  {
    match Content(text, stickerId)
    case None => messages
    case Some(c) => messages + {(chatId, c.0, c.1)}
  }

  // ---------------------------------------------------------------------
  // Keyboards

  /** The /start keyboard: one button per language. */
  function LanguageButtons(chatId: int): (bs: seq<string>)
    ensures |bs| == 3
    ensures forall k :: 0 <= k < 3 ==> Addresses(bs[k], LanguageSelection, chatId)
    ensures ParseLanguageData(bs[0]) == Some((chatId, "ru"))
    ensures ParseLanguageData(bs[1]) == Some((chatId, "uk"))
    ensures ParseLanguageData(bs[2]) == Some((chatId, "en"))
  {
    RouteLanguageData(chatId, "ru");
    RouteLanguageData(chatId, "uk");
    RouteLanguageData(chatId, "en");
    LanguageDataRoundTrip(chatId, "ru");
    LanguageDataRoundTrip(chatId, "uk");
    LanguageDataRoundTrip(chatId, "en");
    [LanguageData(chatId, "ru"), LanguageData(chatId, "uk"), LanguageData(chatId, "en")]
  }

  /** The "Settings:" keyboard of /settings and of the back button. */
  function SettingsButtons(chatId: int): (bs: seq<string>)
    ensures |bs| == 2
    ensures Addresses(bs[0], IntelMenu, chatId) && Addresses(bs[1], FreqMenu, chatId)
  {
    RouteIntelMenuData(chatId);
    RouteFreqMenuData(chatId);
    [IntelMenuData(chatId), FreqMenuData(chatId)]
  }

  /** The values the preset buttons of both menus offer, in button order. */
  const Presets: seq<int> := [0, 50, 100]

  /** The three preset buttons of the intelligence menu: 0, 50 and 100. */
  function IntelPresetButtons(chatId: int): (bs: seq<string>)
    ensures |bs| == |Presets|
    ensures forall k :: 0 <= k < |bs| ==> Addresses(bs[k], IntelSelection, chatId)
    ensures forall k :: 0 <= k < |bs| ==> ParseLevelData(bs[k]) == Some((chatId, Presets[k]))
  {
    var bs := seq(|Presets|, k requires 0 <= k < |Presets| => IntelLevelData(chatId, Presets[k]));
    assert forall k :: 0 <= k < |bs| ==> Addresses(bs[k], IntelSelection, chatId) && ParseLevelData(bs[k]) == Some((chatId, Presets[k])) by {
      forall k | 0 <= k < |bs|
        ensures Addresses(bs[k], IntelSelection, chatId) && ParseLevelData(bs[k]) == Some((chatId, Presets[k]))
      {
        RouteIntelLevelData(chatId, Presets[k]);
        IntelLevelDataRoundTrip(chatId, Presets[k]);
      }
    }
    bs
  }

  /** The intelligence menu: the presets, then the custom button, then the back button. */
  function IntelMenuButtons(chatId: int): (bs: seq<string>)
    ensures |bs| == 5 && bs[..3] == IntelPresetButtons(chatId)
    ensures Addresses(bs[3], CustomIntelPrompt, chatId) && Addresses(bs[4], BackToSettings, chatId)
  {
    RouteCustomIntelData(chatId);
    RouteBackData(chatId);
    IntelPresetButtons(chatId) + [CustomIntelData(chatId), BackData(chatId)]
  }

  /** The three preset buttons of the frequency menu: 0%, 50% and 100%. */
  function FreqPresetButtons(chatId: int): (bs: seq<string>)
    ensures |bs| == |Presets|
    ensures forall k :: 0 <= k < |bs| ==> Addresses(bs[k], FreqSelection, chatId)
    ensures forall k :: 0 <= k < |bs| ==> ParseLevelData(bs[k]) == Some((chatId, Presets[k]))
  {
    var bs := seq(|Presets|, k requires 0 <= k < |Presets| => FreqLevelData(chatId, Presets[k]));
    assert forall k :: 0 <= k < |bs| ==> Addresses(bs[k], FreqSelection, chatId) && ParseLevelData(bs[k]) == Some((chatId, Presets[k])) by {
      forall k | 0 <= k < |bs|
        ensures Addresses(bs[k], FreqSelection, chatId) && ParseLevelData(bs[k]) == Some((chatId, Presets[k]))
      {
        RouteFreqLevelData(chatId, Presets[k]);
        FreqLevelDataRoundTrip(chatId, Presets[k]);
      }
    }
    bs
  }

  /** The frequency menu: the presets, then the custom button, then the back button. */
  function FreqMenuButtons(chatId: int): (bs: seq<string>)
    ensures |bs| == 5 && bs[..3] == FreqPresetButtons(chatId)
    ensures Addresses(bs[3], CustomFreqPrompt, chatId) && Addresses(bs[4], BackToSettings, chatId)
  {
    RouteCustomFreqData(chatId);
    RouteBackData(chatId);
    FreqPresetButtons(chatId) + [CustomFreqData(chatId), BackData(chatId)]
  }

  /** The 0..100 check the custom-value handlers apply. */
  predicate InRange(value: int)
    ensures value in Presets ==> InRange(value)
    ensures InRange(value) ==> IsDigits(DecimalString(value))
  {
    0 <= value <= 100
  }

  // ---------------------------------------------------------------------
  // The handlers

  class Handlers {
    /** `active_settings_user`: the user holding the settings of each chat. */
    var activeSettingsUser: map<int, int>
    /** The conversation state of each (chat, user) pair that has one; absent means no state and no data. */
    var conversations: map<(int, int), Conversation>
    const memory: BotMemory

    constructor (memory: BotMemory)
      ensures this.memory == memory && activeSettingsUser == map[] && conversations == map[]
    {
      this.memory := memory;
      activeSettingsUser := map[];
      conversations := map[];
    }

    /** `await state.get_state()` for a user in a chat. */
    function StateOf(chatId: int, userId: int): Option<SettingsState>
      reads this
    {
      if (chatId, userId) in conversations then Some(conversations[(chatId, userId)].state) else None
    }

    /** The `message_id` stored in the user's conversation data, if any. */
    function PromptOf(chatId: int, userId: int): Option<int>
      reads this
    {
      if (chatId, userId) in conversations then Some(conversations[(chatId, userId)].promptId) else None
    }

    /** A digit reply that a custom-value handler accepts: from the holder, to the recorded prompt, within 0..100. */
    predicate AcceptsCustomValue(m: Message)
      reads this
    {
      IsDigitReply(m) && Holds(m.chatId, m.userId) && PromptOf(m.chatId, m.userId) == m.replyTo &&
      InRange(DigitsValue(m.text.value))
    }

    /** The guard of every menu, selection, custom and back handler. */
    predicate Holds(chatId: int, userId: int)
      reads this
      ensures Holds(chatId, userId) ==> chatId in activeSettingsUser
      ensures Holds(chatId, userId) ==> activeSettingsUser[chatId] == userId
    {
      chatId in activeSettingsUser && activeSettingsUser[chatId] == userId
    }

    /** `bot_added_to_group`: registers the chat when the new member is the bot itself. */
    method BotAddedToGroup(chatId: int, title: Option<string>, memberIsBot: bool)
      modifies memory
      ensures memory.messages == old(memory.messages)
      ensures memory.chats == if memberIsBot then WithChat(old(memory.chats), chatId, TitleOr(title)) else old(memory.chats)
    {
      if memberIsBot {
        var _ := memory.AddChat(chatId, TitleOr(title));
      }
    }

    /** The storing part of `handle_group_message`: register the chat if new, then store the content if unique. */
    method RecordGroupMessage(chatId: int, title: Option<string>, text: Option<string>, stickerId: Option<string>)
      modifies memory
      ensures memory.chats == WithChat(old(memory.chats), chatId, TitleOr(title))
      ensures memory.messages == StoredMessages(old(memory.messages), chatId, text, stickerId)
    {
      if chatId !in memory.chats {
        var _ := memory.AddChat(chatId, TitleOr(title));
      }
      match Content(text, stickerId)
      case None =>
      case Some(c) =>
        var seen := memory.MessageExists(chatId, c.0, c.1);
        if !seen {
          var _ := memory.AddMessage(chatId, c.0, c.1);
        }
    }

    /** `start_command`: offers the language keyboard to administrators. */
    method StartCommand(chatId: int, userId: int, isAdmin: (int, int) -> bool) returns (reply: Reply)
      ensures !isAdmin(chatId, userId) ==> reply == OnlyAdmins
      ensures isAdmin(chatId, userId) ==> reply == LanguageMenu(LanguageButtons(chatId))
    {
      if !isAdmin(chatId, userId) {
        return OnlyAdmins;
      }
      reply := LanguageMenu(LanguageButtons(chatId));
    }

    /** `process_language_selection`: an administrator sets the language; the settings token is not consulted. */
    method ProcessLanguageSelection(data: string, userId: int, isAdmin: (int, int) -> bool) returns (reply: Reply)
      modifies memory
      ensures memory.messages == old(memory.messages)
      ensures ParseLanguageData(data).None? ==> reply == Malformed && memory.chats == old(memory.chats)
      ensures ParseLanguageData(data).Some? ==>
        var (chatId, code) := ParseLanguageData(data).value;
        if !isAdmin(chatId, userId) then reply == OnlyAdmins && memory.chats == old(memory.chats)
        else reply == LanguageSet(code) &&
             memory.chats == WithLanguage(old(memory.chats), chatId, code)
    {
      match ParseLanguageData(data)
      case None =>
        return Malformed;
      case Some((chatId, code)) =>
        if !isAdmin(chatId, userId) {
          return OnlyAdmins;
        }
        var _ := memory.SetLanguage(chatId, code);
        reply := LanguageSet(code);
    }

    /** `settings_command`: an administrator takes the chat's settings unless another user holds them. */
    method SettingsCommand(chatId: int, userId: int, isAdmin: (int, int) -> bool) returns (reply: Reply)
      modifies this
      ensures conversations == old(conversations)
      ensures !isAdmin(chatId, userId) ==> reply == OnlyAdmins && activeSettingsUser == old(activeSettingsUser)
      ensures isAdmin(chatId, userId) && chatId in old(activeSettingsUser) && old(activeSettingsUser)[chatId] != userId ==>
                reply == SettingsInUse && activeSettingsUser == old(activeSettingsUser)
      ensures isAdmin(chatId, userId) && !(chatId in old(activeSettingsUser) && old(activeSettingsUser)[chatId] != userId) ==>
                activeSettingsUser == old(activeSettingsUser)[chatId := userId] &&
                reply == SettingsMenu(memory.Intelligence(chatId), memory.ResponseFrequency(chatId), SettingsButtons(chatId))
    {
      if !isAdmin(chatId, userId) {
        return OnlyAdmins;
      }
      if chatId in activeSettingsUser && activeSettingsUser[chatId] != userId {
        return SettingsInUse;
      }
      activeSettingsUser := activeSettingsUser[chatId := userId];
      var intelligence := memory.GetIntelligence(chatId);
      var frequency := memory.GetResponseFrequency(chatId);
      reply := SettingsMenu(intelligence, frequency, SettingsButtons(chatId));
    }

    /** `intel_menu`: the holder sees the intelligence presets. */
    method ShowIntelMenu(data: string, userId: int) returns (reply: Reply)
      ensures ParseTrailingId(data).None? ==> reply == Malformed
      ensures ParseTrailingId(data).Some? ==>
        var chatId := ParseTrailingId(data).value;
        reply == if Holds(chatId, userId) then LevelMenu(memory.Intelligence(chatId), IntelMenuButtons(chatId)) else SettingsInUse
    {
      match ParseTrailingId(data)
      case None =>
        return Malformed;
      case Some(chatId) =>
        if !Holds(chatId, userId) {
          return SettingsInUse;
        }
        var intelligence := memory.GetIntelligence(chatId);
        reply := LevelMenu(intelligence, IntelMenuButtons(chatId));
    }

    /** `freq_menu`: the holder sees the frequency presets. */
    method ShowFreqMenu(data: string, userId: int) returns (reply: Reply)
      ensures ParseTrailingId(data).None? ==> reply == Malformed
      ensures ParseTrailingId(data).Some? ==>
        var chatId := ParseTrailingId(data).value;
        reply == if Holds(chatId, userId) then LevelMenu(memory.ResponseFrequency(chatId), FreqMenuButtons(chatId)) else SettingsInUse
    {
      match ParseTrailingId(data)
      case None =>
        return Malformed;
      case Some(chatId) =>
        if !Holds(chatId, userId) {
          return SettingsInUse;
        }
        var frequency := memory.GetResponseFrequency(chatId);
        reply := LevelMenu(frequency, FreqMenuButtons(chatId));
    }

    /** `back_to_settings`: the holder is shown the settings keyboard again. */
    method ShowSettingsAgain(data: string, userId: int) returns (reply: Reply)
      ensures ParseTrailingId(data).None? ==> reply == Malformed
      ensures ParseTrailingId(data).Some? ==>
        var chatId := ParseTrailingId(data).value;
        reply == if Holds(chatId, userId)
                 then SettingsMenu(memory.Intelligence(chatId), memory.ResponseFrequency(chatId), SettingsButtons(chatId))
                 else SettingsInUse
    {
      match ParseTrailingId(data)
      case None =>
        return Malformed;
      case Some(chatId) =>
        if !Holds(chatId, userId) {
          return SettingsInUse;
        }
        var intelligence := memory.GetIntelligence(chatId);
        var frequency := memory.GetResponseFrequency(chatId);
        reply := SettingsMenu(intelligence, frequency, SettingsButtons(chatId));
    }

    /**
     * `process_custom_intelligence` and `process_custom_frequency`: the holder
     * is asked for a number; the caller's conversation state becomes `target`
     * and the prompt's message id is recorded.
     */
    method ProcessCustomPrompt(data: string, userId: int, target: SettingsState, messageId: int) returns (reply: Reply)
      modifies this
      ensures activeSettingsUser == old(activeSettingsUser)
      ensures ParseTrailingId(data).None? ==> reply == Malformed && conversations == old(conversations)
      ensures ParseTrailingId(data).Some? ==>
        var chatId := ParseTrailingId(data).value;
        if old(Holds(chatId, userId))
        then reply == Prompt(chatId) && conversations == old(conversations)[(chatId, userId) := Conversation(target, messageId)]
        else reply == SettingsInUse && conversations == old(conversations)
    {
      match ParseTrailingId(data)
      case None =>
        return Malformed;
      case Some(chatId) =>
        if !Holds(chatId, userId) {
          return SettingsInUse;
        }
        conversations := conversations[(chatId, userId) := Conversation(target, messageId)];
        reply := Prompt(chatId);
    }

    /** `process_intelligence_selection`: the holder stores a preset level; the token stays held. */
    method ProcessIntelligenceSelection(data: string, userId: int) returns (reply: Reply)
      modifies memory
      ensures memory.messages == old(memory.messages)
      ensures ParseLevelData(data).None? ==> reply == Malformed && memory.chats == old(memory.chats)
      ensures ParseLevelData(data).Some? ==>
        var (chatId, level) := ParseLevelData(data).value;
        if !Holds(chatId, userId) then reply == SettingsInUse && memory.chats == old(memory.chats)
        else reply == LevelSet(level) &&
             memory.chats == WithIntelligence(old(memory.chats), chatId, level)
    {
      match ParseLevelData(data)
      case None =>
        return Malformed;
      case Some((chatId, level)) =>
        if !Holds(chatId, userId) {
          return SettingsInUse;
        }
        var _ := memory.SetIntelligence(chatId, level);
        reply := LevelSet(level);
    }

    /** `process_frequency_selection`: the holder stores a preset frequency; the token stays held. */
    method ProcessFrequencySelection(data: string, userId: int) returns (reply: Reply)
      modifies memory
      ensures memory.messages == old(memory.messages)
      ensures ParseLevelData(data).None? ==> reply == Malformed && memory.chats == old(memory.chats)
      ensures ParseLevelData(data).Some? ==>
        var (chatId, freq) := ParseLevelData(data).value;
        if !Holds(chatId, userId) then reply == SettingsInUse && memory.chats == old(memory.chats)
        else reply == LevelSet(freq) &&
             memory.chats == WithResponseFrequency(old(memory.chats), chatId, freq)
    {
      match ParseLevelData(data)
      case None =>
        return Malformed;
      case Some((chatId, freq)) =>
        if !Holds(chatId, userId) {
          return SettingsInUse;
        }
        var _ := memory.SetResponseFrequency(chatId, freq);
        reply := LevelSet(freq);
    }

    /**
     * `set_custom_intelligence`: a digit reply from the holder to the recorded
     * prompt. A value in 0..100 is stored, clears the conversation and
     * releases the token; any other value is refused and nothing changes.
     */
    method SetCustomIntelligence(chatId: int, userId: int, text: string, replyTo: int) returns (reply: Reply)
      requires IsDigits(text)
      modifies this, memory
      ensures memory.messages == old(memory.messages)
      ensures !old(Holds(chatId, userId)) || old(PromptOf(chatId, userId)) != Some(replyTo) || !InRange(DigitsValue(text)) ==>
                activeSettingsUser == old(activeSettingsUser) && conversations == old(conversations) &&
                memory.chats == old(memory.chats) &&
                reply == (if !old(Holds(chatId, userId)) then SettingsInUse
                          else if old(PromptOf(chatId, userId)) != Some(replyTo) then NotThePrompt
                          else InvalidRange)
      ensures old(Holds(chatId, userId)) && old(PromptOf(chatId, userId)) == Some(replyTo) && InRange(DigitsValue(text)) ==>
                reply == LevelSet(DigitsValue(text)) &&
                activeSettingsUser == old(activeSettingsUser) - {chatId} &&
                conversations == old(conversations) - {(chatId, userId)} &&
                memory.chats == WithIntelligence(old(memory.chats), chatId, DigitsValue(text))
    {
      if !Holds(chatId, userId) {
        return SettingsInUse;
      }
      if PromptOf(chatId, userId) != Some(replyTo) {
        return NotThePrompt;
      }
      var level := DigitsValue(text);
      if !InRange(level) {
        return InvalidRange;
      }
      var _ := memory.SetIntelligence(chatId, level);
      reply := LevelSet(level);
      conversations := conversations - {(chatId, userId)};
      if chatId in activeSettingsUser {
        activeSettingsUser := activeSettingsUser - {chatId};
      }
    }

    /**
     * `set_custom_frequency`: a digit reply from the holder to the recorded
     * prompt. A value in 0..100 is stored, clears the conversation and
     * releases the token; any other value is refused and nothing changes.
     */
    method SetCustomFrequency(chatId: int, userId: int, text: string, replyTo: int) returns (reply: Reply)
      requires IsDigits(text)
      modifies this, memory
      ensures memory.messages == old(memory.messages)
      ensures !old(Holds(chatId, userId)) || old(PromptOf(chatId, userId)) != Some(replyTo) || !InRange(DigitsValue(text)) ==>
                activeSettingsUser == old(activeSettingsUser) && conversations == old(conversations) &&
                memory.chats == old(memory.chats) &&
                reply == (if !old(Holds(chatId, userId)) then SettingsInUse
                          else if old(PromptOf(chatId, userId)) != Some(replyTo) then NotThePrompt
                          else InvalidRange)
      ensures old(Holds(chatId, userId)) && old(PromptOf(chatId, userId)) == Some(replyTo) && InRange(DigitsValue(text)) ==>
                reply == LevelSet(DigitsValue(text)) &&
                activeSettingsUser == old(activeSettingsUser) - {chatId} &&
                conversations == old(conversations) - {(chatId, userId)} &&
                memory.chats == WithResponseFrequency(old(memory.chats), chatId, DigitsValue(text))
    {
      if !Holds(chatId, userId) {
        return SettingsInUse;
      }
      if PromptOf(chatId, userId) != Some(replyTo) {
        return NotThePrompt;
      }
      var freq := DigitsValue(text);
      if !InRange(freq) {
        return InvalidRange;
      }
      var _ := memory.SetResponseFrequency(chatId, freq);
      reply := LevelSet(freq);
      conversations := conversations - {(chatId, userId)};
      if chatId in activeSettingsUser {
        activeSettingsUser := activeSettingsUser - {chatId};
      }
    }

    /**
     * The callback-query side of the router: the payload goes to the first
     * handler whose prefix it carries. No callback handler touches the
     * settings token.
     */
    method OnCallback(data: string, userId: int, messageId: int, isAdmin: (int, int) -> bool) returns (reply: Reply)
      modifies this, memory
      ensures activeSettingsUser == old(activeSettingsUser)
      ensures memory.messages == old(memory.messages)
      ensures RouteCallback(data).None? ==> reply == NoHandler
      // every handler but the language one answers only a payload it can parse, and only to the holder
      ensures RouteCallback(data).Some? && RouteCallback(data) != Some(LanguageSelection) ==>
        var chatId := ChatIdFor(RouteCallback(data).value, data);
        (chatId.None? ==> reply == Malformed) && (chatId.Some? && !old(Holds(chatId.value, userId)) ==> reply == SettingsInUse)
      // only the two custom prompts change a conversation
      ensures RouteCallback(data) != Some(CustomIntelPrompt) && RouteCallback(data) != Some(CustomFreqPrompt) ==>
                conversations == old(conversations)
      ensures RouteCallback(data) == Some(CustomIntelPrompt) || RouteCallback(data) == Some(CustomFreqPrompt) ==>
        var chatId := ParseTrailingId(data);
        var target := if RouteCallback(data) == Some(CustomIntelPrompt) then CustomIntel else CustomFreq;
        conversations == if chatId.Some? && old(Holds(chatId.value, userId))
                         then old(conversations)[(chatId.value, userId) := Conversation(target, messageId)]
                         else old(conversations)
      // only the language and the two preset selections change the chats table
      ensures (RouteCallback(data) != Some(LanguageSelection) && RouteCallback(data) != Some(IntelSelection) &&
               RouteCallback(data) != Some(FreqSelection)) ==> memory.chats == old(memory.chats)
      ensures RouteCallback(data) == Some(LanguageSelection) ==>
        var p := ParseLanguageData(data);
        memory.chats == if p.Some? && isAdmin(p.value.0, userId)
                        then WithLanguage(old(memory.chats), p.value.0, p.value.1)
                        else old(memory.chats)
      ensures RouteCallback(data) == Some(IntelSelection) ==>
        var p := ParseLevelData(data);
        memory.chats == if p.Some? && old(Holds(p.value.0, userId))
                        then WithIntelligence(old(memory.chats), p.value.0, p.value.1)
                        else old(memory.chats)
      ensures RouteCallback(data) == Some(FreqSelection) ==>
        var p := ParseLevelData(data);
        memory.chats == if p.Some? && old(Holds(p.value.0, userId))
                        then WithResponseFrequency(old(memory.chats), p.value.0, p.value.1)
                        else old(memory.chats)
    {
      match RouteCallback(data)
      case None =>
        reply := NoHandler;
      case Some(h) =>
        match h
        case LanguageSelection =>
          reply := ProcessLanguageSelection(data, userId, isAdmin);
        case IntelMenu =>
          reply := ShowIntelMenu(data, userId);
        case IntelSelection =>
          reply := ProcessIntelligenceSelection(data, userId);
        case CustomIntelPrompt =>
          reply := ProcessCustomPrompt(data, userId, CustomIntel, messageId);
        case FreqMenu =>
          reply := ShowFreqMenu(data, userId);
        case FreqSelection =>
          reply := ProcessFrequencySelection(data, userId);
        case CustomFreqPrompt =>
          reply := ProcessCustomPrompt(data, userId, CustomFreq, messageId);
        case BackToSettings =>
          reply := ShowSettingsAgain(data, userId);
    }

    /**
     * The message side of the router, with the handlers registered in the
     * order `handlers`. Unless the message reaches a custom-value handler,
     * no chat loses its settings holder.
     */
    method OnMessage(handlers: seq<MessageHandler>, m: Message, isAdmin: (int, int) -> bool) returns (reply: Reply)
      modifies this, memory
      ensures RouteMessage(handlers, old(StateOf(m.chatId, m.userId)), m).None? ==>
                reply == NoHandler && memory.chats == old(memory.chats) && memory.messages == old(memory.messages) &&
                activeSettingsUser == old(activeSettingsUser) && conversations == old(conversations)
      ensures RouteMessage(handlers, old(StateOf(m.chatId, m.userId)), m) == Some(GroupMessageHandler) ==>
                reply == Recorded &&
                memory.chats == WithChat(old(memory.chats), m.chatId, TitleOr(m.title)) &&
                memory.messages == StoredMessages(old(memory.messages), m.chatId, m.text, m.stickerId) &&
                activeSettingsUser == old(activeSettingsUser) && conversations == old(conversations)
      ensures RouteMessage(handlers, old(StateOf(m.chatId, m.userId)), m) == Some(StartHandler) ==>
                reply == (if isAdmin(m.chatId, m.userId) then LanguageMenu(LanguageButtons(m.chatId)) else OnlyAdmins) &&
                memory.chats == old(memory.chats) && memory.messages == old(memory.messages) &&
                activeSettingsUser == old(activeSettingsUser) && conversations == old(conversations)
      ensures RouteMessage(handlers, old(StateOf(m.chatId, m.userId)), m) == Some(SettingsHandler) ==>
                memory.chats == old(memory.chats) && memory.messages == old(memory.messages) &&
                conversations == old(conversations) &&
                activeSettingsUser == if isAdmin(m.chatId, m.userId) &&
                                         !(m.chatId in old(activeSettingsUser) && old(activeSettingsUser)[m.chatId] != m.userId)
                                      then old(activeSettingsUser)[m.chatId := m.userId]
                                      else old(activeSettingsUser)
      ensures RouteMessage(handlers, old(StateOf(m.chatId, m.userId)), m) == Some(CustomIntelHandler) ==>
                memory.messages == old(memory.messages) &&
                if old(AcceptsCustomValue(m))
                then activeSettingsUser == old(activeSettingsUser) - {m.chatId} &&
                     conversations == old(conversations) - {(m.chatId, m.userId)} &&
                     memory.chats == WithIntelligence(old(memory.chats), m.chatId, DigitsValue(m.text.value))
                else activeSettingsUser == old(activeSettingsUser) && conversations == old(conversations) &&
                     memory.chats == old(memory.chats)
      ensures RouteMessage(handlers, old(StateOf(m.chatId, m.userId)), m) == Some(CustomFreqHandler) ==>
                memory.messages == old(memory.messages) &&
                if old(AcceptsCustomValue(m))
                then activeSettingsUser == old(activeSettingsUser) - {m.chatId} &&
                     conversations == old(conversations) - {(m.chatId, m.userId)} &&
                     memory.chats == WithResponseFrequency(old(memory.chats), m.chatId, DigitsValue(m.text.value))
                else activeSettingsUser == old(activeSettingsUser) && conversations == old(conversations) &&
                     memory.chats == old(memory.chats)
      ensures RouteMessage(handlers, old(StateOf(m.chatId, m.userId)), m) != Some(CustomIntelHandler) &&
              RouteMessage(handlers, old(StateOf(m.chatId, m.userId)), m) != Some(CustomFreqHandler) ==>
                old(activeSettingsUser).Keys <= activeSettingsUser.Keys
      ensures handlers == RegisteredAsWritten ==> old(activeSettingsUser).Keys <= activeSettingsUser.Keys
    {
      var state := StateOf(m.chatId, m.userId);
      match RouteMessage(handlers, state, m)
      case None =>
        reply := NoHandler;
      case Some(h) =>
        match h
        case GroupMessageHandler =>
          RecordGroupMessage(m.chatId, m.title, m.text, m.stickerId);
          reply := Recorded;
        case CustomIntelHandler =>
          CustomHandlersUnreachableAsWritten(state, m);
          reply := SetCustomIntelligence(m.chatId, m.userId, m.text.value, m.replyTo.value);
        case CustomFreqHandler =>
          CustomHandlersUnreachableAsWritten(state, m);
          reply := SetCustomFrequency(m.chatId, m.userId, m.text.value, m.replyTo.value);
        case StartHandler =>
          reply := StartCommand(m.chatId, m.userId, isAdmin);
        case SettingsHandler =>
          reply := SettingsCommand(m.chatId, m.userId, isAdmin);
    }
  }

  // ---------------------------------------------------------------------
  // Message routing

  /** `SettingsState`: the two conversation states the custom-value prompts set. */
  datatype SettingsState = CustomIntel | CustomFreq

  /** The FSM data a custom-value prompt records: its state and the prompt's message id. */
  datatype Conversation = Conversation(state: SettingsState, promptId: int)

  /** The parts of an incoming group message the handlers look at. */
  datatype Message = Message(
    chatId: int, userId: int, title: Option<string>,
    text: Option<string>, stickerId: Option<string>, replyTo: Option<int>)

  /** The message handlers of the group router. */
  datatype MessageHandler =
    | GroupMessageHandler      // handle_group_message
    | CustomIntelHandler       // set_custom_intelligence
    | CustomFreqHandler        // set_custom_frequency
    | StartHandler             // start_command
    | SettingsHandler          // settings_command

  /** Python's `str.isspace()` on one character: the characters `str.split()` breaks at. */
  predicate IsSpace(c: char)
  {
    c == ' ' || '\t' <= c <= '\r' || '\U{1c}' <= c <= '\U{1f}' || c == '\U{85}' || c == '\U{a0}' ||
    c == '\U{1680}' || '\U{2000}' <= c <= '\U{200a}' || c == '\U{2028}' || c == '\U{2029}' ||
    c == '\U{202f}' || c == '\U{205f}' || c == '\U{3000}'
  }

  /** `s.lstrip()`: the text from its first non-whitespace character on. */
  function TrimStart(s: string): (r: string)
    ensures |r| <= |s| && r == s[|s| - |r|..]
    ensures forall k :: 0 <= k < |s| - |r| ==> IsSpace(s[k])
    ensures |r| > 0 ==> !IsSpace(r[0])
  {
    if s != [] && IsSpace(s[0]) then TrimStart(s[1..]) else s
  }

  /**
   * `Command(name)`: the first whitespace-separated word of the text is
   * `/name`, possibly followed by `@` and a mention.
   */
  predicate IsCommand(text: Option<string>, name: string)
    ensures IsCommand(text, name) ==> text.Some? && |TrimStart(text.value)| > |name| && TrimStart(text.value)[0] == '/'
    ensures text == Some("/" + name) ==> IsCommand(text, name)
  {
    text.Some? &&
    var t := TrimStart(text.value);
    "/" + name <= t && (|t| == |name| + 1 || IsSpace(t[|name| + 1]) || t[|name| + 1] == '@')
  }

  /** `m.text and m.text.isdigit() and m.reply_to_message`. */
  predicate IsDigitReply(m: Message)
    ensures IsDigitReply(m) ==> m.text.Some? && IsDigits(m.text.value) && ParseInt(m.text.value) == Some(DigitsValue(m.text.value))
  {
    m.text.Some? && IsDigits(m.text.value) && m.replyTo.Some?
  }

  /** Whether handler `h`'s filters accept message `m` from a user whose conversation state is `state`. */
  predicate Accepts(h: MessageHandler, state: Option<SettingsState>, m: Message)
    ensures Accepts(h, state, m) && IsDigitReply(m) ==>
      h == GroupMessageHandler || (h == CustomIntelHandler && state == Some(CustomIntel)) ||
      (h == CustomFreqHandler && state == Some(CustomFreq))
    ensures (h == CustomIntelHandler || h == CustomFreqHandler) && Accepts(h, state, m) ==> IsDigitReply(m) && state.Some?
  {
    DigitsAreNotCommands(m, "start");
    DigitsAreNotCommands(m, "settings");
    match h
    case GroupMessageHandler => !IsCommand(m.text, "start") && !IsCommand(m.text, "settings")
    case CustomIntelHandler => state == Some(CustomIntel) && IsDigitReply(m)
    case CustomFreqHandler => state == Some(CustomFreq) && IsDigitReply(m)
    case StartHandler => IsCommand(m.text, "start")
    case SettingsHandler => IsCommand(m.text, "settings")
  }

  /** The message handlers in the order the decorators register them. */
  const RegisteredAsWritten: seq<MessageHandler> :=
    [GroupMessageHandler, CustomIntelHandler, CustomFreqHandler, StartHandler, SettingsHandler]

  /** The registration order with the custom-value handlers ahead of the catch-all. */
  const Registered: seq<MessageHandler> :=
    [CustomIntelHandler, CustomFreqHandler, GroupMessageHandler, StartHandler, SettingsHandler]

  /** The first handler in registration order whose filters accept the message. */
  function RouteMessage(handlers: seq<MessageHandler>, state: Option<SettingsState>, m: Message): (r: Option<MessageHandler>)
    ensures r.Some? ==> r.value in handlers && Accepts(r.value, state, m)
    ensures r.None? <==> forall h :: h in handlers ==> !Accepts(h, state, m)
  {
    if handlers == [] then None
    else if Accepts(handlers[0], state, m) then Some(handlers[0])
    else RouteMessage(handlers[1..], state, m)
  }

  /** A number is never a command. */
  lemma DigitsAreNotCommands(m: Message, name: string)
    ensures IsDigitReply(m) ==> !IsCommand(m.text, name)
  {
    if IsDigitReply(m) {
      assert IsDigit(m.text.value[0]);
    }
  }

  /** Any whitespace ends the command word, and whitespace before the command is skipped. */
  lemma CommandWordEndsAtWhitespace(name: string, c: char, rest: string)
    requires IsSpace(c)
    ensures IsCommand(Some("/" + name + [c] + rest), name)
    ensures IsCommand(Some([c] + "/" + name), name)
  {
    var t := "/" + name + [c] + rest;
    assert TrimStart(t) == t;
    assert t[|name| + 1] == c;
    assert ([c] + "/" + name)[1..] == "/" + name;
  }

  /** `/start` and `/settings` exclude each other. */
  lemma CommandsAreDistinct(text: Option<string>)
    ensures !(IsCommand(text, "start") && IsCommand(text, "settings"))
  {
    if IsCommand(text, "start") {
      var t := TrimStart(text.value);
      assert ("/" + "start")[2] == 't';
      assert t[2] == 't';
      assert ("/" + "settings")[2] != t[2];
    }
  }

  /** First match: the route is the earliest handler that accepts the message. */
  lemma {:induction false} RouteIsFirstAccepting(handlers: seq<MessageHandler>, state: Option<SettingsState>, m: Message, k: nat)
    requires k < |handlers| && Accepts(handlers[k], state, m)
    requires forall j :: 0 <= j < k ==> !Accepts(handlers[j], state, m)
    ensures RouteMessage(handlers, state, m) == Some(handlers[k])
  {
    if k > 0 {
      RouteIsFirstAccepting(handlers[1..], state, m, k - 1);
    }
  }

  /** As registered, a digit reply is taken by the catch-all, whatever the conversation state. */
  lemma DigitReplyTakenByCatchAll(state: Option<SettingsState>, m: Message)
    requires IsDigitReply(m)
    ensures RouteMessage(RegisteredAsWritten, state, m) == Some(GroupMessageHandler)
  {
    DigitsAreNotCommands(m, "start");
    DigitsAreNotCommands(m, "settings");
  }

  /** As registered, neither custom-value handler is ever reached. */
  lemma CustomHandlersUnreachableAsWritten(state: Option<SettingsState>, m: Message)
    ensures RouteMessage(RegisteredAsWritten, state, m) != Some(CustomIntelHandler)
    ensures RouteMessage(RegisteredAsWritten, state, m) != Some(CustomFreqHandler)
  {
    if IsDigitReply(m) {
      DigitReplyTakenByCatchAll(state, m);
    }
  }

  /** With the custom-value handlers first, a digit reply in a prompt state reaches the matching handler. */
  lemma CustomReplyReachesItsHandler(state: Option<SettingsState>, m: Message)
    requires IsDigitReply(m)
    ensures state == Some(CustomIntel) ==> RouteMessage(Registered, state, m) == Some(CustomIntelHandler)
    ensures state == Some(CustomFreq) ==> RouteMessage(Registered, state, m) == Some(CustomFreqHandler)
    ensures state.None? ==> RouteMessage(Registered, state, m) == Some(GroupMessageHandler)
  {
    DigitsAreNotCommands(m, "start");
    DigitsAreNotCommands(m, "settings");
    if state == Some(CustomFreq) {
      RouteIsFirstAccepting(Registered, state, m, 1);
    } else if state.None? {
      RouteIsFirstAccepting(Registered, state, m, 2);
    }
  }

  /** The two orders route alike every message that neither custom-value handler accepts. */
  lemma ReorderKeepsOtherRoutes(state: Option<SettingsState>, m: Message)
    requires !Accepts(CustomIntelHandler, state, m) && !Accepts(CustomFreqHandler, state, m)
    ensures RouteMessage(Registered, state, m) == RouteMessage(RegisteredAsWritten, state, m)
  {
  }

  /** `/start` and `/settings` reach their own handlers in either order. */
  lemma CommandsReachTheirHandlers(state: Option<SettingsState>, m: Message, handlers: seq<MessageHandler>)
    requires handlers == Registered || handlers == RegisteredAsWritten
    ensures IsCommand(m.text, "start") ==> RouteMessage(handlers, state, m) == Some(StartHandler)
    ensures IsCommand(m.text, "settings") ==> RouteMessage(handlers, state, m) == Some(SettingsHandler)
  {
    CommandsAreDistinct(m.text);
    if IsCommand(m.text, "start") || IsCommand(m.text, "settings") {
      assert !IsDigitReply(m) by {
        if IsDigitReply(m) {
          DigitsAreNotCommands(m, "start");
        }
      }
      RouteIsFirstAccepting(handlers, state, m, if IsCommand(m.text, "start") then 3 else 4);
    }
  }
}
