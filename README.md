# Uglyok group bot: text mutator, chat store and settings protocol

Uglyok is a Telegram group bot. It remembers what the members of a chat
say, answers them at random with remembered messages, and lets chat
administrators change three settings through inline keyboards: the
language, chosen from the keyboard of `/start`, and, through `/settings`, an
"intelligence" level and the response frequency. The intelligence level is
stored and shown in the menus. No handler in the repository's files calls
`modify_text`, so replies are sent as stored. This project models three
parts of it and proves properties about them:

- `TextModifier` (`text_modifier.dfy`) models `modify_text`, which garbles
  a text according to an intelligence level. Its branches give six bands:
  - a fresh random string at 0 and, through the recursive call, at every
    level below 20;
  - per-character corruption from 20 to 49;
  - adjacent swaps from 50 to 79;
  - a single-position overwrite from 80 to 99;
  - the text unchanged at exactly 100, by the early return;
  - the text unchanged above 100, by the fall-through return at the end.

  The random
  module is an explicit oracle `Rng` made of three streams of natural-number
  draws. Every property holds for every oracle.
- `Memory` (`memory.dfy`) models `BotMemory`, the SQLite store. It is a class
  with two fields:
  - the `chats` table, as a map from chat id to row;
  - the `messages` table, as a set of `(chat_id, type, content)` triples,
    because the table has a `UNIQUE` constraint.

  Each store method is a method on that state.
- `CallbackData` (`callback_data.dfy`) and `GroupHandlers`
  (`group_handlers.dfy`) model the settings protocol of the group handlers:
  - how inline-button payloads are formatted, and how `split("_")` and
    `int(...)` parse them back;
  - the first-match order in which handlers are registered;
  - the editor token `active_settings_user` (chat id to user id), which
    `/settings` acquires, every menu handler requires, and only an
    accepted custom value releases;
  - the per-user conversation state that a custom-value prompt records;
  - the 0..100 check on custom values.

  The handlers are methods of a `Handlers` class that holds the token map,
  the conversation map and the store.

`Wrappers` (`wrappers.dfy`) holds the `Option` type.

Three facts about the store shape the model:
- The three setters are `UPDATE`s. They do nothing for a chat that has no
  row and still report success; they never insert a row.
- Nothing is ever evicted from either table.
- Messages are stored whole and replayed whole. They are not split into
  sentences or words, and no fragment cache exists.

## Model

| member | source | states |
|---|---|---|
| `TextModifier.ModifyText` | utils/text_modifier.py:4-40 | Every band keeps the length of the text. Below 20, negatives included, the result is the band-0 random string. From 20 to 49, every character is kept or is a letter or space. From 50 to 79, the result is a permutation, and texts shorter than 2 come back unchanged. From 80 to 99, at most one position differs. At 100 and above, the text comes back unchanged. |
| `TextModifier.Scramble` | utils/text_modifier.py:5-7 | The band-0 string has the length of the text, and every character is an ASCII letter or a space. |
| `TextModifier.RandomLetter` | utils/text_modifier.py:7 | A choice from `ascii_letters + " "` is a member of that alphabet. |
| `TextModifier.Replaces` | utils/text_modifier.py:14-17 | The test `random.random() < (50 - i) / 30` always passes at 20 and below and never passes at 50 and above. |
| `TextModifier.CorruptedAt` | utils/text_modifier.py:16-20 | The character emitted at a position is the original or a letter or space. At 20 it is always a letter or space, and at 50 and above it is always the original. |
| `TextModifier.Pick` | utils/text_modifier.py:28 | `randint(0, n - 1)` lies below `n`. |
| `TextModifier.Corrupt` | utils/text_modifier.py:13-21 | The loop emits one character per input character: the random letter where the coin falls below `(50 - i) / 30`, otherwise the original. At 20, where that probability is 1, every character is replaced. |
| `TextModifier.SwapCount` | utils/text_modifier.py:23-25 | The number of swap iterations, `max(1, (80 - i) * len / 60)`, is at least one. |
| `TextModifier.SwapAdjacent` | utils/text_modifier.py:29 | Exchanging positions `i` and `i + 1` keeps the length. |
| `TextModifier.SwapAdjacentIsPermutation` | utils/text_modifier.py:29 | One swap keeps the multiset of characters. |
| `TextModifier.Swapped` | utils/text_modifier.py:25-29 | After `n` swaps the text keeps its length. Swap `n` acts on the text left by the first `n - 1`. |
| `TextModifier.SwappedIsPermutation` | utils/text_modifier.py:22-30 | Any number of swaps yields a permutation of the text. |
| `TextModifier.CopyInto` | utils/text_modifier.py:24 | `list(text)` holds exactly the characters of the text. |
| `TextModifier.SwapInPlace` | utils/text_modifier.py:29 | The in-place exchange leaves the array equal to the swapped sequence. |
| `TextModifier.Transpose` | utils/text_modifier.py:22-30 | The array loop computes `Swapped` for `max(1, num_swaps)` steps. It stops at once for texts shorter than 2, which therefore come back unchanged. The result is a permutation of the text. |
| `TextModifier.ChangeCount` | utils/text_modifier.py:32-34 | `max(1, int((100 - i) / 20))` is 1 for every level from 80 to 99. |
| `TextModifier.Overwritten` | utils/text_modifier.py:33-39 | Repeated single-position overwrites keep the length; empty text stays empty. |
| `TextModifier.DiffCountUpdate` | utils/text_modifier.py:38 | Assigning one position adds at most one difference. |
| `TextModifier.OverwrittenChanges` | utils/text_modifier.py:31-39 | After `n` overwrites, at most `n` positions differ from the text. Each position holds either its original character or a letter or space. |
| `TextModifier.DiffCountSame` | utils/text_modifier.py:31-39 | A text differs from itself nowhere. |
| `TextModifier.DiffCountZeroIffEqual` | utils/text_modifier.py:31-39 | Two texts of equal length have no differing position exactly when they are equal. This is what makes the difference count a measure of change. |
| `TextModifier.Overwrite` | utils/text_modifier.py:31-39 | The array loop computes `Overwritten` for `max(1, num_changes)` steps. At most that many positions change, and each changed one holds a letter or space. |
| `Memory.WithChat` | storage/memory.py:34-45 | The `INSERT` of `add_chat` adds the id to the table. A new id gets the title with `en`, 50 and 50. Every existing row, its title included, is unchanged. |
| `Memory.WithLanguage` | storage/memory.py:80-88 | The `UPDATE` keeps the set of chat ids. It changes only the language of the named chat's row, when there is one, and no other row. |
| `Memory.WithIntelligence` | storage/memory.py:100-108 | The `UPDATE` keeps the set of chat ids. It changes only the intelligence of the named chat's row, when there is one, and no other row. |
| `Memory.WithResponseFrequency` | storage/memory.py:120-128 | The `UPDATE` keeps the set of chat ids. It changes only the frequency of the named chat's row, when there is one, and no other row. |
| `Memory.NewChatRow` | storage/memory.py:16-18 | A new row carries the given title and the column defaults: language `en`, intelligence 50 and frequency 50. |
| `Memory.BotMemory.constructor` | storage/memory.py:12-31 | A new database file starts with both tables empty. |
| `Memory.BotMemory.TextContents` | storage/memory.py:130-138 | The candidates for a random reply are exactly the contents of the chat's `type = 'text'` rows. |
| `Memory.BotMemory.AddChat` | storage/memory.py:12-20 | (`add_chat` is lines 34-45.) It reports true exactly when the id is new. A new row gets the title, `en`, 50 and 50. An existing row, including its title, is left alone. Messages are untouched. |
| `Memory.BotMemory.AddMessage` | storage/memory.py:47-58 | It reports true exactly when the triple was not stored. Afterwards the triple is stored, and chats are untouched. |
| `Memory.BotMemory.MessageExists` | storage/memory.py:60-68 | It reports true exactly when the triple is stored. |
| `Memory.BotMemory.GetLanguage` | storage/memory.py:70-78 | It returns the row's language, or `en` for a chat without a row, and changes nothing. |
| `Memory.BotMemory.GetIntelligence` | storage/memory.py:90-98 | It returns the row's level, or 50 for a chat without a row, and changes nothing. |
| `Memory.BotMemory.GetResponseFrequency` | storage/memory.py:110-118 | It returns the row's frequency, or 50 for a chat without a row, and changes nothing. |
| `Memory.BotMemory.SetLanguage` | storage/memory.py:80-88 | It always reports true. It changes only the language of an existing row, and does nothing when the row is absent. |
| `Memory.BotMemory.SetIntelligence` | storage/memory.py:100-108 | It always reports true. It changes only the intelligence of an existing row, and does nothing when the row is absent. |
| `Memory.BotMemory.SetResponseFrequency` | storage/memory.py:120-128 | It always reports true. It changes only the frequency of an existing row, and does nothing when the row is absent. |
| `Memory.BotMemory.GetRandomMessage` | storage/memory.py:130-138 | It returns none exactly when the chat has no stored text message. Otherwise it returns the content of a stored `text` row of that chat, never a sticker. |
| `Memory.SettingsReadBack` | storage/memory.py:90-128 | On a chat with a row, each getter returns the value its setter just wrote. The title, the other chats and the messages stay as they were. |
| `Memory.UnknownChatReadsDefaults` | storage/memory.py:70-118 | A chat without a row reads `en`, 50 and 50, and reading creates no row. |
| `CallbackData.Split` | handlers/group_handlers.py:198 | `split("_")` yields at least one piece, and no piece contains `_`. |
| `CallbackData.SplitNoSep` | handlers/group_handlers.py:198 | A string without `_` splits into itself alone. |
| `CallbackData.SplitAfterHead` | handlers/group_handlers.py:198 | Splitting `a + "_" + b`, with `a` free of `_`, yields `a` followed by the pieces of `b`. |
| `CallbackData.JoinSplit` | handlers/group_handlers.py:198 | Joining the pieces with `_` gives back the string. |
| `CallbackData.SplitJoin` | handlers/group_handlers.py:198 | Splitting a join of `_`-free pieces gives back the pieces. |
| `CallbackData.NatString` | handlers/group_handlers.py:190 | `str(n)` of a natural number is a non-empty run of digits, with a leading `0` only for 0. |
| `CallbackData.DecimalString` | handlers/group_handlers.py:190 | `str(chat_id)` is non-empty, contains no `_`, and starts with a digit or `-`. |
| `CallbackData.NatStringValue` | handlers/group_handlers.py:199 | The value of the digits of `str(n)` is `n`. |
| `CallbackData.ParseDecimal` | handlers/group_handlers.py:199 | `int(str(n)) == n` for every integer, negative chat ids included. |
| `CallbackData.ParseInt` | handlers/group_handlers.py:199 | (The same `int(...)` is applied at lines 140, 253 and 277-278.) A digit string parses to its value. Anything that parses is non-empty, contains no `_`, and ends in a digit. A negative result comes from a leading `-`. |
| `CallbackData.LanguageData` | handlers/group_handlers.py:188-190 | `lang_{chat_id}_{code}` starts with `lang_`. For a code without `_`, it splits into `lang`, `str(chat_id)` and the code. |
| `CallbackData.IntelMenuData` | handlers/group_handlers.py:240 | `set_intel_menu_{chat_id}` starts with its prefix, and splits into `set`, `intel`, `menu` and `str(chat_id)`. |
| `CallbackData.FreqMenuData` | handlers/group_handlers.py:244 | `set_freq_menu_{chat_id}` starts with its prefix, and splits into `set`, `freq`, `menu` and `str(chat_id)`. |
| `CallbackData.IntelLevelData` | handlers/group_handlers.py:263-265 | `set_intel_{chat_id}_{level}` starts with `set_intel_`, and splits into `set`, `intel`, `str(chat_id)` and `str(level)`. |
| `CallbackData.FreqLevelData` | handlers/group_handlers.py:321-323 | `set_freq_{chat_id}_{level}` starts with `set_freq_`, and splits into `set`, `freq`, `str(chat_id)` and `str(level)`. |
| `CallbackData.CustomIntelData` | handlers/group_handlers.py:266 | `custom_intel_{chat_id}` starts with its prefix, and splits into `custom`, `intel` and `str(chat_id)`. |
| `CallbackData.CustomFreqData` | handlers/group_handlers.py:324 | `custom_freq_{chat_id}` starts with its prefix, and splits into `custom`, `freq` and `str(chat_id)`. |
| `CallbackData.BackData` | handlers/group_handlers.py:267 | (Also built at line 325.) `back_to_settings_{chat_id}` starts with its prefix, and splits into `back`, `to`, `settings` and `str(chat_id)`. |
| `CallbackData.ParseLanguageData` | handlers/group_handlers.py:198-200 | It parses exactly when there are at least three pieces and piece 1 is an integer. The chat id is then `int(parts[1])`, and the language is `parts[2]`, which contains no `_`. |
| `CallbackData.ParseLevelData` | handlers/group_handlers.py:276-278 | (The frequency twin is lines 334-336.) It parses exactly when there are at least four pieces and pieces 2 and 3 are integers. The chat id and the value are those two integers. |
| `CallbackData.ParseTrailingId` | handlers/group_handlers.py:253 | (The same parse is at lines 295, 311, 353 and 369.) The chat id is `int` of the last piece. Whenever it parses, the payload ends in a digit. |
| `CallbackData.SplitLastIsSuffix` | handlers/group_handlers.py:253 | The last piece of `split("_")` is a suffix of the string, and a single piece is the whole string. |
| `CallbackData.JoinThree` | handlers/group_handlers.py:266 | A three-field payload is the `_`-join of its fields. This covers `custom_intel_` here, `custom_freq_` at line 324 and `lang_` at lines 188-190. |
| `CallbackData.JoinFour` | handlers/group_handlers.py:240-244 | A four-field payload is the `_`-join of its fields. This covers the two menu payloads here, the presets at lines 263-265 and 321-323, and the back payloads at lines 267 and 325. |
| `CallbackData.LanguageDataRoundTrip` | handlers/group_handlers.py:188-200 | For a code without `_`, parsing `lang_{chat_id}_{code}` recovers the chat id from piece 1 and the code from piece 2. |
| `CallbackData.IntelLevelDataRoundTrip` | handlers/group_handlers.py:263-265 | (The parse is lines 276-278.) Parsing `set_intel_{chat_id}_{level}` recovers the chat id from piece 2 and the level from piece 3. |
| `CallbackData.FreqLevelDataRoundTrip` | handlers/group_handlers.py:321-323 | (The parse is lines 334-336.) Parsing `set_freq_{chat_id}_{level}` recovers the chat id from piece 2 and the frequency from piece 3. |
| `CallbackData.TrailingIdOfJoin` | handlers/group_handlers.py:253 | `int(data.split("_")[-1])` of a join whose last field is `str(id)` is `id`. |
| `CallbackData.TrailingIdRoundTrip` | handlers/group_handlers.py:240-244 | `split("_")[-1]` recovers the chat id from all five suffix-form payloads: `set_intel_menu_`, `set_freq_menu_`, `custom_intel_`, `custom_freq_` and `back_to_settings_`. |
| `CallbackData.FirstMatch` | handlers/group_handlers.py:196-367 | A payload gets no handler exactly when it starts with none of the registered prefixes. |
| `CallbackData.FirstMatchIsEarliest` | handlers/group_handlers.py:196-367 | The handler run is that of the earliest registered prefix the payload starts with. |
| `CallbackData.RouteCallback` | handlers/group_handlers.py:196-367 | The callback handlers in their registration order. A `lang_` payload always goes to the language handler, registered first. Any routed payload starts with `lang_`, `set_`, `custom_` or `back_to_settings_`. |
| `CallbackData.PassOver` | handlers/group_handlers.py:196-367 | The first-match router skips a handler whose prefix differs from the payload. |
| `CallbackData.RouteLanguageData` | handlers/group_handlers.py:196 | A language payload reaches `process_language_selection`, which reads the right chat id back. |
| `CallbackData.RouteIntelMenuData` | handlers/group_handlers.py:251 | An intelligence-menu payload reaches `intel_menu` and not the level parser registered after it. |
| `CallbackData.RouteIntelLevelData` | handlers/group_handlers.py:274 | A preset intelligence payload passes over the menu prefix and reaches `process_intelligence_selection`. |
| `CallbackData.RouteCustomIntelData` | handlers/group_handlers.py:293 | A custom-intelligence payload reaches `process_custom_intelligence`. |
| `CallbackData.RouteFreqMenuData` | handlers/group_handlers.py:309 | A frequency-menu payload reaches `freq_menu` and not the level parser registered after it. |
| `CallbackData.RouteFreqLevelData` | handlers/group_handlers.py:332 | A preset frequency payload reaches `process_frequency_selection`. |
| `CallbackData.RouteCustomFreqData` | handlers/group_handlers.py:351 | A custom-frequency payload reaches `process_custom_frequency`. |
| `CallbackData.RouteBackData` | handlers/group_handlers.py:367 | A back payload reaches `back_to_settings`. |
| `CallbackData.MenuDataWouldFailLevelParser` | handlers/group_handlers.py:251-278 | A menu payload also starts with the level prefix, and the level parser cannot read it. So the order in which the handlers are registered is what keeps menus working. |
| `GroupHandlers.InRange` | handlers/group_handlers.py:141 | (The frequency check is line 166.) Every preset, 0, 50 or 100, passes the check. Every value that passes prints as plain digits, so it can be typed as a digit reply. |
| `GroupHandlers.TitleOr` | handlers/group_handlers.py:63 | `title or "Unnamed Chat"` is the title when there is a non-empty one, and is never empty. |
| `GroupHandlers.Content` | handlers/group_handlers.py:86-88 | A non-empty text is always stored, as itself and tagged `text`. Only when there is no text is the message's own sticker id stored, tagged `sticker`. Nothing is stored exactly when there is neither a non-empty text nor a non-empty sticker id. |
| `GroupHandlers.StoredMessages` | handlers/group_handlers.py:86-93 | Storing keeps every stored triple. It adds the message's content under its chat, and nothing else. |
| `GroupHandlers.LanguageButtons` | handlers/group_handlers.py:188-190 | The three /start buttons reach the language handler, which parses each back to this chat with `ru`, `uk` or `en`. |
| `GroupHandlers.SettingsButtons` | handlers/group_handlers.py:237-246 | The two settings buttons reach the intelligence menu and the frequency menu of this chat. |
| `GroupHandlers.IntelPresetButtons` | handlers/group_handlers.py:263-265 | The preset buttons reach the intelligence selection handler, which parses them to this chat and to the values of `Presets`, 0, 50 and 100, in order. |
| `GroupHandlers.IntelMenuButtons` | handlers/group_handlers.py:262-268 | The intelligence menu is the presets, then a button that reaches the custom prompt, then one that reaches back-to-settings, all for this chat. |
| `GroupHandlers.FreqPresetButtons` | handlers/group_handlers.py:321-323 | The preset buttons reach the frequency selection handler, which parses them to this chat and to the values of `Presets`, 0, 50 and 100, in order. |
| `GroupHandlers.FreqMenuButtons` | handlers/group_handlers.py:320-326 | The frequency menu is the presets, then a button that reaches the custom prompt, then one that reaches back-to-settings, all for this chat. |
| `GroupHandlers.Handlers.constructor` | handlers/group_handlers.py:19 | At start no chat has a settings holder and no user has a conversation. |
| `GroupHandlers.Handlers.Holds` | handlers/group_handlers.py:257 | (The same guard is at lines 282, 299, 315, 340, 357 and 373, and at 133 and 158.) The caller holds a chat's settings only when the chat has an entry in `active_settings_user` and that entry is the caller. |
| `GroupHandlers.Handlers.BotAddedToGroup` | handlers/group_handlers.py:60-67 | Only when the bot itself joins is the chat registered, and then with `title or "Unnamed Chat"`. Messages are untouched. |
| `GroupHandlers.Handlers.RecordGroupMessage` | handlers/group_handlers.py:76-93 | An unknown chat gets a default row. The message's text, or else its sticker id, is added to the stored triples unless it is already there. |
| `GroupHandlers.Handlers.StartCommand` | handlers/group_handlers.py:176-193 | A non-administrator is refused. An administrator gets the three language buttons. |
| `GroupHandlers.Handlers.ProcessLanguageSelection` | handlers/group_handlers.py:196-215 | A payload that does not parse changes nothing. A non-administrator is refused. Otherwise the language of the chat's existing row is set. The settings token is never consulted. |
| `GroupHandlers.Handlers.SettingsCommand` | handlers/group_handlers.py:218-248 | A non-administrator is refused with the token unchanged. If another user holds the chat, the caller is refused with the token unchanged. Otherwise the caller becomes the holder and sees the stored levels. Conversations are never touched. |
| `GroupHandlers.Handlers.ShowIntelMenu` | handlers/group_handlers.py:251-271 | Unless the caller holds the chat, the only answer is a refusal. The holder sees the stored level and the intelligence keyboard. |
| `GroupHandlers.Handlers.ShowFreqMenu` | handlers/group_handlers.py:309-329 | Unless the caller holds the chat, the only answer is a refusal. The holder sees the stored frequency and the frequency keyboard. |
| `GroupHandlers.Handlers.ShowSettingsAgain` | handlers/group_handlers.py:367-391 | Unless the caller holds the chat, the only answer is a refusal. The holder sees the settings keyboard again. |
| `GroupHandlers.Handlers.ProcessCustomPrompt` | handlers/group_handlers.py:293-306 | (Its frequency twin is lines 351-364.) Unless the caller holds the chat, nothing changes. Otherwise the caller's conversation enters the prompt state and records the prompt's message id. The token is never touched. |
| `GroupHandlers.Handlers.ProcessIntelligenceSelection` | handlers/group_handlers.py:274-290 | Unless the caller holds the chat, nothing changes. Otherwise the preset is stored in an existing row, and the token stays held. |
| `GroupHandlers.Handlers.ProcessFrequencySelection` | handlers/group_handlers.py:332-348 | Unless the caller holds the chat, nothing changes. Otherwise the preset is stored in an existing row, and the token stays held. |
| `GroupHandlers.Handlers.SetCustomIntelligence` | handlers/group_handlers.py:126-148 | Nothing changes if the sender is not the holder, or the reply is not to the recorded prompt, or the value is outside 0..100; the answer says which. A value in range is stored, clears the conversation and releases the token. |
| `GroupHandlers.Handlers.SetCustomFrequency` | handlers/group_handlers.py:151-173 | Nothing changes if the sender is not the holder, or the reply is not to the recorded prompt, or the value is outside 0..100; the answer says which. A value in range is stored, clears the conversation and releases the token. |
| `GroupHandlers.Handlers.OnCallback` | handlers/group_handlers.py:196-391 | No callback changes the settings token or the stored messages. A payload that no prefix matches has no handler and changes nothing. Every routed handler except the language one answers `Malformed` to a payload it cannot parse and refuses a caller who does not hold the chat. Only the two custom prompts change a conversation: they record the prompt for the holder. Only the language and preset selections change the chats table: they update the parsed chat's row, for an administrator or for the holder respectively. |
| `GroupHandlers.Handlers.OnMessage` | handlers/group_handlers.py:70-248 | A message with no route changes nothing. A message routed to `handle_group_message` registers its chat and stores its content, leaving the token and conversations alone. `/start` changes nothing. `/settings` changes only the token, as `settings_command` does. A custom-value route changes state only for an accepted value: it stores the value, releases the token and clears the conversation. So any message that reaches neither custom-value handler removes no chat's holder, and with the handlers in registration order no message ever releases a token. |
| `GroupHandlers.RouteMessage` | handlers/group_handlers.py:70-218 | The route is a registered handler whose filters accept the message. There is no route exactly when no registered handler accepts it. |
| `GroupHandlers.RouteIsFirstAccepting` | handlers/group_handlers.py:70-218 | The route is the earliest registered handler that accepts the message. |
| `GroupHandlers.IsCommand` | handlers/group_handlers.py:176 | (The same `Command` filter is at lines 70 and 218.) A command's text starts, after whitespace, with `/` followed by more than the name. The bare text `/name` is the command. |
| `GroupHandlers.IsDigitReply` | handlers/group_handlers.py:126 | (Also line 151.) A text the filter accepts is plain digits, and `int(message.text)` at lines 140 and 165 then succeeds with the value of those digits. |
| `GroupHandlers.Accepts` | handlers/group_handlers.py:70-218 | These are the filters of the five message handlers, whose registration order is `RegisteredAsWritten`. A digit reply is accepted only by the catch-all, or by the custom-value handler of the user's state. A custom-value handler accepts only a digit reply, and only in a conversation state. |
| `GroupHandlers.TrimStart` | handlers/group_handlers.py:70 | The command filter reads the text from its first non-whitespace character on: a suffix that drops only whitespace and starts with none. |
| `GroupHandlers.CommandWordEndsAtWhitespace` | handlers/group_handlers.py:176-218 | Any whitespace ends the command word. For example, `/settings` followed by a tab is still the `/settings` command. Whitespace before the command is skipped. |
| `GroupHandlers.DigitsAreNotCommands` | handlers/group_handlers.py:126 | The text of a digit reply is never a command. |
| `GroupHandlers.CommandsAreDistinct` | handlers/group_handlers.py:70 | No text is both `/start` and `/settings`. |
| `GroupHandlers.DigitReplyTakenByCatchAll` | handlers/group_handlers.py:70-151 | In registration order, a digit reply goes to `handle_group_message` in every conversation state. |
| `GroupHandlers.CustomHandlersUnreachableAsWritten` | handlers/group_handlers.py:70-151 | In registration order, `set_custom_intelligence` and `set_custom_frequency` are never routed to. |
| `GroupHandlers.CustomReplyReachesItsHandler` | handlers/group_handlers.py:126-151 | With the custom-value handlers first, a digit reply reaches the handler of the user's prompt state, and reaches the catch-all when there is no state. |
| `GroupHandlers.ReorderKeepsOtherRoutes` | handlers/group_handlers.py:70-218 | Moving the custom-value handlers first changes the route of no message that they do not accept. |
| `GroupHandlers.CommandsReachTheirHandlers` | handlers/group_handlers.py:176-218 | In either order, `/start` reaches `start_command` and `/settings` reaches `settings_command`. |

## Left out

- The random module is an explicit oracle with three separate streams
  (coin, letter and index). Python draws all three from one generator, so
  the model does not capture correlations between them.
  - `random.random() < (50 - i) / 30` is read on a draw `d` as
    `d % 30 < 50 - i`.
  - `randint` and `choice` are read as `d % n`.
- TextModifier.SwapCount: it is exact integer arithmetic. It does not
  model the floating-point rounding of `(80 - i) / 30 * len / 2`. The
  permutation property does not depend on the count.
- `int(...)` is modelled on ASCII digits with an optional sign. It does not
  accept the surrounding whitespace or the non-ASCII digits Python allows.
  `str.isdigit()` is modelled as ASCII `0`-`9`.
- A payload that Python fails to parse raises an exception inside the
  handler. In the model it answers `Malformed` and changes nothing.
- For a language code that contains `_`, `process_language_selection` keeps
  only the piece before the first `_`. The round trip is stated for codes
  without `_`.
- The `MESSAGES[lang]` lookups, the translated texts and `translate_button`
  are left out. So is the `KeyError` a non-administrator's refusal raises
  when the payload carries an unknown language code. Replies are
  constructors of `Reply`.
- `is_admin` is a bot-API call, and `get_available_reactions` and the
  reaction cache wrap `bot.get_chat`. They are not modelled: the
  administrator check is an opaque predicate passed to each handler, and
  reactions are left out.
- The random reply and reaction of `handle_group_message`
  (handlers/group_handlers.py:95-123) are left out: `randint(0, 100) <=
  frequency`, then a send or an emoji reaction. Only the registration and
  storing part is modelled.
- The `Command` filter is modelled on the first whitespace-separated word of
  the text. That word must be `/start` or `/settings`, possibly followed by
  `@` and a mention. Whitespace is every character `str.isspace()` accepts.
  The model does not check the bot's own username after `@`, and it does
  not read captions.
- The conversation state is held per (chat, user), as in the in-memory
  storage of the dispatcher in `main.py`. For a callback, that chat is
  taken to be the one named in the payload.
- The keyboard layout, message editing, `callback.answer`, replies and
  logging are not modelled.
- The keyboards are modelled as the code means to send them.
  - At handlers/group_handlers.py:247, 269, 327 and 389, `[buttons]` wraps a
    list of rows in one more list.
  - aiogram types `inline_keyboard` as a list of rows of buttons, so that
    value is likely rejected. `settings_command` would then fail after
    taking the token at line 233, and the settings and level menus would
    not be sent.
  - The model's `SettingsMenu`, `LevelMenu` and related replies carry the
    intended buttons.
- Handlers are modelled as running one at a time, each as one atomic
  transition.
  - aiogram's polling runs updates as concurrent tasks, and the handlers
    await between their reads and writes. An example is the holder check at
    line 282 and the store at line 286.
  - Interleavings of two handlers are not modelled. The acquire at lines
    229-233 has no await between its check and its write, so it is atomic
    in the source too.
- Memory.BotMemory.constructor: it models a new database file. `init_db`
  runs `CREATE TABLE IF NOT EXISTS` on the file `uglyok.db`, so after a
  restart both tables keep every row. Only `active_settings_user` and the
  in-memory conversation storage start empty.
- Connections, commits and the execution of the `init_db` DDL are not
  modelled; only the table semantics are. The autoincrement `id` column is
  not modelled. The `FOREIGN KEY` is not enforced, as in SQLite by default.
  `ORDER BY RANDOM()` is an arbitrary choice among the text rows.
- `main.py`, which starts the bot and polls, is not part of this model. The
  `states/` module and the `config` module are not part of this model
  either.

## Findings

| source | as written | input that shows it | evidently intended | confidence | as-written member | corrected member |
|---|---|---|---|---|---|---|
| handlers/group_handlers.py:70-151 | `handle_group_message` is registered first. Its filter `~Command(commands=["start", "settings"])` accepts every message other than those two commands, and the router stops at the first handler that accepts. So `set_custom_intelligence` and `set_custom_frequency` are never run. A custom value is never stored, and because only they release `active_settings_user`, the holder keeps the chat's settings until the bot restarts. | After `/settings` and "Custom", the holder replies `42` to the prompt while in state `CustomIntel`: the message is stored as chat text instead. | A digit reply to the prompt reaches the custom-value handler, which validates it, stores it and releases the token. Every other message is routed as before. | high (not executed) | `GroupHandlers.CustomHandlersUnreachableAsWritten` | `GroupHandlers.CustomReplyReachesItsHandler` |
