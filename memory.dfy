/**
 * `BotMemory`: the two SQLite tables behind the bot, as table semantics.
 *
 * `chats` is keyed by `chat_id` and its three setting columns default to
 * `'en'`, 50 and 50; `messages` holds `(chat_id, type, content)` rows under a
 * `UNIQUE(chat_id, type, content)` constraint, so it is a set of triples.
 * The autoincrement `id` and the foreign key (which SQLite does not enforce
 * by default) play no part in the behaviour and are not modelled.
 */
module Memory {
  import opened Wrappers

  const DefaultLanguage: string := "en"
  const DefaultIntelligence: int := 50
  const DefaultResponseFrequency: int := 50

  /** One row of `chats` (its key, `chat_id`, is the map key). */
  datatype ChatRow = ChatRow(title: string, language: string, intelligence: int, responseFrequency: int)

  /** The row `INSERT INTO chats (chat_id, chat_title)` creates: the title, and the column defaults. */
  function NewChatRow(title: string): (row: ChatRow)
    ensures row.title == title
    ensures row.language == "en" && row.intelligence == 50 && row.responseFrequency == 50
  {
    ChatRow(title, DefaultLanguage, DefaultIntelligence, DefaultResponseFrequency)
  }

  /** The `chats` table after `INSERT INTO chats`: a new id gets a default row, an existing id keeps its row. */
  function WithChat(chats: map<int, ChatRow>, chatId: int, title: string): (r: map<int, ChatRow>)
    ensures r.Keys == chats.Keys + {chatId}
    ensures forall c :: c in chats ==> r[c] == chats[c]
    ensures chatId !in chats ==> r[chatId] == NewChatRow(title)
  {
    if chatId in chats then chats else chats[chatId := NewChatRow(title)]
  }

  /** The `chats` table after `UPDATE chats SET language = ? WHERE chat_id = ?`. */
  function WithLanguage(chats: map<int, ChatRow>, chatId: int, lang: string): (r: map<int, ChatRow>)
    ensures r.Keys == chats.Keys
    ensures chatId in chats ==> r[chatId] == chats[chatId].(language := lang)
    ensures forall c :: c in chats && c != chatId ==> r[c] == chats[c]
  {
    if chatId in chats then chats[chatId := chats[chatId].(language := lang)] else chats
  }

  /** The `chats` table after `UPDATE chats SET intelligence = ? WHERE chat_id = ?`. */
  function WithIntelligence(chats: map<int, ChatRow>, chatId: int, level: int): (r: map<int, ChatRow>)
    ensures r.Keys == chats.Keys
    ensures chatId in chats ==> r[chatId] == chats[chatId].(intelligence := level)
    ensures forall c :: c in chats && c != chatId ==> r[c] == chats[c]
  {
    if chatId in chats then chats[chatId := chats[chatId].(intelligence := level)] else chats
  }

  /** The `chats` table after `UPDATE chats SET response_frequency = ? WHERE chat_id = ?`. */
  function WithResponseFrequency(chats: map<int, ChatRow>, chatId: int, freq: int): (r: map<int, ChatRow>)
    ensures r.Keys == chats.Keys
    ensures chatId in chats ==> r[chatId] == chats[chatId].(responseFrequency := freq)
    ensures forall c :: c in chats && c != chatId ==> r[c] == chats[c]
  {
    if chatId in chats then chats[chatId := chats[chatId].(responseFrequency := freq)] else chats
  }

  /** One row of `messages`: `(chat_id, type, content)`; `type` is "text" or "sticker". */
  type MessageRow = (int, string, string)

  class BotMemory {
    var chats: map<int, ChatRow>
    var messages: set<MessageRow>

    /** A new database file right after `init_db`: both tables exist and are empty. */
    constructor ()
      ensures chats == map[] && messages == {}
    {
      chats := map[];
      messages := {};
    }

    /** The contents of the stored text messages of a chat. */
    function TextContents(chatId: int): (contents: set<string>)
      reads this
      ensures forall x :: x in contents <==> (chatId, "text", x) in messages
    {
      set m | m in messages && m.0 == chatId && m.1 == "text" :: m.2
    }

    /** `add_chat`: inserts a row with default settings; an existing `chat_id` violates the key and nothing changes. */
    method AddChat(chatId: int, chatTitle: string) returns (created: bool)
      modifies this
      ensures created <==> chatId !in old(chats)
      ensures chats == WithChat(old(chats), chatId, chatTitle)
      ensures messages == old(messages)
    {
      if chatId in chats {
        created := false;
      } else {
        chats := chats[chatId := NewChatRow(chatTitle)];
        created := true;
      }
    }

    /** `add_message`: inserts the triple unless the `UNIQUE` constraint already holds it. */
    method AddMessage(chatId: int, msgType: string, content: string) returns (stored: bool)
      modifies this
      ensures stored <==> (chatId, msgType, content) !in old(messages)
      ensures messages == old(messages) + {(chatId, msgType, content)}
      ensures chats == old(chats)
    {
      if (chatId, msgType, content) in messages {
        stored := false;
      } else {
        messages := messages + {(chatId, msgType, content)};
        stored := true;
      }
    }

    /** `message_exists`: whether the triple is stored. */
    method MessageExists(chatId: int, msgType: string, content: string) returns (found: bool)
      ensures found <==> (chatId, msgType, content) in messages
    {
      found := (chatId, msgType, content) in messages;
    }

    /** The language a chat reads back: its row's, or the default for a chat with no row. */
    function Language(chatId: int): string
      reads this
    {
      if chatId in chats then chats[chatId].language else DefaultLanguage
    }

    /** The intelligence a chat reads back: its row's, or the default for a chat with no row. */
    function Intelligence(chatId: int): int
      reads this
    {
      if chatId in chats then chats[chatId].intelligence else DefaultIntelligence
    }

    /** The response frequency a chat reads back: its row's, or the default for a chat with no row. */
    function ResponseFrequency(chatId: int): int
      reads this
    {
      if chatId in chats then chats[chatId].responseFrequency else DefaultResponseFrequency
    }

    /** `get_language`: the stored language, or "en" for a chat with no row. */
    method GetLanguage(chatId: int) returns (lang: string)
      ensures lang == Language(chatId)
      ensures chatId in chats ==> lang == chats[chatId].language
      ensures chatId !in chats ==> lang == "en"
    {
      lang := Language(chatId);
    }

    /** `get_intelligence`: the stored level, or 50 for a chat with no row. */
    method GetIntelligence(chatId: int) returns (level: int)
      ensures level == Intelligence(chatId)
      ensures chatId in chats ==> level == chats[chatId].intelligence
      ensures chatId !in chats ==> level == 50
    {
      level := Intelligence(chatId);
    }

    /** `get_response_frequency`: the stored frequency, or 50 for a chat with no row. */
    method GetResponseFrequency(chatId: int) returns (freq: int)
      ensures freq == ResponseFrequency(chatId)
      ensures chatId in chats ==> freq == chats[chatId].responseFrequency
      ensures chatId !in chats ==> freq == 50
    {
      freq := ResponseFrequency(chatId);
    }

    /** `set_language`: an UPDATE of the one column; no row, no change; always reports success. */
    method SetLanguage(chatId: int, lang: string) returns (ok: bool)
      modifies this
      ensures ok
      ensures chats == WithLanguage(old(chats), chatId, lang)
      ensures messages == old(messages)
    {
      if chatId in chats {
        chats := chats[chatId := chats[chatId].(language := lang)];
      }
      ok := true;
    }

    /** `set_intelligence`: an UPDATE of the one column; no row, no change; always reports success. */
    method SetIntelligence(chatId: int, level: int) returns (ok: bool)
      modifies this
      ensures ok
      ensures chats == WithIntelligence(old(chats), chatId, level)
      ensures messages == old(messages)
    {
      if chatId in chats {
        chats := chats[chatId := chats[chatId].(intelligence := level)];
      }
      ok := true;
    }

    /** `set_response_frequency`: an UPDATE of the one column; no row, no change; always reports success. */
    method SetResponseFrequency(chatId: int, freq: int) returns (ok: bool)
      modifies this
      ensures ok
      ensures chats == WithResponseFrequency(old(chats), chatId, freq)
      ensures messages == old(messages)
    {
      if chatId in chats {
        chats := chats[chatId := chats[chatId].(responseFrequency := freq)];
      }
      ok := true;
    }

    /**
     * `get_random_message`: `ORDER BY RANDOM() LIMIT 1` over the chat's rows of
     * type 'text'. Which row is drawn is left open; it is never a sticker.
     */
    method GetRandomMessage(chatId: int) returns (content: Option<string>)
      ensures content.None? <==> TextContents(chatId) == {}
      ensures content.Some? ==> (chatId, "text", content.value) in messages
    {
      var texts := TextContents(chatId);
      if texts == {} {
        content := None;
      } else {
        var x :| x in texts;
        content := Some(x);
      }
    }
  }

  /**
   * Each setter followed by its getter on a chat that has a row reads back
   * the value just written; the later setters leave the earlier fields alone.
   */
  method SettingsReadBack(db: BotMemory, chatId: int, lang: string, level: int, freq: int)
    returns (gotLang: string, gotLevel: int, gotFreq: int)
    requires chatId in db.chats
    modifies db
    ensures gotLang == lang && gotLevel == level && gotFreq == freq
    ensures db.Language(chatId) == lang && db.Intelligence(chatId) == level && db.ResponseFrequency(chatId) == freq
    ensures db.chats.Keys == old(db.chats.Keys) && db.messages == old(db.messages)
    ensures db.chats[chatId].title == old(db.chats[chatId].title)
    ensures forall c :: c in old(db.chats) && c != chatId ==> db.chats[c] == old(db.chats[c])
  {
    var _ := db.SetIntelligence(chatId, level);
    gotLevel := db.GetIntelligence(chatId);
    var _ := db.SetLanguage(chatId, lang);
    gotLang := db.GetLanguage(chatId);
    var _ := db.SetResponseFrequency(chatId, freq);
    gotFreq := db.GetResponseFrequency(chatId);
  }

  /** The getters of a chat that was never added read the defaults, and reading adds no row. */
  method UnknownChatReadsDefaults(db: BotMemory, chatId: int) returns (lang: string, level: int, freq: int)
    requires chatId !in db.chats
    ensures lang == "en" && level == 50 && freq == 50
    ensures chatId !in db.chats
  {
    lang := db.GetLanguage(chatId);
    level := db.GetIntelligence(chatId);
    freq := db.GetResponseFrequency(chatId);
  }
}
