/**
 * The callback-data wire format of the group handlers: the strings the
 * inline buttons carry (`set_intel_{chat_id}_{level}`, `lang_{chat_id}_{code}`,
 * `custom_freq_{chat_id}`, ...), the `split("_")` / `int(...)` parsing the
 * handlers apply to them, and the first-match order in which the callback
 * handlers are registered.
 */
module CallbackData {
  import opened Wrappers

  const Sep: char := '_'

  // ---------------------------------------------------------------------
  // str.split("_") and its inverse "_".join

  /** Python's `s.split("_")`: the maximal separator-free pieces, in order. */
  function Split(s: string): (parts: seq<string>)
    ensures |parts| >= 1
    ensures forall k :: 0 <= k < |parts| ==> Sep !in parts[k]
  {
    if s == [] then [""]
    else
      var rest := Split(s[1..]);
      if s[0] == Sep then [""] + rest else [[s[0]] + rest[0]] + rest[1..]
  }

  /** Python's `"_".join(parts)`. */
  function Join(parts: seq<string>): string
    requires |parts| >= 1
  {
    if |parts| == 1 then parts[0] else parts[0] + [Sep] + Join(parts[1..])
  }

  lemma {:induction false} SplitNoSep(a: string)
    requires Sep !in a
    ensures Split(a) == [a]
  {
    if a != [] {
      assert a[0] in a;
      assert forall c :: c in a[1..] ==> c in a;
      SplitNoSep(a[1..]);
      assert [a[0]] + a[1..] == a;
    }
  }

  /** Splitting after a separator-free head: the head is the first piece. */
  lemma {:induction false} SplitAfterHead(a: string, b: string)
    requires Sep !in a
    ensures Split(a + [Sep] + b) == [a] + Split(b)
  {
    if a == [] {
      assert a + [Sep] + b == [Sep] + b;
      assert ([Sep] + b)[1..] == b;
    } else {
      assert (a + [Sep] + b)[1..] == a[1..] + [Sep] + b;
      SplitAfterHead(a[1..], b);
      assert [a[0]] + a[1..] == a;
    }
  }

  /** Joining the pieces of a split gives the string back. */
  lemma {:induction false} JoinSplit(s: string)
    ensures Join(Split(s)) == s
  {
    if s != [] {
      JoinSplit(s[1..]);
      var rest := Split(s[1..]);
      if s[0] == Sep {
        assert Split(s) == [""] + rest;
        assert ([""] + rest)[1..] == rest;
        assert s == [Sep] + s[1..];
      } else {
        var parts := [[s[0]] + rest[0]] + rest[1..];
        assert Split(s) == parts;
        if |rest| == 1 {
          assert s == [s[0]] + s[1..];
        } else {
          assert parts[1..] == rest[1..];
          assert Join(rest) == rest[0] + [Sep] + Join(rest[1..]);
          assert s == [s[0]] + s[1..];
        }
      }
    }
  }

  /** The last piece of a split is a suffix of the string, and a single piece is the whole string. */
  lemma {:induction false} SplitLastIsSuffix(s: string)
    ensures var parts := Split(s); |parts[|parts| - 1]| <= |s| && s[|s| - |parts[|parts| - 1]|..] == parts[|parts| - 1]
    ensures |Split(s)| == 1 ==> Split(s)[0] == s
  {
    if s != [] {
      SplitLastIsSuffix(s[1..]);
    }
  }

  /** Splitting a join of separator-free pieces gives the pieces back. */
  lemma {:induction false} SplitJoin(parts: seq<string>)
    requires |parts| >= 1
    requires forall k :: 0 <= k < |parts| ==> Sep !in parts[k]
    ensures Split(Join(parts)) == parts
  {
    if |parts| == 1 {
      SplitNoSep(parts[0]);
    } else {
      SplitJoin(parts[1..]);
      SplitAfterHead(parts[0], Join(parts[1..]));
    }
  }

  // ---------------------------------------------------------------------
  // str(n) and int(s)

  function DigitChar(d: nat): char
    requires d < 10
  {
    "0123456789"[d]
  }

  predicate IsDigit(c: char) { '0' <= c <= '9' }

  /** `s.isdigit()` restricted to ASCII: non-empty and all decimal digits. */
  predicate IsDigits(s: string)
  {
    |s| > 0 && forall k :: 0 <= k < |s| ==> IsDigit(s[k])
  }

  /** The decimal numeral of a natural number, without leading zeros. */
  function NatString(n: nat): (s: string)
    ensures IsDigits(s)
    ensures s[0] == '0' ==> n == 0
  {
    if n < 10 then [DigitChar(n)] else NatString(n / 10) + [DigitChar(n % 10)]
  }

  /** Python's `str(n)` for an integer: an optional minus sign, then digits. */
  function DecimalString(n: int): (s: string)
    ensures |s| >= 1 && Sep !in s
    ensures IsDigit(s[0]) || s[0] == '-'
  {
    if n < 0 then "-" + NatString(-n) else NatString(n)
  }

  function DigitValue(c: char): nat
    requires IsDigit(c)
  {
    c as int - '0' as int
  }

  /** The value of a string of decimal digits (leading zeros allowed). */
  function DigitsValue(s: string): nat
    requires forall k :: 0 <= k < |s| ==> IsDigit(s[k])
  {
    if s == [] then 0
    else DigitsValue(s[..|s| - 1]) * 10 + DigitValue(s[|s| - 1])
  }

  /** Python's `int(s)` on an optional sign followed by decimal digits; `None` where `int` raises. */
  function ParseInt(s: string): (r: Option<int>)
    ensures IsDigits(s) ==> r == Some(DigitsValue(s))
    ensures r.Some? ==> |s| > 0 && Sep !in s && IsDigit(s[|s| - 1])
    ensures r.Some? && r.value < 0 ==> s[0] == '-'
  {
    if |s| > 0 && (s[0] == '-' || s[0] == '+') then
      if IsDigits(s[1..]) then
        var v: int := DigitsValue(s[1..]);
        Some(if s[0] == '-' then -v else v)
      else None
    else if IsDigits(s) then Some(DigitsValue(s))
    else None
  }

  lemma {:induction false} NatStringValue(n: nat)
    ensures DigitsValue(NatString(n)) == n
  {
    if n >= 10 {
      NatStringValue(n / 10);
      var s := NatString(n);
      assert s[..|s| - 1] == NatString(n / 10);
    }
  }

  /** `int(str(n)) == n` for every integer. */
  lemma ParseDecimal(n: int)
    ensures ParseInt(DecimalString(n)) == Some(n)
  {
    var s := DecimalString(n);
    if n < 0 {
      var digits := NatString(-n);
      assert s == "-" + digits;
      assert s[1..] == digits;
      NatStringValue(-n);
    } else {
      var digits := NatString(n);
      assert s == digits;
      assert s[0] != '-' && s[0] != '+';
      NatStringValue(n);
    }
  }

  // ---------------------------------------------------------------------
  // The button payloads, as the handlers format them

  /** `f"lang_{chat_id}_{code}"`, the /start language buttons. */
  function LanguageData(chatId: int, code: string): (s: string)
    ensures "lang_" <= s
    ensures Sep !in code ==> Split(s) == ["lang", DecimalString(chatId), code]
  {
    var id := DecimalString(chatId);
    JoinThree("lang", id, code);
    if Sep in code then "lang_" + id + "_" + code
    else
      assert "lang_" + id + "_" + code == Join(["lang", id, code]);
      SplitJoin(["lang", id, code]);
      "lang_" + id + "_" + code
  }

  /** `f"set_intel_menu_{chat_id}"`. */
  function IntelMenuData(chatId: int): (s: string)
    ensures "set_intel_menu_" <= s
    ensures Split(s) == ["set", "intel", "menu", DecimalString(chatId)]
  {
    var id := DecimalString(chatId);
    JoinFour("set", "intel", "menu", id);
    assert "set_intel_menu_" + id == Join(["set", "intel", "menu", id]);
    SplitJoin(["set", "intel", "menu", id]);
    "set_intel_menu_" + id
  }

  /** `f"set_freq_menu_{chat_id}"`. */
  function FreqMenuData(chatId: int): (s: string)
    ensures "set_freq_menu_" <= s
    ensures Split(s) == ["set", "freq", "menu", DecimalString(chatId)]
  {
    var id := DecimalString(chatId);
    JoinFour("set", "freq", "menu", id);
    assert "set_freq_menu_" + id == Join(["set", "freq", "menu", id]);
    SplitJoin(["set", "freq", "menu", id]);
    "set_freq_menu_" + id
  }

  /** `f"set_intel_{chat_id}_{level}"`, the preset intelligence buttons. */
  function IntelLevelData(chatId: int, level: int): (s: string)
    ensures "set_intel_" <= s
    ensures Split(s) == ["set", "intel", DecimalString(chatId), DecimalString(level)]
  {
    var id := DecimalString(chatId);
    var v := DecimalString(level);
    JoinFour("set", "intel", id, v);
    assert "set_intel_" + id + "_" + v == Join(["set", "intel", id, v]);
    SplitJoin(["set", "intel", id, v]);
    "set_intel_" + id + "_" + v
  }

  /** `f"set_freq_{chat_id}_{level}"`, the preset frequency buttons. */
  function FreqLevelData(chatId: int, level: int): (s: string)
    ensures "set_freq_" <= s
    ensures Split(s) == ["set", "freq", DecimalString(chatId), DecimalString(level)]
  {
    var id := DecimalString(chatId);
    var v := DecimalString(level);
    JoinFour("set", "freq", id, v);
    assert "set_freq_" + id + "_" + v == Join(["set", "freq", id, v]);
    SplitJoin(["set", "freq", id, v]);
    "set_freq_" + id + "_" + v
  }

  /** `f"custom_intel_{chat_id}"`. */
  function CustomIntelData(chatId: int): (s: string)
    ensures "custom_intel_" <= s
    ensures Split(s) == ["custom", "intel", DecimalString(chatId)]
  {
    var id := DecimalString(chatId);
    JoinThree("custom", "intel", id);
    assert "custom_intel_" + id == Join(["custom", "intel", id]);
    SplitJoin(["custom", "intel", id]);
    "custom_intel_" + id
  }

  /** `f"custom_freq_{chat_id}"`. */
  function CustomFreqData(chatId: int): (s: string)
    ensures "custom_freq_" <= s
    ensures Split(s) == ["custom", "freq", DecimalString(chatId)]
  {
    var id := DecimalString(chatId);
    JoinThree("custom", "freq", id);
    assert "custom_freq_" + id == Join(["custom", "freq", id]);
    SplitJoin(["custom", "freq", id]);
    "custom_freq_" + id
  }

  /** `f"back_to_settings_{chat_id}"`. */
  function BackData(chatId: int): (s: string)
    ensures "back_to_settings_" <= s
    ensures Split(s) == ["back", "to", "settings", DecimalString(chatId)]
  {
    var id := DecimalString(chatId);
    JoinFour("back", "to", "settings", id);
    assert "back_to_settings_" + id == Join(["back", "to", "settings", id]);
    SplitJoin(["back", "to", "settings", id]);
    "back_to_settings_" + id
  }

  // ---------------------------------------------------------------------
  // The parsing each handler applies; `None` where Python raises

  /** `parts = data.split("_"); chat_id = int(parts[1]); lang = parts[2]`. */
  function ParseLanguageData(data: string): (r: Option<(int, string)>)
    ensures r.Some? <==> |Split(data)| >= 3 && ParseInt(Split(data)[1]).Some?
    ensures r.Some? ==> Some(r.value.0) == ParseInt(Split(data)[1]) && r.value.1 == Split(data)[2]
    ensures r.Some? ==> Sep !in r.value.1
  {
    var parts := Split(data);
    if |parts| < 3 then None
    else match ParseInt(parts[1])
      case None => None
      case Some(chatId) => Some((chatId, parts[2]))
  }

  /** `parts = data.split("_"); chat_id = int(parts[2]); level = int(parts[3])`. */
  function ParseLevelData(data: string): (r: Option<(int, int)>)
    ensures r.Some? <==> |Split(data)| >= 4 && ParseInt(Split(data)[2]).Some? && ParseInt(Split(data)[3]).Some?
    ensures r.Some? ==> Some(r.value.0) == ParseInt(Split(data)[2]) && Some(r.value.1) == ParseInt(Split(data)[3])
  {
    var parts := Split(data);
    if |parts| < 4 then None
    else match (ParseInt(parts[2]), ParseInt(parts[3]))
      case (Some(chatId), Some(level)) => Some((chatId, level))
      case _ => None
  }

  /** `int(data.split("_")[-1])`. */
  function ParseTrailingId(data: string): (r: Option<int>)
    ensures var parts := Split(data); r == ParseInt(parts[|parts| - 1])
    ensures r.Some? ==> |data| > 0 && IsDigit(data[|data| - 1])
  {
    var parts := Split(data);
    SplitLastIsSuffix(data);
    ParseInt(parts[|parts| - 1])
  }

  // ---------------------------------------------------------------------
  // Round trips

  lemma JoinThree(a: string, b: string, c: string)
    ensures Join([a, b, c]) == a + "_" + b + "_" + c
  {
    assert [a, b, c][1..] == [b, c];
    assert [b, c][1..] == [c];
    assert Join([b, c]) == b + [Sep] + Join([c]);
    assert Join([a, b, c]) == a + [Sep] + Join([b, c]);
  }

  lemma JoinFour(a: string, b: string, c: string, d: string)
    ensures Join([a, b, c, d]) == a + "_" + b + "_" + c + "_" + d
  {
    assert [a, b, c, d][1..] == [b, c, d];
    JoinThree(b, c, d);
  }

  lemma {:induction false} LanguageDataRoundTrip(chatId: int, code: string)
    requires Sep !in code
    ensures Split(LanguageData(chatId, code)) == ["lang", DecimalString(chatId), code]
    ensures ParseLanguageData(LanguageData(chatId, code)) == Some((chatId, code))
  {
    var fields := ["lang", DecimalString(chatId), code];
    JoinThree("lang", DecimalString(chatId), code);
    assert LanguageData(chatId, code) == Join(fields);
    SplitJoin(fields);
    ParseDecimal(chatId);
  }

  lemma {:induction false} IntelLevelDataRoundTrip(chatId: int, level: int)
    ensures Split(IntelLevelData(chatId, level)) == ["set", "intel", DecimalString(chatId), DecimalString(level)]
    ensures ParseLevelData(IntelLevelData(chatId, level)) == Some((chatId, level))
  {
    var fields := ["set", "intel", DecimalString(chatId), DecimalString(level)];
    JoinFour("set", "intel", DecimalString(chatId), DecimalString(level));
    assert IntelLevelData(chatId, level) == Join(fields);
    SplitJoin(fields);
    ParseDecimal(chatId);
    ParseDecimal(level);
  }

  lemma {:induction false} FreqLevelDataRoundTrip(chatId: int, level: int)
    ensures Split(FreqLevelData(chatId, level)) == ["set", "freq", DecimalString(chatId), DecimalString(level)]
    ensures ParseLevelData(FreqLevelData(chatId, level)) == Some((chatId, level))
  {
    var fields := ["set", "freq", DecimalString(chatId), DecimalString(level)];
    JoinFour("set", "freq", DecimalString(chatId), DecimalString(level));
    assert FreqLevelData(chatId, level) == Join(fields);
    SplitJoin(fields);
    ParseDecimal(chatId);
    ParseDecimal(level);
  }

  /** The last piece of a join is its last field. */
  lemma {:induction false} TrailingIdOfJoin(fields: seq<string>, chatId: int)
    requires |fields| >= 1 && fields[|fields| - 1] == DecimalString(chatId)
    requires forall k :: 0 <= k < |fields| ==> Sep !in fields[k]
    ensures ParseTrailingId(Join(fields)) == Some(chatId)
  {
    SplitJoin(fields);
    ParseDecimal(chatId);
  }

  /** `int(data.split("_")[-1])` recovers the chat id from every suffix-form payload. */
  lemma {:induction false} TrailingIdRoundTrip(chatId: int)
    ensures ParseTrailingId(IntelMenuData(chatId)) == Some(chatId)
    ensures ParseTrailingId(FreqMenuData(chatId)) == Some(chatId)
    ensures ParseTrailingId(CustomIntelData(chatId)) == Some(chatId)
    ensures ParseTrailingId(CustomFreqData(chatId)) == Some(chatId)
    ensures ParseTrailingId(BackData(chatId)) == Some(chatId)
  {
    ParseDecimal(chatId);
  }

  // ---------------------------------------------------------------------
  // Callback dispatch: the first registered handler whose prefix matches

  datatype CallbackHandler =
    | LanguageSelection   // process_language_selection
    | IntelMenu           // intel_menu
    | IntelSelection      // process_intelligence_selection
    | CustomIntelPrompt   // process_custom_intelligence
    | FreqMenu            // freq_menu
    | FreqSelection       // process_frequency_selection
    | CustomFreqPrompt    // process_custom_frequency
    | BackToSettings      // back_to_settings

  /** The callback handlers with their `startswith` prefixes, in registration order. */
  const CallbackHandlers: seq<(string, CallbackHandler)> := [
    ("lang_", LanguageSelection),
    ("set_intel_menu_", IntelMenu),
    ("set_intel_", IntelSelection),
    ("custom_intel_", CustomIntelPrompt),
    ("set_freq_menu_", FreqMenu),
    ("set_freq_", FreqSelection),
    ("custom_freq_", CustomFreqPrompt),
    ("back_to_settings_", BackToSettings)
  ]

  /** The handler of the first entry whose prefix `data` starts with. */
  function FirstMatch(handlers: seq<(string, CallbackHandler)>, data: string): (r: Option<CallbackHandler>)
    ensures r.None? <==> forall i :: 0 <= i < |handlers| ==> !(handlers[i].0 <= data)
  {
    if handlers == [] then None
    else if handlers[0].0 <= data then Some(handlers[0].1)
    else
      var r := FirstMatch(handlers[1..], data);
      assert forall i :: 1 <= i < |handlers| ==> handlers[i] == handlers[1..][i - 1];
      r
  }

  /** First match: the handler run is that of the earliest entry whose prefix the payload starts with. */
  lemma {:induction false} FirstMatchIsEarliest(handlers: seq<(string, CallbackHandler)>, data: string, k: nat)
    requires k < |handlers| && handlers[k].0 <= data
    requires forall j :: 0 <= j < k ==> !(handlers[j].0 <= data)
    ensures FirstMatch(handlers, data) == Some(handlers[k].1)
  {
    if k > 0 {
      FirstMatchIsEarliest(handlers[1..], data, k - 1);
    }
  }

  /** The handler the router runs for a callback payload, or `None` when no filter matches. */
  function RouteCallback(data: string): (r: Option<CallbackHandler>)
    ensures "lang_" <= data ==> r == Some(LanguageSelection)
    ensures r.Some? ==> "lang_" <= data || "set_" <= data || "custom_" <= data || "back_to_settings_" <= data
  {
    FirstMatch(CallbackHandlers, data)
  }

  /** The chat id a handler takes out of its payload, by the parsing that handler applies. */
  function ChatIdFor(h: CallbackHandler, data: string): Option<int>
  {
    match h
    case LanguageSelection =>
      (match ParseLanguageData(data) case None => None case Some(p) => Some(p.0))
    case IntelSelection | FreqSelection =>
      (match ParseLevelData(data) case None => None case Some(p) => Some(p.0))
    case _ => ParseTrailingId(data)
  }

  /** `data` reaches handler `h`, and `h` reads `chatId` back out of it. */
  predicate Addresses(data: string, h: CallbackHandler, chatId: int)
  {
    RouteCallback(data) == Some(h) && ChatIdFor(h, data) == Some(chatId)
  }

  /** A registered handler whose prefix differs from `data` at position `i` is passed over. */
  lemma PassOver(data: string, k: nat, i: nat)
    requires k < |CallbackHandlers|
    requires i < |CallbackHandlers[k].0| && i < |data| && CallbackHandlers[k].0[i] != data[i]
    ensures FirstMatch(CallbackHandlers[k..], data) == FirstMatch(CallbackHandlers[k + 1..], data)
  {
    assert CallbackHandlers[k..][1..] == CallbackHandlers[k + 1..];
    assert CallbackHandlers[k..][0] == CallbackHandlers[k];
  }

  lemma RouteLanguageData(chatId: int, code: string)
    requires Sep !in code
    ensures Addresses(LanguageData(chatId, code), LanguageSelection, chatId)
  {
    LanguageDataRoundTrip(chatId, code);
    assert LanguageData(chatId, code)[..5] == "lang_";
  }

  lemma RouteIntelMenuData(chatId: int)
    ensures Addresses(IntelMenuData(chatId), IntelMenu, chatId)
  {
    TrailingIdRoundTrip(chatId);
    var data := IntelMenuData(chatId);
    assert data[..15] == "set_intel_menu_";
    PassOver(data, 0, 0);
  }

  lemma RouteIntelLevelData(chatId: int, level: int)
    ensures Addresses(IntelLevelData(chatId, level), IntelSelection, chatId)
  {
    IntelLevelDataRoundTrip(chatId, level);
    var data := IntelLevelData(chatId, level);
    assert data[..10] == "set_intel_";
    assert data[10] == DecimalString(chatId)[0];
    PassOver(data, 0, 0);
    PassOver(data, 1, 10);
  }

  lemma RouteCustomIntelData(chatId: int)
    ensures Addresses(CustomIntelData(chatId), CustomIntelPrompt, chatId)
  {
    TrailingIdRoundTrip(chatId);
    var data := CustomIntelData(chatId);
    assert data[..13] == "custom_intel_";
    PassOver(data, 0, 0);
    PassOver(data, 1, 0);
    PassOver(data, 2, 0);
  }

  lemma RouteFreqMenuData(chatId: int)
    ensures Addresses(FreqMenuData(chatId), FreqMenu, chatId)
  {
    TrailingIdRoundTrip(chatId);
    var data := FreqMenuData(chatId);
    assert data[..14] == "set_freq_menu_";
    PassOver(data, 0, 0);
    PassOver(data, 1, 4);
    PassOver(data, 2, 4);
    PassOver(data, 3, 0);
  }

  lemma RouteFreqLevelData(chatId: int, level: int)
    ensures Addresses(FreqLevelData(chatId, level), FreqSelection, chatId)
  {
    FreqLevelDataRoundTrip(chatId, level);
    var data := FreqLevelData(chatId, level);
    assert data[..9] == "set_freq_";
    assert data[9] == DecimalString(chatId)[0];
    assert CallbackHandlers[0].0[0] != data[0];
    assert CallbackHandlers[1].0[4] != data[4];
    assert CallbackHandlers[2].0[4] != data[4];
    assert CallbackHandlers[3].0[0] != data[0];
    assert CallbackHandlers[4].0[9] != data[9];
    FirstMatchIsEarliest(CallbackHandlers, data, 5);
  }

  lemma RouteCustomFreqData(chatId: int)
    ensures Addresses(CustomFreqData(chatId), CustomFreqPrompt, chatId)
  {
    var data := CustomFreqData(chatId);
    assert ChatIdFor(CustomFreqPrompt, data) == Some(chatId) by {
      TrailingIdRoundTrip(chatId);
    }
    assert data[..12] == "custom_freq_";
    assert forall j :: 0 <= j < 6 ==> !(CallbackHandlers[j].0 <= data) by {
      assert CallbackHandlers[3].0[7] != data[7];
      assert forall j :: 0 <= j < 6 && j != 3 ==> CallbackHandlers[j].0[0] != data[0];
    }
    FirstMatchIsEarliest(CallbackHandlers, data, 6);
  }

  lemma RouteBackData(chatId: int)
    ensures Addresses(BackData(chatId), BackToSettings, chatId)
  {
    TrailingIdRoundTrip(chatId);
    var data := BackData(chatId);
    assert data[..17] == "back_to_settings_";
    assert forall j :: 0 <= j < 7 ==> CallbackHandlers[j].0[0] != data[0];
    FirstMatchIsEarliest(CallbackHandlers, data, 7);
  }

  /**
   * Why `set_intel_menu_` must be registered before `set_intel_`: a menu
   * payload also starts with `set_intel_`, and the level parser cannot read
   * it (its third piece is "menu"). Likewise for the frequency menu.
   */
  lemma MenuDataWouldFailLevelParser(chatId: int)
    ensures "set_intel_" <= IntelMenuData(chatId) && ParseLevelData(IntelMenuData(chatId)).None?
    ensures "set_freq_" <= FreqMenuData(chatId) && ParseLevelData(FreqMenuData(chatId)).None?
  {
    assert !IsDigit("menu"[0]);
    assert ParseInt("menu") == None;
    var intel := IntelMenuData(chatId);
    assert intel[..10] == "set_intel_menu_"[..10];
    assert Split(intel)[2] == "menu";
    var freq := FreqMenuData(chatId);
    assert freq[..9] == "set_freq_menu_"[..9];
    assert Split(freq)[2] == "menu";
  }
}
