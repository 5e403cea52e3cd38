/**
 * Miscellaneous commands (plugins/misc.py): the bot-info cache with its
 * one-hour lifetime, the start keyboard, the `/id` reply and the `misc_`
 * callback that switches between the start, help and about screens.
 */
module Misc {
  import opened Common
  import opened Strings
  import opened Platform

  // ---------------------------------------------------------------------------
  // get_bot_info: a value cached for CACHE_TTL seconds
  // ---------------------------------------------------------------------------

  /** `CACHE_TTL`, in seconds. */
  const CacheTtl: int := 3600

  /** The parts of `get_me()`'s answer the handlers use. */
  datatype BotInfo = BotInfo(username: string, mention: string)

  /** `get_bot_info` asks the platform again when the cache is older than the TTL, or empty. */
  predicate NeedsRefresh(cache: Option<BotInfo>, lastRefresh: int, now: int)
  {
    now - lastRefresh > CacheTtl || cache.None?
  }

  /** A filled cache is reused up to and including the instant the TTL runs out, and refreshed after it. */
  lemma RefreshWindow(info: BotInfo, lastRefresh: int, now: int)
    ensures NeedsRefresh(Some(info), lastRefresh, now) <==> now > lastRefresh + CacheTtl
    ensures !NeedsRefresh(Some(info), lastRefresh, lastRefresh + CacheTtl)
    ensures NeedsRefresh(None, lastRefresh, now)
  {
  }

  /** The two module globals `bot_info_cache` and `last_cache_refresh`. */
  class BotInfoCache {
    var cache: Option<BotInfo>
    var lastRefresh: int

    /** Module load: an empty cache, last refreshed at time 0. */
    constructor()
      ensures cache == None && lastRefresh == 0
    {
      cache := None;
      lastRefresh := 0;
    }

    /**
     * `get_bot_info` at clock reading `now`; `getMe` is what `bot.get_me()`
     * would answer. `fetched` tells whether it was called.
     */
    method GetBotInfo(now: int, getMe: BotInfo) returns (info: BotInfo, fetched: bool)
      modifies this
      ensures fetched == NeedsRefresh(old(cache), old(lastRefresh), now)
      ensures fetched ==> cache == Some(getMe) && lastRefresh == now && info == getMe
      ensures !fetched ==> cache == old(cache) && lastRefresh == old(lastRefresh)
      ensures cache == Some(info)
    {
      if now - lastRefresh > CacheTtl || cache.None? {
        cache := Some(getMe);
        lastRefresh := now;
        return getMe, true;
      }
      return cache.value, false;
    }

    /**
     * `misc_callback` for data matching `^misc_`: the bot info is looked up
     * first, whatever the action, then the screen for the action is shown
     * by editing the message, or nothing is edited.
     */
    method MiscCallback(data: string, presserMention: string, now: int, getMe: BotInfo)
      returns (edit: Option<MiscEdit>, fetched: bool)
      requires IsMiscCallback(data)
      modifies this
      ensures fetched == NeedsRefresh(old(cache), old(lastRefresh), now)
      ensures fetched ==> cache == Some(getMe) && lastRefresh == now
      ensures !fetched ==> cache == old(cache) && lastRefresh == old(lastRefresh)
      ensures cache.Some? && edit == MiscEditFor(LastField(data, '_'), presserMention, cache.value)
    {
      var action := LastField(data, '_');
      var info;
      info, fetched := GetBotInfo(now, getMe);
      if action == "home" {
        edit := Some(MiscEdit(StartScreen(presserMention, info.username), StartButtons(info.username)));
      } else if action == "help" {
        edit := Some(MiscEdit(HelpScreen, BackKeyboard));
      } else if action == "about" {
        edit := Some(MiscEdit(AboutScreen(info.mention), BackKeyboard));
      } else {
        edit := None;
      }
    }

    /**
     * `/start` in a private chat: the bot info is looked up, then the start
     * screen greets the sender with the add-me keyboard.
     */
    method StartCommand(userMention: string, now: int, getMe: BotInfo) returns (reply: MiscEdit, fetched: bool)
      modifies this
      ensures fetched == NeedsRefresh(old(cache), old(lastRefresh), now)
      ensures fetched ==> cache == Some(getMe) && lastRefresh == now
      ensures !fetched ==> cache == old(cache) && lastRefresh == old(lastRefresh)
      ensures cache.Some? && reply == StartReply(userMention, cache.value)
    {
      var info;
      info, fetched := GetBotInfo(now, getMe);
      reply := MiscEdit(StartScreen(userMention, info.username), StartButtons(info.username));
    }

    /** `/about` in a private chat: the bot info is looked up, then the about screen names the bot. */
    method AboutCommand(now: int, getMe: BotInfo) returns (reply: MiscEdit, fetched: bool)
      modifies this
      ensures fetched == NeedsRefresh(old(cache), old(lastRefresh), now)
      ensures fetched ==> cache == Some(getMe) && lastRefresh == now
      ensures !fetched ==> cache == old(cache) && lastRefresh == old(lastRefresh)
      ensures cache.Some? && reply == AboutReply(cache.value)
    {
      var info;
      info, fetched := GetBotInfo(now, getMe);
      reply := MiscEdit(AboutScreen(info.mention), HomeKeyboard);
    }
  }

  // ---------------------------------------------------------------------------
  // create_start_buttons
  // ---------------------------------------------------------------------------

  const AddMeCaption := "➕ ᴀᴅᴅ ᴍᴇ ᴛᴏ ʏᴏᴜʀ ɢʀᴏᴜᴘ ➕"
  const HelpCaption := "ʜᴇʟᴘ"
  const AboutCaption := "ᴀʙᴏᴜᴛ"
  const UpdatesCaption := "🤖 ᴜᴘᴅᴀᴛᴇ"
  const RequestGroupCaption := "🔍 ɢʀᴏᴜᴘ"
  const UrlPrefix := "https://t.me/"
  const StartGroupSuffix := "?startgroup=true"

  /** The link that offers to add the bot to a group. */
  function StartGroupUrl(username: string): string
  {
    UrlPrefix + username + StartGroupSuffix
  }

  /** The username sits, unaltered, between the fixed prefix and the fixed suffix, so the link names exactly one bot. */
  lemma StartGroupUrlRecovers(username: string)
    ensures var url := StartGroupUrl(username);
            && |url| == |UrlPrefix| + |username| + |StartGroupSuffix|
            && url[..|UrlPrefix|] == UrlPrefix
            && url[|UrlPrefix|..|url| - |StartGroupSuffix|] == username
            && url[|url| - |StartGroupSuffix|..] == StartGroupSuffix
  {
    var url := StartGroupUrl(username);
    assert url == UrlPrefix + (username + StartGroupSuffix);
    assert url[|UrlPrefix|..] == username + StartGroupSuffix;
  }

  /** Add-me link; help and about; the two fixed channel links. */
  function StartButtons(username: string): Keyboard
  {
    [ [UrlButton(AddMeCaption, StartGroupUrl(username))],
      [CallbackButton(HelpCaption, "misc_help"), CallbackButton(AboutCaption, "misc_about")],
      [UrlButton(UpdatesCaption, "https://t.me/rmcbackup"), UrlButton(RequestGroupCaption, "https://t.me/rmcmovierequest")] ]
  }

  /** The single Back button of the help and about screens a callback opens. */
  const BackKeyboard: Keyboard := [[CallbackButton("⬅️ Back", "misc_home")]]

  /** The single Home button of the help and about screens a command opens. */
  const HomeKeyboard: Keyboard := [[CallbackButton("🏠 Home", "misc_home")]]

  // ---------------------------------------------------------------------------
  // misc_callback
  // ---------------------------------------------------------------------------

  /** The data the handler is registered for: `^misc_`. */
  predicate IsMiscCallback(data: string)
  {
    |data| >= 5 && data[..5] == "misc_"
  }

  /**
   * The screens; their texts are templates of utils/script.py filled with
   * these values.
   */
  datatype Screen = StartScreen(userMention: string, botUsername: string) | HelpScreen | AboutScreen(botMention: string)

  /** A screen and its keyboard: the message a command sends, or the edit a callback makes. */
  datatype MiscEdit = MiscEdit(screen: Screen, keyboard: Keyboard)

  /** The reply to `/start`. */
  function StartReply(userMention: string, info: BotInfo): MiscEdit
  {
    MiscEdit(StartScreen(userMention, info.username), StartButtons(info.username))
  }

  /** The reply to `/help`: the help screen, whose button leads home. */
  const HelpReply := MiscEdit(HelpScreen, HomeKeyboard)

  /** The reply to `/about`. */
  function AboutReply(info: BotInfo): MiscEdit
  {
    MiscEdit(AboutScreen(info.mention), HomeKeyboard)
  }

  /** The edit for an action: home, help and about each have a screen; any other action edits nothing. */
  function MiscEditFor(action: string, presserMention: string, info: BotInfo): (r: Option<MiscEdit>)
    ensures r.Some? <==> action == "home" || action == "help" || action == "about"
    ensures r.Some? && action != "home" ==> r.value.keyboard == BackKeyboard
    ensures action == "home" ==> r.value.screen.StartScreen? && r.value.screen.botUsername == info.username
                                 && r.value.screen.userMention == presserMention
  {
    if action == "home" then Some(MiscEdit(StartScreen(presserMention, info.username), StartButtons(info.username)))
    else if action == "help" then Some(MiscEdit(HelpScreen, BackKeyboard))
    else if action == "about" then Some(MiscEdit(AboutScreen(info.mention), BackKeyboard))
    else None
  }

  /**
   * A command and the callback of the same name show the same screen; only
   * the button back differs (Home after a command, Back after a callback),
   * and both send `misc_home`.
   */
  lemma CommandsMatchCallbacks(mention: string, info: BotInfo)
    ensures MiscEditFor("home", mention, info) == Some(StartReply(mention, info))
    ensures MiscEditFor("help", mention, info).value.screen == HelpReply.screen
    ensures MiscEditFor("about", mention, info).value.screen == AboutReply(info).screen
    ensures OffersCallback(HomeKeyboard, "misc_home") && OffersCallback(BackKeyboard, "misc_home")
  {
    var home, back := HomeKeyboard[0], BackKeyboard[0];
    assert home in HomeKeyboard && home[0] in home && home[0] == CallbackButton(home[0].caption, "misc_home");
    assert back in BackKeyboard && back[0] in back && back[0] == CallbackButton(back[0].caption, "misc_home");
  }

  /** Text after the last underscore decides the action, so `misc_x_help` shows help too. */
  lemma MiscActionIsLastField(prefix: string, action: string)
    requires '_' !in action
    ensures LastField(prefix + "_" + action, '_') == action
  {
    SplitLastField(prefix, '_', action);
  }

  /** The callback data a screen's keyboard can send. */
  predicate OffersCallback(keyboard: Keyboard, data: string)
  {
    exists row, b :: row in keyboard && b in row && b == CallbackButton(b.caption, data)
  }

  /** The start screen offers help and about; the help and about screens offer home. */
  lemma MiscScreenCallbacks(action: string, presserMention: string, info: BotInfo, data: string)
    requires MiscEditFor(action, presserMention, info).Some?
    requires OffersCallback(MiscEditFor(action, presserMention, info).value.keyboard, data)
    ensures data == "misc_help" || data == "misc_about" || data == "misc_home"
    ensures action == "home" <==> data != "misc_home"
  {
    var keyboard := MiscEditFor(action, presserMention, info).value.keyboard;
    var row, b :| row in keyboard && b in row && b == CallbackButton(b.caption, data);
    if action == "home" {
      assert keyboard == StartButtons(info.username);
    } else {
      assert keyboard == BackKeyboard;
    }
  }

  /** Each of those callbacks matches `^misc_` and opens a screen again. */
  lemma MiscCallbacksOpenScreens(presserMention: string, info: BotInfo)
    ensures IsMiscCallback("misc_home") && MiscEditFor(LastField("misc_home", '_'), presserMention, info).Some?
    ensures IsMiscCallback("misc_help") && MiscEditFor(LastField("misc_help", '_'), presserMention, info).Some?
    ensures IsMiscCallback("misc_about") && MiscEditFor(LastField("misc_about", '_'), presserMention, info).Some?
  {
    MiscActionIsLastField("misc", "help");
    MiscActionIsLastField("misc", "about");
    MiscActionIsLastField("misc", "home");
    assert "misc" + "_" + "help" == "misc_help";
    assert "misc" + "_" + "about" == "misc_about";
    assert "misc" + "_" + "home" == "misc_home";
  }

  // ---------------------------------------------------------------------------
  // id_command
  // ---------------------------------------------------------------------------

  /**
   * The message `/id` replies to, as the handler reads it. An empty
   * `forwardSenderName` stands for a missing one (both are falsy).
   */
  datatype Replied = Replied(fromUser: Option<int>, forwardFrom: Option<int>, forwardFromChat: Option<int>, forwardSenderName: string)

  /** The `/id` message: its chat, its sender if any, and the message it replies to if any. */
  datatype IdRequest = IdRequest(chatId: int, fromUser: Option<int>, replied: Option<Replied>)

  /** One line of the `/id` reply. */
  datatype IdLine =
    | ChatIdLine(id: int)
    | YourIdLine(id: int)
    | RepliedUserLine(id: int)
    | ForwardedUserLine(id: int)
    | ForwardedChatLine(id: int)
    | ForwardSenderLine(name: string)

  /** The position of each kind of line in the reply. */
  function Rank(l: IdLine): nat
  {
    match l
    case ChatIdLine(_) => 0
    case YourIdLine(_) => 1
    case RepliedUserLine(_) => 2
    case ForwardedUserLine(_) => 3
    case ForwardedChatLine(_) => 4
    case ForwardSenderLine(_) => 5
  }

  /** The Your ID line, when the message has a sender. */
  function YourIdLines(m: IdRequest): seq<IdLine>
  {
    if m.fromUser.Some? then [YourIdLine(m.fromUser.value)] else []
  }

  /** The Replied User ID line, when the replied message has a sender. */
  function RepliedUserLines(r: Replied): seq<IdLine>
  {
    if r.fromUser.Some? then [RepliedUserLine(r.fromUser.value)] else []
  }

  /** The Forwarded User ID line, when the replied message was forwarded from a user. */
  function ForwardedUserLines(r: Replied): seq<IdLine>
  {
    if r.forwardFrom.Some? then [ForwardedUserLine(r.forwardFrom.value)] else []
  }

  /** The Forwarded Chat ID line, when the replied message was forwarded from a chat. */
  function ForwardedChatLines(r: Replied): seq<IdLine>
  {
    if r.forwardFromChat.Some? then [ForwardedChatLine(r.forwardFromChat.value)] else []
  }

  /** The Forward Sender Name line, when the replied message names a hidden forward sender. */
  function ForwardSenderLines(r: Replied): seq<IdLine>
  {
    if r.forwardSenderName != "" then [ForwardSenderLine(r.forwardSenderName)] else []
  }

  /** The lines about the replied message, in the order they are checked. */
  function RepliedLines(r: Replied): seq<IdLine>
  {
    RepliedUserLines(r) + ForwardedUserLines(r) + ForwardedChatLines(r) + ForwardSenderLines(r)
  }

  /** The lines about the message the command replies to, if any. */
  function ReplyLines(m: IdRequest): seq<IdLine>
  {
    match m.replied
    case Some(r) => RepliedLines(r)
    case None => []
  }

  /** The lines of the reply: the chat first, then each present field in a fixed order. */
  function IdLines(m: IdRequest): (lines: seq<IdLine>)
    ensures |lines| >= 1 && lines[0] == ChatIdLine(m.chatId)
  {
    [ChatIdLine(m.chatId)] + YourIdLines(m) + ReplyLines(m)
  }

  /** Each line about the replied message is there exactly when its field is, and carries its value. */
  lemma RepliedLinesPresence(r: Replied, u: int, n: string)
    ensures RepliedUserLine(u) in RepliedLines(r) <==> r.fromUser == Some(u)
    ensures ForwardedUserLine(u) in RepliedLines(r) <==> r.forwardFrom == Some(u)
    ensures ForwardedChatLine(u) in RepliedLines(r) <==> r.forwardFromChat == Some(u)
    ensures ForwardSenderLine(n) in RepliedLines(r) <==> n != "" && r.forwardSenderName == n
    ensures forall l :: l in RepliedLines(r) ==> Rank(l) >= 2
  {
    var a, b, c, d := RepliedUserLines(r), ForwardedUserLines(r), ForwardedChatLines(r), ForwardSenderLines(r);
    assert RepliedLines(r) == a + b + c + d;
  }

  /** Each optional line is there exactly when its field is, and carries that field's value. */
  lemma IdLinesPresence(m: IdRequest, u: int, n: string)
    ensures YourIdLine(u) in IdLines(m) <==> m.fromUser == Some(u)
    ensures RepliedUserLine(u) in IdLines(m) <==> m.replied.Some? && m.replied.value.fromUser == Some(u)
    ensures ForwardedUserLine(u) in IdLines(m) <==> m.replied.Some? && m.replied.value.forwardFrom == Some(u)
    ensures ForwardedChatLine(u) in IdLines(m) <==> m.replied.Some? && m.replied.value.forwardFromChat == Some(u)
    ensures ForwardSenderLine(n) in IdLines(m) <==> m.replied.Some? && n != "" && m.replied.value.forwardSenderName == n
  {
    var head := [ChatIdLine(m.chatId)] + YourIdLines(m);
    assert IdLines(m) == head + ReplyLines(m);
    assert forall l :: l in head ==> Rank(l) < 2;
    match m.replied {
      case Some(r) =>
        RepliedLinesPresence(r, u, n);
      case None =>
        assert ReplyLines(m) == [];
    }
  }

  /** Only the Chat ID and Your ID lines can appear when the command replies to nothing. */
  lemma NoReplyNoRepliedLines(m: IdRequest)
    requires m.replied.None?
    ensures forall l :: l in IdLines(m) ==> Rank(l) < 2
  {
    assert IdLines(m) == [ChatIdLine(m.chatId)] + YourIdLines(m);
  }

  /** Lines strictly increase in rank, so no kind of line appears twice. */
  predicate Ordered(lines: seq<IdLine>)
  {
    forall i, j :: 0 <= i < j < |lines| ==> Rank(lines[i]) < Rank(lines[j])
  }

  /** Every line of `lines` ranks in `lo..hi`. */
  predicate RanksWithin(lines: seq<IdLine>, lo: nat, hi: nat)
  {
    forall l :: l in lines ==> lo <= Rank(l) <= hi
  }

  /** Two ordered runs, the first ranking below the second, make an ordered run. */
  lemma OrderedConcat(a: seq<IdLine>, b: seq<IdLine>, lo: nat, k: nat, hi: nat)
    requires lo <= k < hi && Ordered(a) && Ordered(b) && RanksWithin(a, lo, k) && RanksWithin(b, k + 1, hi)
    ensures Ordered(a + b) && RanksWithin(a + b, lo, hi)
  {
    forall i, j | 0 <= i < j < |a + b|
      ensures Rank((a + b)[i]) < Rank((a + b)[j])
    {
      if j < |a| {
        assert (a + b)[i] == a[i] && (a + b)[j] == a[j];
      } else if i < |a| {
        assert (a + b)[i] == a[i] && (a + b)[j] == b[j - |a|];
        assert a[i] in a && b[j - |a|] in b;
      } else {
        assert (a + b)[i] == b[i - |a|] && (a + b)[j] == b[j - |a|];
      }
    }
    forall l | l in a + b
      ensures lo <= Rank(l) <= hi
    {
      assert l in a || l in b;
    }
  }

  /** A run of at most one line, all of one rank. */
  lemma OptionalLineOrdered(lines: seq<IdLine>, k: nat)
    requires |lines| <= 1 && (lines != [] ==> Rank(lines[0]) == k)
    ensures Ordered(lines) && RanksWithin(lines, k, k)
  {
  }

  /** The lines about the replied message come in rank order, all after the Your ID line. */
  lemma RepliedLinesOrdered(r: Replied)
    ensures Ordered(RepliedLines(r)) && RanksWithin(RepliedLines(r), 2, 5)
  {
    var a, b, c, d := RepliedUserLines(r), ForwardedUserLines(r), ForwardedChatLines(r), ForwardSenderLines(r);
    OptionalLineOrdered(a, 2);
    OptionalLineOrdered(b, 3);
    OptionalLineOrdered(c, 4);
    OptionalLineOrdered(d, 5);
    OrderedConcat(a, b, 2, 2, 3);
    OrderedConcat(a + b, c, 2, 3, 4);
    OrderedConcat(a + b + c, d, 2, 4, 5);
  }

  /** The lines come in the fixed order Chat, Your, Replied User, Forwarded User, Forwarded Chat, Forward Sender. */
  lemma IdLinesOrdered(m: IdRequest)
    ensures Ordered(IdLines(m))
  {
    var head := [ChatIdLine(m.chatId)] + YourIdLines(m);
    OptionalLineOrdered([ChatIdLine(m.chatId)], 0);
    OptionalLineOrdered(YourIdLines(m), 1);
    OrderedConcat([ChatIdLine(m.chatId)], YourIdLines(m), 0, 0, 1);
    match m.replied {
      case Some(r) =>
        RepliedLinesOrdered(r);
        OrderedConcat(head, RepliedLines(r), 0, 1, 5);
      case None =>
        assert IdLines(m) == head + [];
        assert head + [] == head;
    }
  }

  function LineText(l: IdLine): string
  {
    match l
    case ChatIdLine(c) => "**Chat ID:** `" + IntToString(c) + "`\n"
    case YourIdLine(u) => "**Your ID:** `" + IntToString(u) + "`\n"
    case RepliedUserLine(u) => "**Replied User ID:** `" + IntToString(u) + "`\n"
    case ForwardedUserLine(u) => "**Forwarded User ID:** `" + IntToString(u) + "`\n"
    case ForwardedChatLine(c) => "**Forwarded Chat ID:** `" + IntToString(c) + "`\n"
    case ForwardSenderLine(n) => "**Forward Sender Name:** " + n + "\n"
  }

  /** The lines' texts, one after another. */
  function RenderLines(lines: seq<IdLine>): string
  {
    if lines == [] then "" else LineText(lines[0]) + RenderLines(lines[1..])
  }

  /** Rendering distributes over concatenation. */
  lemma {:induction false} RenderLinesConcat(a: seq<IdLine>, b: seq<IdLine>)
    ensures RenderLines(a + b) == RenderLines(a) + RenderLines(b)
  {
    if a == [] {
      assert a + b == b;
    } else {
      assert (a + b)[0] == a[0];
      assert (a + b)[1..] == a[1..] + b;
      RenderLinesConcat(a[1..], b);
    }
  }

  /** The text of an optional line: its line text, or nothing. */
  function OptionalText(lines: seq<IdLine>): string
  {
    if lines == [] then "" else LineText(lines[0])
  }

  /** The text of the lines about the replied message. */
  function RepliedText(r: Replied): string
  {
    OptionalText(RepliedUserLines(r)) + OptionalText(ForwardedUserLines(r)) + OptionalText(ForwardedChatLines(r))
    + OptionalText(ForwardSenderLines(r))
  }

  /** The text `/id` replies with. */
  function IdText(m: IdRequest): string
  {
    LineText(ChatIdLine(m.chatId)) + OptionalText(YourIdLines(m))
    + (match m.replied case Some(r) => RepliedText(r) case None => "")
  }

  /** An optional line renders as its text. */
  lemma OptionalTextRenders(lines: seq<IdLine>)
    requires |lines| <= 1
    ensures OptionalText(lines) == RenderLines(lines)
  {
    if lines != [] {
      assert lines[1..] == [];
    }
  }

  /** The replied message's text is the rendering of its lines. */
  lemma RepliedTextRenders(r: Replied)
    ensures RepliedText(r) == RenderLines(RepliedLines(r))
  {
    var a, b, c, d := RepliedUserLines(r), ForwardedUserLines(r), ForwardedChatLines(r), ForwardSenderLines(r);
    OptionalTextRenders(a);
    OptionalTextRenders(b);
    OptionalTextRenders(c);
    OptionalTextRenders(d);
    RenderLinesConcat(a, b);
    RenderLinesConcat(a + b, c);
    RenderLinesConcat(a + b + c, d);
  }

  /** The reply text is exactly the lines rendered in order: one line of text per present field. */
  lemma IdTextRenders(m: IdRequest)
    ensures IdText(m) == RenderLines(IdLines(m))
  {
    var chat := [ChatIdLine(m.chatId)];
    OptionalTextRenders(chat);
    OptionalTextRenders(YourIdLines(m));
    RenderLinesConcat(chat, YourIdLines(m));
    RenderLinesConcat(chat + YourIdLines(m), ReplyLines(m));
    match m.replied {
      case Some(r) => RepliedTextRenders(r);
      case None =>
    }
  }

  /** Whatever the message, the reply opens with the Chat ID line. */
  lemma IdTextStartsWithChatId(m: IdRequest)
    ensures var first := LineText(ChatIdLine(m.chatId));
            |first| <= |IdText(m)| && IdText(m)[..|first|] == first
  {
  }

  /** `id_command`: the reply text, built one conditional line at a time. */
  method IdCommand(m: IdRequest) returns (text: string)
    ensures text == IdText(m)
  {
    text := LineText(ChatIdLine(m.chatId));
    if m.fromUser.Some? {
      text := text + LineText(YourIdLine(m.fromUser.value));
    } else {
      assert text == text + "";
    }
    if m.replied.Some? {
      text := AppendRepliedLines(text, m.replied.value);
    } else {
      assert text == text + "";
    }
  }

  /** The `reply_to_message` block of `id_command`: one line per present field of the replied message. */
  method AppendRepliedLines(text: string, r: Replied) returns (t: string)
    ensures t == text + RepliedText(r)
  {
    ghost var a, b, c, d := OptionalText(RepliedUserLines(r)), OptionalText(ForwardedUserLines(r)),
                            OptionalText(ForwardedChatLines(r)), OptionalText(ForwardSenderLines(r));
    t := text;
    if r.fromUser.Some? {
      t := t + LineText(RepliedUserLine(r.fromUser.value));
    } else {
      assert t == t + "";
    }
    assert t == text + a;
    if r.forwardFrom.Some? {
      t := t + LineText(ForwardedUserLine(r.forwardFrom.value));
    } else {
      assert t == t + "";
    }
    AppendAssoc(text, a, b);
    assert t == text + (a + b);
    if r.forwardFromChat.Some? {
      t := t + LineText(ForwardedChatLine(r.forwardFromChat.value));
    } else {
      assert t == t + "";
    }
    AppendAssoc(text, a + b, c);
    assert t == text + (a + b + c);
    if r.forwardSenderName != "" {
      t := t + LineText(ForwardSenderLine(r.forwardSenderName));
    } else {
      assert t == t + "";
    }
    AppendAssoc(text, a + b + c, d);
  }
}
