/**
 * Force subscribe (plugins/fsub.py): the permission checks a channel must
 * pass, the `/fsub` and `/nofsub` commands that set and clear a group's
 * `f_sub` channel, and the `checksub_` button that lifts a member's
 * restriction once they have joined the channel.
 *
 * Each SDK call is replaced by the value it returns or the exception it
 * raises; the group store is the map `get_group` reads and `update_group`
 * writes, returned as the handler leaves it.
 */
module Fsub {
  import opened Common
  import opened Strings
  import opened Platform
  import opened Groups

  // ---------------------------------------------------------------------------
  // validate_fsub_channel
  // ---------------------------------------------------------------------------

  /** Why a channel cannot be used, in the order the checks run. */
  datatype Problem =
    | NoChannelAdmin
    | NoInvitePermission
    | NotChannelOrSupergroup
    | NoGroupAdmin
    | NoRestrictPermission
    | NotAdminInChannel
    | CallFailed(text: string)

  function ProblemText(p: Problem): string
  {
    match p
    case NoChannelAdmin => "❌ Bot needs admin rights in channel"
    case NoInvitePermission => "❌ Bot needs 'Invite Users' permission in channel"
    case NotChannelOrSupergroup => "❌ FSub must be a channel or supergroup"
    case NoGroupAdmin => "❌ Bot needs admin rights in this group"
    case NoRestrictPermission => "❌ Bot needs 'Restrict Members' permission in group"
    case NotAdminInChannel => "❌ Bot is not admin in channel"
    case CallFailed(text) => "❌ Error: " + text
  }

  /** The `except` clauses: ChannelPrivate and ChatAdminRequired mean "not admin in channel", from whichever call. */
  function Caught(e: SdkError): Problem
  {
    if e.kind == ChannelPrivate || e.kind == ChatAdminRequired then NotAdminInChannel else CallFailed(e.text)
  }

  /**
   * What the four SDK calls give: `get_chat` of the channel, the bot's
   * membership there, `get_chat` of the group, the bot's membership there.
   */
  datatype ChannelFacts = ChannelFacts(channel: Fetch<ChatInfo>, channelMe: Fetch<Member>,
                                       group: Fetch<ChatInfo>, groupMe: Fetch<Member>)

  /** The group-side checks, run once the channel has passed. */
  function ValidateGroupSide(f: ChannelFacts, channel: ChatInfo): Result<ChatInfo, Problem>
  {
    match f.group
    case Raised(e) => Err(Caught(e))
    case Got(_) =>
      match f.groupMe
      case Raised(e) => Err(Caught(e))
      case Got(me) =>
        if me.privileges.None? then Err(NoGroupAdmin)
        else if !me.privileges.value.canRestrictMembers then Err(NoRestrictPermission)
        else Ok(channel)
  }

  /** `validate_fsub_channel`: the channel on success, the first failing check otherwise. */
  function ValidateFsubChannel(f: ChannelFacts): Result<ChatInfo, Problem>
  {
    match f.channel
    case Raised(e) => Err(Caught(e))
    case Got(chat) =>
      match f.channelMe
      case Raised(e) => Err(Caught(e))
      case Got(me) =>
        if me.privileges.None? then Err(NoChannelAdmin)
        else if !me.privileges.value.canInviteUsers then Err(NoInvitePermission)
        else if chat.kind != Channel && chat.kind != Supergroup then Err(NotChannelOrSupergroup)
        else ValidateGroupSide(f, chat)
  }

  /** Every check passes: no call raised, and the bot holds each right. */
  predicate AllChecksPass(f: ChannelFacts)
  {
    && f.channel.Got? && f.channelMe.Got? && f.group.Got? && f.groupMe.Got?
    && f.channelMe.value.privileges.Some? && f.channelMe.value.privileges.value.canInviteUsers
    && f.channel.value.kind in {Channel, Supergroup}
    && f.groupMe.value.privileges.Some? && f.groupMe.value.privileges.value.canRestrictMembers
  }

  /** The channel is accepted exactly when all checks pass, and then it is the fetched channel. */
  lemma ValidateAccepts(f: ChannelFacts)
    ensures ValidateFsubChannel(f).Ok? <==> AllChecksPass(f)
    ensures ValidateFsubChannel(f).Ok? ==> ValidateFsubChannel(f).value == f.channel.value
  {
    if f.channel.Got? && f.channelMe.Got? {
      var me := f.channelMe.value;
      if me.privileges.Some? && me.privileges.value.canInviteUsers && f.channel.value.kind in {Channel, Supergroup} {
        assert ValidateFsubChannel(f) == ValidateGroupSide(f, f.channel.value);
      }
    }
  }

  /**
   * Each message is returned exactly when its check is the first to fail:
   * every earlier check passed and every earlier call returned.
   */
  lemma ValidateOrder(f: ChannelFacts)
    ensures var r := ValidateFsubChannel(f);
            && (r == Err(NoChannelAdmin) <==> f.channel.Got? && f.channelMe.Got? && f.channelMe.value.privileges.None?)
            && (r == Err(NoInvitePermission) <==>
                  f.channel.Got? && f.channelMe.Got? && f.channelMe.value.privileges.Some?
                  && !f.channelMe.value.privileges.value.canInviteUsers)
            && (r == Err(NotChannelOrSupergroup) <==>
                  f.channel.Got? && f.channelMe.Got? && f.channelMe.value.privileges.Some?
                  && f.channelMe.value.privileges.value.canInviteUsers && f.channel.value.kind !in {Channel, Supergroup})
            && (r == Err(NoGroupAdmin) <==>
                  ChannelSidePasses(f) && f.group.Got? && f.groupMe.Got? && f.groupMe.value.privileges.None?)
            && (r == Err(NoRestrictPermission) <==>
                  ChannelSidePasses(f) && f.group.Got? && f.groupMe.Got? && f.groupMe.value.privileges.Some?
                  && !f.groupMe.value.privileges.value.canRestrictMembers)
  {
    if ChannelSidePasses(f) {
      assert ValidateFsubChannel(f) == ValidateGroupSide(f, f.channel.value);
    }
  }

  /** The channel-side checks pass. */
  predicate ChannelSidePasses(f: ChannelFacts)
  {
    && f.channel.Got? && f.channelMe.Got?
    && f.channelMe.value.privileges.Some? && f.channelMe.value.privileges.value.canInviteUsers
    && f.channel.value.kind in {Channel, Supergroup}
  }

  /** An exception from any of the four calls is reported by its class, and ends the checks. */
  lemma ValidateExceptions(f: ChannelFacts)
    ensures f.channel.Raised? ==> ValidateFsubChannel(f) == Err(Caught(f.channel.error))
    ensures f.channel.Got? && f.channelMe.Raised? ==> ValidateFsubChannel(f) == Err(Caught(f.channelMe.error))
    ensures ChannelSidePasses(f) && f.group.Raised? ==> ValidateFsubChannel(f) == Err(Caught(f.group.error))
    ensures ChannelSidePasses(f) && f.group.Got? && f.groupMe.Raised? ==> ValidateFsubChannel(f) == Err(Caught(f.groupMe.error))
  {
    if ChannelSidePasses(f) {
      assert ValidateFsubChannel(f) == ValidateGroupSide(f, f.channel.value);
    }
  }

  // ---------------------------------------------------------------------------
  // /fsub and /nofsub
  // ---------------------------------------------------------------------------

  /**
   * What a command leaves in the group: a reply to the command, or the
   * progress message edited into a result, or the progress message as it
   * was (`SettingUp`, `Removing`: the bot left the chat, or a call raised
   * after the write).
   */
  datatype CommandReply =
    | FormatError
    | InvalidChannelId
    | SettingUp
    | Removing
    | OnlyOwner(ownerName: string)
    | Unverified
    | Rejected(problem: Problem)
    | Enabled(title: string, inviteLink: Option<string>, channelId: int)
    | NoFsubConfigured
    | Disabled

  function CommandReplyText(r: CommandReply): string
  {
    match r
    case FormatError => "❌ **Format:** `/fsub channel_id`"
    case InvalidChannelId => "❌ **Invalid Channel ID!** Must be integer"
    case SettingUp => "🔒 **Setting up Force Subscribe...**"
    case Removing => "🔓 **Removing Force Subscribe...**"
    case OnlyOwner(name) => "❌ Only **" + name + "** can use this command"
    case Unverified => "🔒 **Unverified group!** Use /verify first"
    case Rejected(p) => ProblemText(p)
    case Enabled(title, link, id) =>
      "✅ **Force Subscribe Enabled!**\n\n• **Channel:** [" + title + "](" + Shown(link) + ")\n• **Channel ID:** `"
      + IntToString(id) + "`\n\nAll new members must join this channel to participate."
    case NoFsubConfigured => "❌ **No Force Subscribe configured!**"
    case Disabled => "✅ **Force Subscribe Disabled!**\n\nMembers can now participate without joining any channel."
  }

  /** The group store afterwards, whether the bot left the chat, and what the group sees. */
  datatype CommandOutcome = CommandOutcome(groups: map<int, Group>, leave: bool, reply: CommandReply)

  /**
   * `/fsub <channel id>` in chat `chatId`. `args` is `message.command`, the
   * command word first; `sender` is `None` for a message without a sender,
   * whose id cannot be read (the progress reply then stays); `facts` feed
   * `validate_fsub_channel`; `current` is what `get_chat` of the group
   * gives after the write.
   */
  function SetFsub(args: seq<string>, chatId: int, sender: Option<int>, groups: map<int, Group>,
                   facts: ChannelFacts, current: Fetch<ChatInfo>): CommandOutcome
  {
    if |args| < 2 then CommandOutcome(groups, false, FormatError)
    else match ParseInt(args[1])
      case None => CommandOutcome(groups, false, InvalidChannelId)
      case Some(channelId) =>
        if chatId !in groups then CommandOutcome(groups, true, SettingUp)
        else
          var g := groups[chatId];
          if sender.None? then CommandOutcome(groups, false, SettingUp)
          else if sender.value != g.ownerId then CommandOutcome(groups, false, OnlyOwner(g.ownerName))
          else if !g.verified then CommandOutcome(groups, false, Unverified)
          else match ValidateFsubChannel(facts)
            case Err(p) => CommandOutcome(groups, false, Rejected(p))
            case Ok(channel) =>
              var after := groups[chatId := g.(fSub := Some(channelId))];
              if current.Raised? then CommandOutcome(after, false, SettingUp)
              else CommandOutcome(after, false, Enabled(channel.title, channel.inviteLink, channelId))
  }

  /**
   * `f_sub` changes only when the sender owns the group, the group is
   * verified and the channel passed validation, and then it becomes the
   * parsed id; the checks run in that order, after the argument checks.
   */
  lemma SetFsubGates(args: seq<string>, chatId: int, sender: Option<int>, groups: map<int, Group>,
                     facts: ChannelFacts, current: Fetch<ChatInfo>)
    ensures var r := SetFsub(args, chatId, sender, groups, facts, current);
            && (r.groups != groups ==>
                  |args| >= 2 && ParseInt(args[1]).Some? && chatId in groups
                  && sender == Some(groups[chatId].ownerId) && groups[chatId].verified && AllChecksPass(facts)
                  && r.groups == groups[chatId := groups[chatId].(fSub := Some(ParseInt(args[1]).value))])
            && (|args| < 2 ==> r == CommandOutcome(groups, false, FormatError))
            && (|args| >= 2 && ParseInt(args[1]).None? ==> r == CommandOutcome(groups, false, InvalidChannelId))
            && (r.leave <==> |args| >= 2 && ParseInt(args[1]).Some? && chatId !in groups)
            && ((|args| >= 2 && ParseInt(args[1]).Some? && chatId in groups && sender.None?)
                ==> r == CommandOutcome(groups, false, SettingUp))
            && ((|args| >= 2 && ParseInt(args[1]).Some? && chatId in groups && sender.Some? && sender.value != groups[chatId].ownerId)
                ==> r.reply == OnlyOwner(groups[chatId].ownerName))
            && ((|args| >= 2 && ParseInt(args[1]).Some? && chatId in groups && sender == Some(groups[chatId].ownerId)
                 && !groups[chatId].verified) ==> r.reply == Unverified)
            && ((|args| >= 2 && ParseInt(args[1]).Some? && chatId in groups && sender == Some(groups[chatId].ownerId)
                 && groups[chatId].verified && ValidateFsubChannel(facts).Err?)
                ==> r == CommandOutcome(groups, false, Rejected(ValidateFsubChannel(facts).error)))
  {
    if |args| >= 2 && ParseInt(args[1]).Some? && chatId in groups {
      var g := groups[chatId];
      if sender == Some(g.ownerId) && g.verified {
        ValidateAccepts(facts);
        if ValidateFsubChannel(facts).Ok? {
          var channelId := ParseInt(args[1]).value;
          assert g.(fSub := Some(channelId)) != g || groups[chatId := g.(fSub := Some(channelId))] == groups;
        }
      }
    }
  }

  /** A well-formed command that passes every check enables force subscribe for the parsed channel. */
  lemma SetFsubEnables(channelId: int, chatId: int, groups: map<int, Group>, facts: ChannelFacts, current: ChatInfo)
    requires chatId in groups && groups[chatId].verified && AllChecksPass(facts)
    ensures var r := SetFsub(["/fsub", IntToString(channelId)], chatId, Some(groups[chatId].ownerId), groups, facts, Got(current));
            && r.groups == groups[chatId := groups[chatId].(fSub := Some(channelId))]
            && FsubConfigured(r.groups[chatId]) == (channelId != 0)
            && r.reply == Enabled(facts.channel.value.title, facts.channel.value.inviteLink, channelId)
  {
    var args := ["/fsub", IntToString(channelId)];
    IntToStringRoundTrip(channelId);
    assert ParseInt(args[1]) == Some(channelId);
    ValidateAccepts(facts);
    assert ValidateFsubChannel(facts) == Ok(facts.channel.value);
    var g := groups[chatId];
    var after := groups[chatId := g.(fSub := Some(channelId))];
    assert SetFsub(args, chatId, Some(g.ownerId), groups, facts, Got(current))
        == CommandOutcome(after, false, Enabled(facts.channel.value.title, facts.channel.value.inviteLink, channelId));
  }

  /**
   * `/nofsub` in chat `chatId`; `sender` is `None` for a message without a
   * sender, whose id cannot be read (the progress reply then stays);
   * `current` is what `get_chat` of the group gives after the write (the
   * lookup of the channel itself only feeds the log and cannot fail the
   * command).
   */
  function RemoveFsub(chatId: int, sender: Option<int>, groups: map<int, Group>, current: Fetch<ChatInfo>): CommandOutcome
  {
    if chatId !in groups then CommandOutcome(groups, true, Removing)
    else
      var g := groups[chatId];
      if sender.None? then CommandOutcome(groups, false, Removing)
      else if sender.value != g.ownerId then CommandOutcome(groups, false, OnlyOwner(g.ownerName))
      else if !FsubConfigured(g) then CommandOutcome(groups, false, NoFsubConfigured)
      else
        var after := groups[chatId := g.(fSub := None)];
        if current.Raised? then CommandOutcome(after, false, Removing) else CommandOutcome(after, false, Disabled)
  }

  /**
   * `/nofsub` refuses non-owners and groups without a channel; otherwise
   * it clears `f_sub` and nothing else, after which force subscribe is
   * off, and a second `/nofsub` changes nothing.
   */
  lemma RemoveFsubClears(chatId: int, sender: Option<int>, groups: map<int, Group>, current: Fetch<ChatInfo>)
    ensures var r := RemoveFsub(chatId, sender, groups, current);
            && (r.groups != groups ==> chatId in groups && sender == Some(groups[chatId].ownerId) && FsubConfigured(groups[chatId])
                                       && r.groups == groups[chatId := groups[chatId].(fSub := None)])
            && (chatId in groups && sender.None? ==> r == CommandOutcome(groups, false, Removing))
            && (chatId in groups && sender == Some(groups[chatId].ownerId) && FsubConfigured(groups[chatId])
                ==> r.groups == groups[chatId := groups[chatId].(fSub := None)] && !FsubConfigured(r.groups[chatId])
                    && RemoveFsub(chatId, sender, r.groups, current) == CommandOutcome(r.groups, false, NoFsubConfigured))
            && (chatId in groups && sender.Some? && sender.value != groups[chatId].ownerId
                ==> r == CommandOutcome(groups, false, OnlyOwner(groups[chatId].ownerName)))
            && (r.leave <==> chatId !in groups)
  {
  }

  // ---------------------------------------------------------------------------
  // The checksub_ callback
  // ---------------------------------------------------------------------------

  /** The answers to a press, all shown as alerts. */
  datatype CheckAnswer = SystemError | NotForYou | ConfigurationError | JoinFirst | AlreadyAdmin | CheckFailed(text: string)

  function CheckAnswerText(a: CheckAnswer): string
  {
    match a
    case SystemError => "⚠️ System error - contact admin"
    case NotForYou => "⛔ This button isn't for you!"
    case ConfigurationError => "❌ Configuration error - try again later"
    case JoinFirst => "🔒 Join the required channel first!"
    case AlreadyAdmin => "✅ Verified! You're an admin"
    case CheckFailed(text) => "⚠️ Error: " + text
  }

  /**
   * What a press leads to: whether the member's permissions were restored,
   * whether the prompt was deleted, and the alert shown, if any.
   */
  datatype CheckOutcome = CheckOutcome(granted: bool, deleted: bool, answer: Option<CheckAnswer>)

  /**
   * The press of a `checksub_` button with `data` by user `presser` in chat
   * `chatId`. `membership`, `restrict` and `delete` are the exceptions
   * `get_chat_member` on the channel, `restrict_chat_member` and deleting
   * the prompt raise, `None` when they return.
   */
  function CheckSub(data: string, presser: int, chatId: int, groups: map<int, Group>,
                    membership: Option<SdkError>, restrict: Option<SdkError>, delete: Option<SdkError>): CheckOutcome
  {
    match ParseInt(LastField(data, '_'))
    case None => CheckOutcome(false, false, Some(SystemError))
    case Some(user) =>
      if presser != user then CheckOutcome(false, false, Some(NotForYou))
      else if chatId !in groups || !FsubConfigured(groups[chatId]) then CheckOutcome(false, false, Some(ConfigurationError))
      else if membership.Some? then
        CheckOutcome(false, false, Some(if membership.value.kind == UserNotParticipant then JoinFirst else CheckFailed(membership.value.text)))
      else if restrict.Some? then CheckOutcome(false, false, Some(RestrictFailure(restrict.value)))
      else if delete.Some? then CheckOutcome(true, false, Some(RestrictFailure(delete.value)))
      else CheckOutcome(true, true, None)
  }

  /** The inner `except` clauses around restoring permissions and deleting the prompt. */
  function RestrictFailure(e: SdkError): CheckAnswer
  {
    if e.kind == UserAdminInvalid then AlreadyAdmin else CheckFailed(e.text)
  }

  /**
   * Permissions are restored only for the user the button names, pressing
   * it themselves, in a group with force subscribe on, once the channel
   * confirms membership; anyone else's press changes nothing.
   */
  lemma CheckSubGrants(data: string, presser: int, chatId: int, groups: map<int, Group>,
                       membership: Option<SdkError>, restrict: Option<SdkError>, delete: Option<SdkError>)
    ensures var r := CheckSub(data, presser, chatId, groups, membership, restrict, delete);
            && (r.granted <==> ParseInt(LastField(data, '_')) == Some(presser) && chatId in groups
                               && FsubConfigured(groups[chatId]) && membership.None? && restrict.None?)
            && (r.deleted ==> r.granted)
            && (ParseInt(LastField(data, '_')).Some? && ParseInt(LastField(data, '_')) != Some(presser)
                ==> r == CheckOutcome(false, false, Some(NotForYou)))
            && (ParseInt(LastField(data, '_')) == Some(presser) && chatId in groups && FsubConfigured(groups[chatId])
                && membership.Some? && membership.value.kind == UserNotParticipant
                ==> r == CheckOutcome(false, false, Some(JoinFirst)))
  {
  }

  /** The user a `checksub_` button names is the id after its last underscore, negative ids included. */
  lemma CheckSubNamesUser(prefix: string, user: int)
    ensures ParseInt(LastField(prefix + "_" + IntToString(user), '_')) == Some(user)
  {
    var id := IntToString(user);
    IntToStringShape(user);
    assert forall k :: 0 <= k < |id| ==> id[k] != '_';
    assert prefix + "_" + id == prefix + ['_'] + id;
    SplitLastField(prefix, '_', id);
    IntToStringRoundTrip(user);
  }

  /** Pressed by the user it names, a `checksub_<user>` button in a configured group grants once membership and restriction succeed. */
  lemma CheckSubMemberGranted(user: int, chatId: int, groups: map<int, Group>, delete: Option<SdkError>)
    requires chatId in groups && FsubConfigured(groups[chatId])
    ensures CheckSub("checksub_" + IntToString(user), user, chatId, groups, None, None, delete).granted
  {
    CheckSubNamesUser("checksub", user);
    assert "checksub_" + IntToString(user) == "checksub" + "_" + IntToString(user);
  }
}
