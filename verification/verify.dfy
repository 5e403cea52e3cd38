/**
 * Group verification (plugins/verify.py): `/verify` in a group posts a
 * request with Approve and Reject buttons to the log channel; a press on
 * one of them marks the group verified (approve only), tells the owner and
 * rewrites the request's tag.
 *
 * The group store is the map from group id to record that `get_group` reads
 * and `update_group` writes; a handler returns the map as it leaves it.
 */
module Verify {
  import opened Common
  import opened Strings
  import opened Platform
  import opened Groups

  // ---------------------------------------------------------------------------
  // Callback data `verify_<action>_<group id>`
  // ---------------------------------------------------------------------------

  /** The data of the Approve (`action == "approve"`) and Reject (`"reject"`) buttons. */
  function ResponseData(action: string, groupId: int): string
  {
    "verify_" + action + "_" + IntToString(groupId)
  }

  /** The data `handle_verification_response` is registered for: `^verify_(approve|reject)_`. */
  predicate IsResponseData(data: string)
  {
    (|data| >= 15 && data[..15] == "verify_approve_") || (|data| >= 14 && data[..14] == "verify_reject_")
  }

  /** What the handler reads from the data: `split("_")[1]`, and `int()` of `split("_")[-1]` (`None` when it raises). */
  datatype Decoded = Decoded(action: string, groupId: Option<int>)

  /** A registered data string has at least three fields, the second being the action. */
  lemma ResponseFields(data: string)
    requires IsResponseData(data)
    ensures var parts := Split(data, '_');
            && |parts| >= 3 && (parts[1] == "approve" || parts[1] == "reject")
            && (parts[1] == "approve" <==> |data| >= 15 && data[..15] == "verify_approve_")
  {
    if |data| >= 15 && data[..15] == "verify_approve_" {
      FieldsAfter(data, "approve");
    } else {
      FieldsAfter(data, "reject");
    }
  }

  /** The fields of data that opens with `verify_<action>_`. */
  lemma FieldsAfter(data: string, action: string)
    requires action == "approve" || action == "reject"
    requires |action| + 8 <= |data| && data[..|action| + 8] == "verify_" + action + "_"
    ensures var parts := Split(data, '_');
            |parts| >= 3 && parts[1] == action
  {
    var rest := data[|action| + 8..];
    assert data == data[..|action| + 8] + rest;
    assert data == "verify" + ['_'] + (action + ['_'] + rest);
    SplitAfterField("verify", '_', action + ['_'] + rest);
    SplitAfterField(action, '_', rest);
  }

  function DecodeResponse(data: string): (d: Decoded)
    requires IsResponseData(data)
    ensures d.action == "approve" || d.action == "reject"
  {
    ResponseFields(data);
    var parts := Split(data, '_');
    Decoded(parts[1], ParseInt(parts[|parts| - 1]))
  }

  /** The button data splits into exactly `verify`, the action and the decimal id. */
  lemma SplitResponseData(action: string, groupId: int)
    requires '_' !in action
    ensures Split(ResponseData(action, groupId), '_') == ["verify", action, IntToString(groupId)]
  {
    var id := IntToString(groupId);
    IntToStringShape(groupId);
    assert forall k :: 0 <= k < |id| ==> id[k] != '_';
    assert ResponseData(action, groupId) == "verify" + ['_'] + (action + ['_'] + id);
    SplitAfterField("verify", '_', action + ['_'] + id);
    SplitAfterField(action, '_', id);
    SplitNoSep(id, '_');
  }

  /** The Approve and Reject data pass the handler's filter. */
  lemma ResponseDataMatches(action: string, groupId: int)
    requires action == "approve" || action == "reject"
    ensures IsResponseData(ResponseData(action, groupId))
  {
    var id := IntToString(groupId);
    if action == "approve" {
      assert ResponseData(action, groupId) == "verify_approve_" + id;
      PrefixOfAppend("verify_approve_", id);
    } else {
      assert ResponseData(action, groupId) == "verify_reject_" + id;
      PrefixOfAppend("verify_reject_", id);
    }
  }

  /** Decoding recovers the action and the exact group id, negative ids included. */
  lemma ResponseRoundTrip(action: string, groupId: int)
    requires action == "approve" || action == "reject"
    ensures IsResponseData(ResponseData(action, groupId))
    ensures DecodeResponse(ResponseData(action, groupId)) == Decoded(action, Some(groupId))
  {
    ResponseDataMatches(action, groupId);
    SplitResponseData(action, groupId);
    IntToStringRoundTrip(groupId);
  }

  // ---------------------------------------------------------------------------
  // handle_verification_request
  // ---------------------------------------------------------------------------

  /** The sender of `/verify`: `message.from_user`. */
  datatype Sender = Sender(id: int, mention: string)

  /** The replies `/verify` can give in the group. */
  datatype RequestReply =
    | NotRegistered
    | AlreadyVerified
    | OnlyOwner(ownerName: string)
    | AdminRequired
    | RequestFailed
    | RequestSubmitted(requestId: int)

  function RequestReplyText(r: RequestReply): string
  {
    match r
    case NotRegistered => "❌ Group not registered! Adding me again might fix this."
    case AlreadyVerified => "✅ **This group is already verified!**"
    case OnlyOwner(name) => "⚠️ **Only " + name + " can verify this group!**\n\nThe group owner must use this command."
    case AdminRequired => "❌ **Admin Privilege Required!**\n\nI need 'Invite Users' permission to generate invite links."
    case RequestFailed => "⚠️ An error occurred. Please try again or contact support."
    case RequestSubmitted(id) =>
      "🔒 **Verification Request Submitted!**\n\nOur team will review your group shortly. You'll receive a notification "
      + "once it's approved. This usually takes less than 24 hours.\n\n⏱️ Request ID: `" + IntToString(id) + "`"
  }

  const RequestTag := "#VERIFICATION_REQUEST"

  /** The log-channel post: the tag, then the details. */
  function RequestText(sender: Sender, chatId: int, chat: ChatInfo, link: string, requestTime: string): string
  {
    RequestTag + RequestDetails(sender, chatId, chat, link, requestTime)
  }

  /** Who asks, for which group, and when; `requestTime` is the formatted clock reading. */
  function RequestDetails(sender: Sender, chatId: int, chat: ChatInfo, link: string, requestTime: string): string
  {
    "\n\n👤 **User:** " + sender.mention + " (`" + IntToString(sender.id) + "`)\n"
    + "👥 **Group:** [" + chat.title + "](" + link + ") (`" + IntToString(chatId) + "`)\n"
    + "👥 **Members:** `" + Shown(if chat.membersCount.Some? then Some(NatToString(chat.membersCount.value)) else None) + "`\n\n"
    + "🕒 **Request Time:** " + requestTime
  }

  const ViewGroupCaption := "👁️ View Group"

  /** Approve and Reject on the first row, the group's invite link on the second. */
  function RequestKeyboard(chatId: int, link: string): Keyboard
  {
    [ [CallbackButton("✅ Approve", ResponseData("approve", chatId)), CallbackButton("❌ Reject", ResponseData("reject", chatId))],
      [UrlButton(ViewGroupCaption, link)] ]
  }

  /** The reply in the group, and the post sent to the log channel, if any. */
  datatype RequestOutcome = RequestOutcome(reply: RequestReply, logPost: Option<Reply>)

  /** The reply to an exception from `get_chat` or `create_chat_invite_link`. */
  function LinkFailure(e: SdkError): RequestReply
  {
    if e.kind == ChatAdminRequired || e.kind == PeerIdInvalid then AdminRequired else RequestFailed
  }

  /**
   * `/verify` in chat `chatId`. `sender` is `None` for a message without a
   * sender (reading its id raises). `chat` is what `get_chat` gives; `created`
   * is what `create_chat_invite_link` gives, consulted only when the chat has
   * no invite link.
   */
  function HandleRequest(chatId: int, sender: Option<Sender>, groups: map<int, Group>,
                         chat: Fetch<ChatInfo>, created: Fetch<string>, requestTime: string): RequestOutcome
  {
    if chatId !in groups then RequestOutcome(NotRegistered, None)
    else
      var g := groups[chatId];
      if g.verified then RequestOutcome(AlreadyVerified, None)
      else if sender.None? then RequestOutcome(RequestFailed, None)
      else if sender.value.id != g.ownerId then RequestOutcome(OnlyOwner(g.ownerName), None)
      else match chat
        case Raised(e) => RequestOutcome(LinkFailure(e), None)
        case Got(info) =>
          if HasLink(info) then Submitted(chatId, sender.value, info, info.inviteLink.value, requestTime)
          else match created
            case Raised(e) => RequestOutcome(LinkFailure(e), None)
            case Got(link) => Submitted(chatId, sender.value, info, link, requestTime)
  }

  function Submitted(chatId: int, sender: Sender, info: ChatInfo, link: string, requestTime: string): RequestOutcome
  {
    RequestOutcome(RequestSubmitted(chatId),
                   Some(Reply(RequestText(sender, chatId, info, link, requestTime), RequestKeyboard(chatId, link))))
  }

  /** The invite link a request uses: the chat's own, or else a created one. */
  function ResolvedLink(info: ChatInfo, created: Fetch<string>): Option<string>
  {
    if HasLink(info) then Some(info.inviteLink.value) else if created.Got? then Some(created.value) else None
  }

  /**
   * The checks run in a fixed order: registration, then verified status
   * (before the sender is looked at), then ownership; a request is posted
   * only when all pass and an invite link was obtained, and then it is the
   * request for that link.
   */
  lemma RequestGateOrder(chatId: int, sender: Option<Sender>, groups: map<int, Group>,
                         chat: Fetch<ChatInfo>, created: Fetch<string>, requestTime: string)
    ensures var r := HandleRequest(chatId, sender, groups, chat, created, requestTime);
            && (chatId !in groups ==> r == RequestOutcome(NotRegistered, None))
            && (chatId in groups && groups[chatId].verified ==> r == RequestOutcome(AlreadyVerified, None))
            && (chatId in groups && !groups[chatId].verified && sender.Some? && sender.value.id != groups[chatId].ownerId
                ==> r == RequestOutcome(OnlyOwner(groups[chatId].ownerName), None))
            && (r.logPost.Some? <==> chatId in groups && !groups[chatId].verified && sender.Some?
                                     && sender.value.id == groups[chatId].ownerId && chat.Got?
                                     && ResolvedLink(chat.value, created).Some?)
            && (r.logPost.Some? ==> r == Submitted(chatId, sender.value, chat.value, ResolvedLink(chat.value, created).value, requestTime))
  {
  }

  /**
   * A posted request is tagged, and its two callback buttons decode to
   * approve and reject of the requesting group.
   */
  lemma RequestPostDecodes(chatId: int, sender: Sender, info: ChatInfo, link: string, requestTime: string)
    ensures var post := Submitted(chatId, sender, info, link, requestTime).logPost.value;
            && |RequestTag| <= |post.text| && post.text[..|RequestTag|] == RequestTag
            && |post.keyboard| == 2 && |post.keyboard[0]| == 2
            && IsResponseData(post.keyboard[0][0].data)
            && DecodeResponse(post.keyboard[0][0].data) == Decoded("approve", Some(chatId))
            && IsResponseData(post.keyboard[0][1].data)
            && DecodeResponse(post.keyboard[0][1].data) == Decoded("reject", Some(chatId))
  {
    PrefixOfAppend(RequestTag, RequestDetails(sender, chatId, info, link, requestTime));
    ResponseRoundTrip("approve", chatId);
    ResponseRoundTrip("reject", chatId);
  }

  // ---------------------------------------------------------------------------
  // handle_verification_response
  // ---------------------------------------------------------------------------

  const VerifiedTag := "#VERIFIED ✅"
  const RejectedTag := "#REJECTED ❌"
  const NotFoundEdit := "⚠️ Group not found in database!"

  /** The answers to a press; only `ResponseFailed` is shown as an alert. */
  datatype Answer = GroupNotFound | GroupApproved | GroupRejected | ResponseFailed

  function AnswerText(a: Answer): string
  {
    match a
    case GroupNotFound => "❌ Group not found in database!"
    case GroupApproved => "✅ Group approved!"
    case GroupRejected => "❌ Group rejected!"
    case ResponseFailed => "⚠️ An error occurred!"
  }

  /** The direct message to the owner: approved or not, naming the group. */
  datatype Notice = Notice(to: int, approved: bool, groupName: string)

  function NoticeText(n: Notice): string
  {
    if n.approved then
      "🎉 **Group Verified!**\n\nYour group **" + n.groupName + "** has been approved!\n\n"
      + "You can now use all bot features:\n• /connect - Link channels\n• /fsub - Setup force subscribe\n• /settings - Configure group"
    else
      "❌ **Verification Rejected**\n\nYour group **" + n.groupName + "** was not approved.\n\n"
      + "Possible reasons:\n• Group doesn't meet requirements\n• Suspicious activity detected\n• Incomplete application"
      + "\n\nContact @AdminUsername for more details."
  }

  /**
   * What a press leads to: the group store afterwards, the note sent to the
   * owner, the edit of the log post (`Reply(…, [])` removes the keyboard),
   * and the answer to the press.
   */
  datatype ResponseOutcome = ResponseOutcome(groups: map<int, Group>, notice: Option<Notice>, edit: Option<Reply>,
                                             answer: Answer)

  /** The outer `except`: the alert, and whatever was done before the exception stays done. */
  function Failed(groups: map<int, Group>, notice: Option<Notice>): ResponseOutcome
  {
    ResponseOutcome(groups, notice, None, ResponseFailed)
  }

  /** `inline_keyboard[row][0].url`, or `None` when that raises or the button has no URL. */
  function UrlAt(keyboard: Keyboard, row: nat): Option<string>
  {
    if row < |keyboard| && |keyboard[row]| > 0 && keyboard[row][0].UrlButton? then Some(keyboard[row][0].url) else None
  }

  /** The edited log post: the tag rewritten, a status button and the View Group link. */
  function Outcome(text: string, approved: bool, url: string): Reply
  {
    if approved then
      Reply(ReplaceAll(text, RequestTag, VerifiedTag), [[CallbackButton("✅ Approved", "verified")], [UrlButton(ViewGroupCaption, url)]])
    else
      Reply(ReplaceAll(text, RequestTag, RejectedTag), [[CallbackButton("❌ Rejected", "rejected")], [UrlButton(ViewGroupCaption, url)]])
  }

  /**
   * After the group is found: approve writes `verified`, then the owner is
   * told, then the post is edited with the link read from `urlRow`.
   * `sent` and `edited` are what `send_message` and `edit` raise, if
   * anything; a raise leaves the write in place and ends in the alert.
   */
  function Decide(groups: map<int, Group>, id: int, approve: bool, groupName: string, text: string,
                  keyboard: Keyboard, urlRow: nat, sent: Option<SdkError>, edited: Option<SdkError>): ResponseOutcome
    requires id in groups
  {
    var g := groups[id];
    var after := if approve then groups[id := g.(verified := true)] else groups;
    var notice := Some(Notice(g.ownerId, approve, groupName));
    if sent.Some? then Failed(after, None)
    else match UrlAt(keyboard, urlRow)
      case None => Failed(after, notice)
      case Some(url) =>
        if edited.Some? then Failed(after, notice)
        else ResponseOutcome(after, notice, Some(Outcome(text, approve, url)), if approve then GroupApproved else GroupRejected)
  }

  /**
   * The handler as written: it reads the owner's group name from the key
   * `group_name` and the View Group link from row 2 of the post's keyboard.
   * `text` and `keyboard` are those of the pressed log post.
   */
  function ResponseAsWritten(data: string, groups: map<int, Group>, text: string, keyboard: Keyboard,
                             sent: Option<SdkError>, edited: Option<SdkError>): ResponseOutcome
    requires IsResponseData(data)
  {
    var d := DecodeResponse(data);
    if d.groupId.None? then Failed(groups, None)
    else if d.groupId.value !in groups then ResponseOutcome(groups, None, Some(Reply(NotFoundEdit, [])), GroupNotFound)
    else if groups[d.groupId.value].groupNameKey.None? then Failed(groups, None)
    else Decide(groups, d.groupId.value, d.action == "approve", groups[d.groupId.value].groupNameKey.value, text, keyboard, 2, sent, edited)
  }

  /**
   * The handler as evidently intended: the group name is the record's
   * `name`, which registration writes, and the View Group link is on row 1,
   * where the request put it.
   */
  function Response(data: string, groups: map<int, Group>, text: string, keyboard: Keyboard,
                    sent: Option<SdkError>, edited: Option<SdkError>): ResponseOutcome
    requires IsResponseData(data)
  {
    var d := DecodeResponse(data);
    if d.groupId.None? then Failed(groups, None)
    else if d.groupId.value !in groups then ResponseOutcome(groups, None, Some(Reply(NotFoundEdit, [])), GroupNotFound)
    else Decide(groups, d.groupId.value, d.action == "approve", groups[d.groupId.value].name, text, keyboard, 1, sent, edited)
  }

  /**
   * The only write is `verified := true` on the group the data names, and
   * only for approve, and it stays even when a later call raises; reject
   * writes nothing. An unknown group is answered and the post edited, with
   * no write and no notice.
   */
  lemma ResponseWrites(data: string, groups: map<int, Group>, text: string, keyboard: Keyboard,
                       sent: Option<SdkError>, edited: Option<SdkError>)
    requires IsResponseData(data)
    ensures var r := Response(data, groups, text, keyboard, sent, edited);
            var d := DecodeResponse(data);
            && (d.groupId.Some? && d.groupId.value in groups && d.action == "approve"
                ==> r.groups == groups[d.groupId.value := groups[d.groupId.value].(verified := true)])
            && (!(d.groupId.Some? && d.groupId.value in groups && d.action == "approve") ==> r.groups == groups)
            && (d.groupId.Some? && d.groupId.value !in groups ==>
                  r == ResponseOutcome(groups, None, Some(Reply(NotFoundEdit, [])), GroupNotFound))
  {
    var d := DecodeResponse(data);
    if d.groupId.Some? && d.groupId.value in groups {
      var id := d.groupId.value;
      var approve := d.action == "approve";
      assert Response(data, groups, text, keyboard, sent, edited)
             == Decide(groups, id, approve, groups[id].name, text, keyboard, 1, sent, edited);
      DecideWrites(groups, id, approve, groups[id].name, text, keyboard, 1, sent, edited);
    }
  }

  /** Once the group is found, approve writes `verified` and reject writes nothing, whatever raises afterwards. */
  lemma DecideWrites(groups: map<int, Group>, id: int, approve: bool, groupName: string, text: string,
                     keyboard: Keyboard, urlRow: nat, sent: Option<SdkError>, edited: Option<SdkError>)
    requires id in groups
    ensures Decide(groups, id, approve, groupName, text, keyboard, urlRow, sent, edited).groups
            == if approve then groups[id := groups[id].(verified := true)] else groups
  {
    if sent.None? {
      match UrlAt(keyboard, urlRow) {
        case None =>
        case Some(url) =>
      }
    }
  }

  /** `str.replace` of a tag that opens the text and occurs nowhere else swaps just that tag. */
  lemma RewriteTag(rest: string, tag: string)
    requires forall i :: 0 <= i <= |rest| - |RequestTag| ==> !OccursAt(rest, RequestTag, i)
    ensures ReplaceAll(RequestTag + rest, RequestTag, tag) == tag + rest
  {
    ReplaceLeading(RequestTag, rest, tag);
  }

  /**
   * Approving a request this bot posted marks the group verified, tells
   * its owner, swaps the tag for "#VERIFIED ✅" leaving the rest of the
   * text as it was, and keeps the View Group link; rejecting writes
   * nothing and swaps the tag for "#REJECTED ❌". When the notice cannot
   * be sent, nothing is edited and the alert is shown; when the edit
   * raises, the notice has gone out but the alert is shown; the write
   * stays in both cases.
   */
  lemma RespondToRequest(approve: bool, groupId: int, link: string, groups: map<int, Group>, rest: string,
                         sent: Option<SdkError>, edited: Option<SdkError>)
    requires groupId in groups
    requires forall i :: 0 <= i <= |rest| - |RequestTag| ==> !OccursAt(rest, RequestTag, i)
    ensures IsResponseData(ResponseData(if approve then "approve" else "reject", groupId))
    ensures var g := groups[groupId];
            var r := Response(ResponseData(if approve then "approve" else "reject", groupId), groups,
                              RequestTag + rest, RequestKeyboard(groupId, link), sent, edited);
            var ok := sent.None? && edited.None?;
            && r.groups == (if approve then groups[groupId := g.(verified := true)] else groups)
            && r.notice == (if sent.None? then Some(Notice(g.ownerId, approve, g.name)) else None)
            && r.answer == (if !ok then ResponseFailed else if approve then GroupApproved else GroupRejected)
            && r.edit == (if !ok then None else
                          Some(Reply((if approve then VerifiedTag else RejectedTag) + rest,
                                     [[if approve then CallbackButton("✅ Approved", "verified") else CallbackButton("❌ Rejected", "rejected")],
                                      [UrlButton(ViewGroupCaption, link)]])))
  {
    ResponseRoundTrip(if approve then "approve" else "reject", groupId);
    RewriteTag(rest, if approve then VerifiedTag else RejectedTag);
  }

  /**
   * As written, a group registered by `add_group` has no `group_name` key:
   * the press ends in the error alert before anything is written or sent.
   */
  lemma AsWrittenMissingGroupName(action: string, groupId: int, groups: map<int, Group>, owner: int,
                                  ownerName: string, name: string, text: string, keyboard: Keyboard,
                                  sent: Option<SdkError>, edited: Option<SdkError>)
    requires action == "approve" || action == "reject"
    requires groupId in groups && groups[groupId] == NewGroup(owner, ownerName, name)
    ensures IsResponseData(ResponseData(action, groupId))
    ensures ResponseAsWritten(ResponseData(action, groupId), groups, text, keyboard, sent, edited) == Failed(groups, None)
  {
    ResponseRoundTrip(action, groupId);
  }

  /**
   * As written, even with a `group_name` key the press on a request this
   * bot posted cannot succeed: the post has two keyboard rows and row 2 is
   * read. On approve the group has already been marked verified and the
   * owner told (when the notice could be sent), but the post keeps its tag
   * and buttons and the admin sees the error alert.
   */
  lemma AsWrittenMissingRow(action: string, groupId: int, link: string, groups: map<int, Group>, text: string,
                            sent: Option<SdkError>, edited: Option<SdkError>)
    requires action == "approve" || action == "reject"
    requires groupId in groups && groups[groupId].groupNameKey.Some?
    ensures IsResponseData(ResponseData(action, groupId))
    ensures var r := ResponseAsWritten(ResponseData(action, groupId), groups, text, RequestKeyboard(groupId, link), sent, edited);
            && r.edit.None? && r.answer == ResponseFailed && (r.notice.Some? <==> sent.None?)
            && (action == "approve" ==> groupId in r.groups && r.groups[groupId].verified)
  {
    ResponseRoundTrip(action, groupId);
    var keyboard := RequestKeyboard(groupId, link);
    assert |keyboard| == 2 && UrlAt(keyboard, 2).None?;
    var g := groups[groupId];
    assert ResponseAsWritten(ResponseData(action, groupId), groups, text, keyboard, sent, edited)
           == Decide(groups, groupId, action == "approve", g.groupNameKey.value, text, keyboard, 2, sent, edited);
  }
}
