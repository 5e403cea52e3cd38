/**
 * The messaging-platform facts the handlers consume. Every SDK call is
 * replaced by the value it returns or the exception it raises, supplied
 * as input.
 */
module Platform {
  import opened Common

  /** An inline keyboard button: either it carries callback data or it opens a URL. */
  datatype Button = CallbackButton(caption: string, data: string) | UrlButton(caption: string, url: string)

  /** Rows of buttons, as `InlineKeyboardMarkup` holds them; `[]` stands for no markup. */
  type Keyboard = seq<seq<Button>>

  /** A message the bot sends or edits: its text and its keyboard. */
  datatype Reply = Reply(text: string, keyboard: Keyboard)

  /** The exception classes the handlers tell apart; every other class is `OtherError`. */
  datatype ErrorKind =
    | ChannelPrivate
    | ChatAdminRequired
    | PeerIdInvalid
    | UserNotParticipant
    | UserAdminInvalid
    | OtherError

  /** A raised exception: its class and `str(e)`. */
  datatype SdkError = SdkError(kind: ErrorKind, text: string)

  /** The outcome of one SDK call: the value it returned or the exception it raised. */
  datatype Fetch<+T> = Got(value: T) | Raised(error: SdkError)

  /** `enums.ChatType`; `GroupChat` is a basic group. */
  datatype ChatKind = Private | GroupChat | Supergroup | Channel | Bot

  /**
   * What `get_chat` reports about a chat; `inviteLink` is `None` when the
   * chat has none, `membersCount` when Telegram does not say.
   */
  datatype ChatInfo = ChatInfo(kind: ChatKind, title: string, inviteLink: Option<string>, membersCount: Option<nat>)

  /** Whether `invite_link` is truthy: present and not empty. */
  predicate HasLink(info: ChatInfo)
  {
    info.inviteLink.Some? && info.inviteLink.value != ""
  }

  /** How an f-string renders an optional text: a missing one prints as `None`. */
  function Shown(o: Option<string>): string
  {
    match o
    case None => "None"
    case Some(t) => t
  }

  datatype Privileges = Privileges(canInviteUsers: bool, canRestrictMembers: bool)

  /** What `get_member` reports about the bot itself; `None` when it is not an administrator. */
  datatype Member = Member(privileges: Option<Privileges>)
}
