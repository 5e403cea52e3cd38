# Filter bot plugins in Dafny

This project models the command and callback handlers of a Telegram filter and
search bot written with Pyrogram. It covers six plugins:

- **Search** (`/search`): cleans the query, caches each user's results under
  the key `<user id>-<query>`, and pages through them with Previous/Next
  buttons whose callback data carries that key.
- **Generate** (`/generate`): empties the post collection and re-indexes every
  configured channel, one post at a time, counting the posts indexed and the
  errors.
- **Misc**: the bot-info cache with its one-hour lifetime, the start keyboard,
  `/start`, `/help` and `/about`, the `misc_` callbacks that switch between
  the home, help and about screens, and `/id`, which lists the chat, sender
  and replied-message ids.
- **Broadcast**: admin login and logout on the `sessions` collection, and
  `/broadcast`, which copies a message to every stored user and counts the
  copies that succeed.
- **Verify**: `/verify`, which posts a verification request with
  Approve/Reject buttons to the log channel, and the handler for those
  buttons, which marks the group verified, notifies its owner and rewrites the
  post.
- **Fsub**: `/fsub`, which checks and sets a group's force-subscribe channel;
  `/nofsub`, which clears it; and the `checksub_` button, which lifts a
  member's restriction once they have joined the channel.

The model is split into these files:

- `common.dfy`: `Option` and `Result`.
- `strings.dfy`: the Python string operations the handlers rely on: `str()`
  of an int, `int()`, `split`, `split(sep, 1)`, `strip`, `replace`, and the
  character classes of `\w` and `\s`.
- `platform.dfy`: the Telegram shapes the handlers read. These are buttons,
  keyboards, chats, members and privileges, plus the classes of SDK exception
  the handlers catch.
- `groups.dfy`: the group record that `utils/helpers.py` stores.
- `search.dfy`, `generate.dfy`, `misc.dfy`, `broadcast.dfy`, `verify.dfy` and
  `fsub.dfy`: one module per plugin.

**How state is modelled.** A handler that mutates process state is a method
of a class whose fields hold that state:

- the search cache dictionary;
- the post collection;
- the bot-info cache globals;
- the `sessions` collection.

Each such method is specified by the function that describes the new state.
A handler that only reads the database and answers is a function. Its inputs
are what the SDK calls return or raise (`Fetch`, `Option<SdkError>`), and its
result holds the group store it leaves behind plus the replies it sends.
Replies are symbolic datatypes, and a separate function maps each to the exact
text the handler sends. A chat without an invite link has `None` there, which
an f-string prints as `None`.

## Model

| member | source | states |
|---|---|---|
| Strings.NatToString | plugins/search.py:65 | the decimal rendering is non-empty, all digits, without leading zeros |
| Strings.IntToStringRoundTrip | plugins/fsub.py:154 | `int(str(i)) == i` for every integer, negative ones included |
| Strings.ParseDigits | plugins/fsub.py:55 | digits are accepted exactly when they form underscore-separated digit groups, as Python's `int()` requires |
| Strings.Strip | plugins/search.py:22 | the result is no longer than the input and neither starts nor ends with whitespace |
| Strings.StripKeepsMiddle | plugins/search.py:22 | the result is the input's middle slice, unchanged; everything cut before and after it is whitespace |
| Strings.SplitOnce | plugins/search.py:17 | `split(sep, 1)` gives one part exactly when the separator is absent; otherwise the first part has no separator and the input is the two parts joined by it |
| Strings.SplitOnceRoundTrip | plugins/search.py:91 | `(a + sep + b).split(sep, 1) == [a, b]` whenever `a` has no separator, whatever `b` holds |
| Strings.SplitLastField | plugins/misc.py:137 | after a separator, a field without separators is `split(sep)[-1]` |
| Strings.ReplaceLeading | plugins/verify.py:118-121 | `replace` swaps a leading tag and leaves the rest intact when the rest holds no other occurrence |
| Groups.NewGroup | utils/helpers.py:26-35 | a freshly added group is unverified, has no force-subscribe channel and no `group_name` key, and keeps the owner and title given (the new-member handler passes `verified=False` and `f_sub=False`, plugins/newgroup.py:38-46) |
| Search.CleanQuery | plugins/search.py:10-12 | the cleaned query is no longer than the input and holds only word characters and whitespace |
| Search.CleanQueryKeepsOrder | plugins/search.py:10-12 | the cleaned query is a subsequence of the input |
| Search.CleanQueryCounts | plugins/search.py:12 | every kept character survives as often as it occurs; every other character is gone |
| Search.CleanQueryFixesClean | plugins/search.py:12 | a query of kept characters only is left unchanged |
| Search.CleanQueryIdempotent | plugins/search.py:10-12 | cleaning twice equals cleaning once |
| Search.SearchQuery | plugins/search.py:17-25 | "provide a query" exactly when the text has no space; otherwise, for the text after the first space, stripped and cleaned, "valid term" exactly when that is empty and else that query |
| Search.CacheKeySeparatesUsers | plugins/search.py:38 | equal cache keys imply the same user and the same query |
| Search.TotalPages | plugins/search.py:60 | the page count is the fewest pages of `perPage` results that hold all results (0 for none) |
| Search.WindowInside | plugins/search.py:60-62 | every page in range shows between 1 and `perPage` results, all inside the list |
| Search.ResultOnOnePage | plugins/search.py:59-66 | result `i` falls in the window of exactly one page in range, page `i / perPage + 1` |
| Search.Turn | plugins/search.py:98-104 | prev/next keep the results and query, move the page by at most one, and keep it in range |
| Search.TurnAtBoundary | plugins/search.py:98-104 | prev on page 1 and next on the last page change nothing |
| Search.TurnInverse | plugins/search.py:98-104 | away from the ends, next undoes prev and prev undoes next |
| Search.NextPresses | plugins/search.py:101-104 | any number of next presses keeps the entry well-formed and its results unchanged |
| Search.NextPressesSaturate | plugins/search.py:101-104 | `k` next presses from page 1 reach page `min(1 + k, total)` |
| Search.PageCallbackRoundTrip | plugins/search.py:75-91 | the data of a Previous/Next button splits back into its action and its exact cache key |
| Search.PageCallbackDecodes | plugins/search.py:88-91 | every datum the handler accepts splits into prev or next and a non-empty key |
| Search.PreviewShape | plugins/search.py:68 | an empty caption shows as "No caption"; otherwise its first 75 characters (all of it when shorter) followed by "..." |
| Search.ItemsBetween | plugins/search.py:66-69 | one item per result of the window, in order: item `j` is result `start + j`, numbered `start + j + 1` |
| Search.PageItems | plugins/search.py:59-69 | the page lists between 1 and `perPage` consecutive results, numbered from their global index |
| Search.ItemNumbering | plugins/search.py:61-69 | result `i` appears, numbered `i + 1`, exactly on page `i / perPage + 1` |
| Search.PageButtons | plugins/search.py:73-77 | Previous exactly when there is an earlier page, Next exactly when there is a later one, Previous first |
| Search.AppendPageItems | plugins/search.py:66-70 | the loop appends each result's two lines, in order, for the whole window |
| Search.SearchCache.constructor | plugins/search.py:8 | the cache starts empty |
| Search.SearchCache.ShowResultsPage | plugins/search.py:48-86 | an unknown key gets the expiry reply; a known key gets its page's text and buttons |
| Search.SearchCache.HandleSearch | plugins/search.py:14-46 | refusals and empty answers leave the cache alone; for a message without a sender a non-empty answer is neither stored nor shown; otherwise the user's entry is replaced, on page 1, and shown |
| Search.SearchCache.HandlePagination | plugins/search.py:88-107 | an unknown key is answered as expired with no change; a known key's page is turned within range and shown |
| Generate.IndexPost | plugins/generate.py:15-39 | the record copies id, chat and date, holds the caption or "", and takes the type and file id of the first of video, document, audio and photo |
| Generate.VideoHidesOtherMedia | plugins/generate.py:27-38 | with a video present, the other attachments do not affect the record |
| Generate.Indexed | plugins/generate.py:72-79 | a channel stores at most one post per yielded message |
| Generate.PostErrors | plugins/generate.py:72-79 | stored posts plus failed inserts never exceed the messages yielded |
| Generate.IndexedAllAppend | plugins/generate.py:68-84 | channel passes compose: what one pass stores neither undoes earlier posts nor changes what later passes store |
| Generate.FirstAbort | plugins/generate.py:80-84 | the first pass whose error notice raises: every pass before it sent its notice or did not raise |
| Generate.AbortIgnoresLater | plugins/generate.py:80-84 | once an error notice has raised, the channels configured after it make no difference |
| Generate.ErrorsAllAppend | plugins/generate.py:68-84 | the error counts of consecutive channel passes add up |
| Generate.IndexedComesFromAttempts | plugins/generate.py:73-76 | every stored post is the record of an indexable message whose insert succeeded |
| Generate.IndexedPlusErrors | plugins/generate.py:73-79 | every indexable message is stored or counted as an error, exactly once |
| Generate.PostCollection.constructor | plugins/generate.py:10 | the collection holds the given posts |
| Generate.PostCollection.IndexChannel | plugins/generate.py:72-79 | the channel's posts are appended in order; the counters track the collection size and the failed inserts |
| Generate.PostCollection.ManualGenerate | plugins/generate.py:59-92 | the collection is emptied and then holds the posts of every channel up to and including the first whose error notice raises; the report is made exactly when no notice raised, and counts posts, configured channels and errors |
| Misc.RefreshWindow | plugins/misc.py:17-18 | a filled cache is reused until the TTL has strictly passed; an empty cache is always refreshed |
| Misc.BotInfoCache.constructor | plugins/misc.py:9-10 | the cache starts empty, last refreshed at time 0 |
| Misc.BotInfoCache.GetBotInfo | plugins/misc.py:13-22 | the platform is asked exactly when a refresh is due, and then the cache and its timestamp are replaced; the answer is the cached info |
| Misc.BotInfoCache.StartCommand | plugins/misc.py:43-59 | the bot info is fetched as by `get_bot_info`, and the reply is the start screen for the sender and that bot, with the add-me keyboard |
| Misc.BotInfoCache.AboutCommand | plugins/misc.py:81-92 | the bot info is fetched as by `get_bot_info`, and the reply is the about screen naming that bot, with the Home button |
| Misc.CommandsMatchCallbacks | plugins/misc.py:66-92 | `/start`, `/help` and `/about` show the same screens as the home, help and about callbacks; their Home button and the callbacks' Back button both lead home |
| Misc.BotInfoCache.MiscCallback | plugins/misc.py:133-165 | the bot info is fetched as by `get_bot_info`, and the edit is the one for the text after the last underscore |
| Misc.StartGroupUrlRecovers | plugins/misc.py:28-31 | the add-me link holds the username unaltered between fixed prefix and suffix, so it names exactly one bot |
| Misc.MiscEditFor | plugins/misc.py:140-163 | home, help and about, and only those, produce an edit; help and about carry the Back keyboard; home carries the start screen for the presser and the bot |
| Misc.MiscActionIsLastField | plugins/misc.py:137 | the action is the text after the last underscore of the data |
| Misc.MiscScreenCallbacks | plugins/misc.py:24-41 | the start keyboard offers only help and about; help and about offer only home |
| Misc.MiscCallbacksOpenScreens | plugins/misc.py:133-163 | each offered callback passes the `^misc_` filter and opens a screen |
| Misc.IdLines | plugins/misc.py:111-125 | the reply always opens with the Chat ID line |
| Misc.RepliedLinesPresence | plugins/misc.py:116-125 | each replied-message line is present exactly when its field is set, carrying that value |
| Misc.IdLinesPresence | plugins/misc.py:111-125 | the Your ID line and each replied-message line are present exactly when their fields are set |
| Misc.NoReplyNoRepliedLines | plugins/misc.py:116 | without a replied message only the Chat ID and Your ID lines can appear |
| Misc.RepliedLinesOrdered | plugins/misc.py:118-125 | the replied-message lines come in the fixed order, after the Your ID line |
| Misc.IdLinesOrdered | plugins/misc.py:111-125 | all lines come in the fixed order, so no kind of line appears twice |
| Misc.RepliedTextRenders | plugins/misc.py:117-125 | the replied-message text is its lines rendered in order |
| Misc.IdTextRenders | plugins/misc.py:111-125 | the reply text is exactly the present lines rendered in order |
| Misc.IdTextStartsWithChatId | plugins/misc.py:111 | the reply text starts with the Chat ID line |
| Misc.IdCommand | plugins/misc.py:107-127 | the text built line by line equals the rendering of the present lines |
| Misc.AppendRepliedLines | plugins/misc.py:116-125 | the replied-message block appends exactly the lines of the replied message |
| Broadcast.LoginIdempotent | plugins/broadcast.py:13-17 | logging in twice equals logging in once; the sender gets a session exactly when admin (or already in); no one else is touched |
| Broadcast.LogoutAfterLogin | plugins/broadcast.py:19-22 | logout undoes login, always removes the sender, and touches no one else |
| Broadcast.DeliveriesBound | plugins/broadcast.py:31-37 | the number of successful copies never exceeds the number of users |
| Broadcast.DeliveriesMembers | plugins/broadcast.py:32-36 | an id is sent to exactly when some user with that id was copied to successfully |
| Broadcast.DeliveriesAppend | plugins/broadcast.py:32-36 | a failed copy does not stop the loop: deliveries over two runs of users add up |
| Broadcast.DeliveriesExtremes | plugins/broadcast.py:32-36 | all copies failing sends nothing; all succeeding sends to every stored id in order |
| Broadcast.AdminSessions.constructor | plugins/broadcast.py:10 | the sessions are the records already stored in the collection, which outlive a restart |
| Broadcast.AdminSessions.Login | plugins/broadcast.py:13-17 | an admin gets a session and the confirmation; anyone else gets nothing |
| Broadcast.AdminSessions.Logout | plugins/broadcast.py:19-22 | the sender's session is removed and the reply is always sent |
| Broadcast.AdminSessions.Broadcast | plugins/broadcast.py:24-37 | session check first, then the reply check; then the copies are the successful deliveries in order, and the count is their number |
| Verify.ResponseFields | plugins/verify.py:89-90 | accepted data has at least three fields, the second being approve or reject |
| Verify.DecodeResponse | plugins/verify.py:89-90 | the decoded action is approve or reject |
| Verify.SplitResponseData | plugins/verify.py:63-64 | button data splits into exactly `verify`, the action and the decimal id |
| Verify.ResponseDataMatches | plugins/verify.py:84 | the Approve and Reject data pass the response handler's filter |
| Verify.ResponseRoundTrip | plugins/verify.py:63-90 | decoding the button data recovers the action and the exact group id |
| Verify.RequestGateOrder | plugins/verify.py:7-78 | registration, then verified status, then ownership are checked in that order; a request is posted exactly when all pass and a link is obtained, and it is the request for that link |
| Verify.RequestPostDecodes | plugins/verify.py:48-70 | the posted request opens with its tag and its two buttons decode to approve and reject of the requesting group |
| Verify.ResponseWrites | plugins/verify.py:84-104 | the only write is `verified := true` on the named group, on approve only, and it stays when a later call raises; an unknown group is answered with no write and no notice |
| Verify.DecideWrites | plugins/verify.py:98-160 | once the group is found, approve writes `verified` and reject writes nothing, whatever the keyboard holds and whether or not the notice or the edit raises |
| Verify.RewriteTag | plugins/verify.py:118-121 | the request tag is swapped for the status tag and the rest of the post is kept |
| Verify.RespondToRequest | plugins/verify.py:84-160 | on its own request post, approve marks verified, notifies the owner with the group name, swaps the tag and keeps the link; reject only notifies and swaps; if the notice raises, nothing is sent or edited and the alert is shown, and if the edit raises, the notice has gone out and the alert is shown, the write staying in both cases |
| Verify.AsWrittenMissingGroupName | plugins/verify.py:99 | as written, a group from `add_group` makes every press fail before any write or notice |
| Verify.AsWrittenMissingRow | plugins/verify.py:126 | as written, a press on the bot's own request post never edits it and answers with the error alert, after approve has already written `verified`; the owner is told exactly when the notice could be sent |
| Fsub.ValidateAccepts | plugins/fsub.py:12-41 | the channel is accepted exactly when every call returns and every right is held; then the result is the fetched channel |
| Fsub.ValidateOrder | plugins/fsub.py:16-39 | each refusal is returned exactly when its check is the first to fail |
| Fsub.ValidateExceptions | plugins/fsub.py:43-46 | an exception from any of the four calls ends the checks and is reported by its class |
| Fsub.SetFsubGates | plugins/fsub.py:48-80 | `f_sub` changes only for the owner of a verified group whose channel passed, and only to the parsed id; format, id, ownership, verification and validation replies come in that order; a message without a sender writes nothing and leaves only the "Setting up" reply |
| Fsub.SetFsubEnables | plugins/fsub.py:55-92 | a well-formed command that passes every check sets `f_sub` to the id and reports the channel; id 0 leaves force subscribe off |
| Fsub.RemoveFsubClears | plugins/fsub.py:103-134 | only the owner of a group with a channel changes anything, and then only `f_sub` is cleared; a message without a sender clears nothing and leaves only the "Removing" reply; a second `/nofsub` changes nothing |
| Fsub.CheckSubGrants | plugins/fsub.py:150-207 | permissions are restored exactly for the user the button names, pressing it, in a configured group, once membership is confirmed and the restriction call succeeds |
| Fsub.CheckSubNamesUser | plugins/fsub.py:154 | the user a button names is the id after its last underscore, negative ids included |
| Fsub.CheckSubMemberGranted | plugins/fsub.py:150-203 | the named member, pressing `checksub_<id>` in a configured group, is granted when membership and restriction succeed |

## Left out

- Every exchange with Telegram and MongoDB. Each SDK or database call becomes
  the value it returns or the exception class it raises, passed in as a
  parameter. The only failures modelled are the ones a handler reacts to,
  the owner notice and post edit of the verification response, and the
  error notice of `/generate` (plugins/generate.py:82). Failures of the
  other `reply`, `edit`, `answer` and `send_message` calls, and of the
  log-channel messages, are not modelled. Among them is
  `callback_query.answer()` before a page is shown (plugins/search.py:106):
  if it raises, the page is turned in the cache but not shown.
- The groups collection as shared mutable storage. The verify and
  force-subscribe handlers take the group store as a map and return the map
  they leave behind. `update_group` is a map update of the one field it
  sets.
- The log-channel posts of `/fsub` and `/nofsub`, and `logging` output: they
  change neither the groups nor the replies.
- The MongoDB text search, its score order and `MAX_RESULTS`. The search is a
  function from the cleaned query to the ranked result list.
- `RESULTS_PER_PAGE` is a positive constructor argument of `SearchCache`,
  because the config file is not part of this model.
- Deleting the pressed message after a page turn
  (plugins/search.py:108).
- `CHANNELS` is the sequence of channel passes given to `ManualGenerate`.
  Each message yielded by `search_messages` comes with whether its insert
  succeeded. A channel that raises stops after the messages it yielded.
- The `auto_index` handler and `/stats` (plugins/generate.py:43-56 and
  95-115). They only call `index_post`, which is modelled, and send reports.
- The `add_user` upsert of `/start` (plugins/misc.py:48). The users
  collection is only read, by `/broadcast`, which takes it as a parameter.
  `/start` and `/about` are modelled through `get_bot_info`, and `/help` is
  the constant reply `Misc.HelpReply`.
- `/stats` of plugins/misc.py, and `/user`, `/userc` and `/stats` of
  plugins/broadcast.py. They send counted texts and change no state.
- The screen texts. They are symbolic (`Misc.Screen`).
  utils/script.py defines `START_TEXT` and `HELP_TEXT` but no `START`,
  `HELP` or `ABOUT`, and the `utils` package's own exports are not part of
  this model. The model therefore assumes the template attributes the
  handlers read exist.
- The `FloodWait` retry (sleep, then call the handler again). It is
  unbounded recursion on a platform signal, with no effect on state besides
  the retried call.
- Clocks. `time.time()` is an integer parameter `now`. The formatted request
  time of `/verify` is a string parameter.
- `\w` and `\s` are ASCII-only. Python's Unicode letters, digits and spaces
  are not modelled, nor are the Unicode digits `int()` accepts.
- `ADMINS` is a sequence of strings. `/login` compares `str(user_id)`
  against its entries.
- Member status. Channel validation looks only at `privileges`, as the
  source does.
- Verify.UrlAt: a row whose first button has no URL is treated like a
  missing row. The keyboard read back is the one the request built.
- Concurrency between handlers. Each handler runs to completion on the
  state it reads.
- Telegram's 64-byte limit on callback data, which a long search query can
  exceed.

## Findings

| source | as written | input that shows it | evidently intended | confidence | as-written member | corrected member |
|---|---|---|---|---|---|---|
| plugins/verify.py:99 | reads `group["group_name"]`, but `add_group` (utils/helpers.py:26-35) stores the title under `"name"` | Approve or Reject on any group registered by the new-member handler: the lookup raises `KeyError`, the admin sees "⚠️ An error occurred!", and nothing is written or sent | read `group["name"]` | high; not executed | Verify.AsWrittenMissingGroupName | Verify.RespondToRequest |
| plugins/verify.py:126 | reads `inline_keyboard[2][0].url` (also line 153), but the request keyboard has two rows (lines 61-69) | Approve on a request post: `verified` is written and the owner notified, then the index raises `IndexError`, so the post keeps its tag and buttons and the admin sees the error alert | read row 1, `inline_keyboard[1][0].url` | high; not executed | Verify.AsWrittenMissingRow | Verify.RespondToRequest |
