# Telegram support relay — a Dafny model

The bot relays private messages from users into the topics of a staff
group and routes staff replies back. A user's attachment (photo, video,
document, animation, audio or voice) is copied into the material topic
and followed by a header naming the sender. A user's text is posted into
the question topic behind the same kind of header. The id of every
message the relay creates in the staff group is recorded in
`message_links` against the sender. When a staff member replies to any of
those messages, the reply is forwarded to that user: text with a fixed
prefix, an attachment with a prefixed caption, or anything else as the
prefix followed by a copy.

The model has five modules:

- `Wrappers` (wrappers.dfy): `Option` and `Result`.
- `Builtins` (builtins.dfy): the Python built-ins the code relies on:
  `str.strip()`, `str(n)` and `int(s)`.
- `Config` (config.py → config.dfy): `_env_int` and the settings read at
  import. The environment is a map from variable name to value.
- `Telegram` (telegram.dfy): the chat platform as an abstract capability.
  `Transport.Send` takes one request. It returns the new message's id, or
  `None` for a rejection (the library's `TelegramAPIError`). The outcome of
  the k-th request is fixed by a script, and every request is appended to a
  log, so contracts can state exactly what was sent and in what order.
- `Bot` (bot.py → bot.dfy): the pure parts are functions. They are the
  identity formatter, the filter and classifier of `handle_user_message`,
  the lookup of `admin_reply`, and the kind and caption selection of
  `_send_admin_reply`. The module-level dict `message_links` is the `links`
  field of the `Relay` class, and the handlers are its methods. Each
  handler's postcondition ties the new `links` and the new transport log to
  the old ones through a predicate (`UserMessageHandled`, `MaterialRelayed`,
  `QuestionRelayed`, `AdminReplyHandled`). The lemmas beside each predicate
  state what the code promises.

`Status.Raised` marks a handler that ends with a rejected request it does
not catch. Three requests are not caught: the acknowledgement after a relay,
the unsupported-content answer, and the failure notice to staff. A rejected
delivery-error notice is caught in `_notify_delivery_error`.

## Model

| member | source | states |
|---|---|---|
| `Builtins.Strip` | bot.py:96 | the stripped text has no whitespace at either end (Python's `isspace` set) |
| `Builtins.StripStart` | bot.py:96 | the result is a suffix of the input and every dropped character is whitespace |
| `Builtins.StripEnd` | bot.py:96 | the result is a prefix of the input and every dropped character is whitespace |
| `Builtins.StripPadded` | bot.py:96-104 | stripping any whitespace padding from a trimmed text gives that text back |
| `Builtins.NatToString` | bot.py:63 | the decimal rendering of a natural number is non-empty and all digits; it is `0` for zero and otherwise has no leading zero |
| `Builtins.IntToString` | bot.py:63 | the rendering of an integer holds only digits and `-` |
| `Builtins.ParseInt` | config.py:18 | `int(s)` accepts exactly an optional sign followed by digits (of any length; see ParseInt under Left out); the value is the digits' value, negated after `-` |
| `Builtins.ParseIntRoundTrip` | config.py:17-18 | `int(str(n)) == n` for every integer `n` (CPython's default limit of 4300 digits is not modelled) |
| `Builtins.IntToStringInjective` | bot.py:63 | different ids render differently |
| `Config.EnvInt` | config.py:13-20 | unset or empty gives the default; a value that parses gives its integer; an error always names the variable and carries its value |
| `Config.EnvIntDefault` | config.py:14-16 | an unset or empty variable yields the default |
| `Config.EnvIntRendered` | config.py:17-18 | a variable holding the decimal rendering of `n` yields `n` |
| `Config.EnvIntRejects` | config.py:19-20 | a set, non-integer value is a `ValueError` naming the variable, with the message `Environment variable <name> must be an integer, got: <value>`; no default is substituted |
| `Config.GetEnv` | config.py:47 | `os.getenv(name, default)`: the default is used only when the variable is unset |
| `Config.LoadSettings` | config.py:47-50 | loading succeeds exactly when all three integer variables load, each setting then being what `_env_int` gives; otherwise the error is that of the first failing variable in the order `ADMIN_CHAT_ID`, `TOPIC_MATERIAL`, `TOPIC_QUESTION` |
| `Config.LoadSettingsUnsetDefaults` | config.py:47-50 | in any environment where the three integer variables are unset or empty, they take -1002404070892, 12 and 10 |
| `Config.LoadSettingsRendered` | config.py:48-50 | integer variables holding decimal renderings load as those integers |
| `Config.LoadSettingsDefaults` | config.py:47-50 | with nothing set: `ADMIN_CHAT_ID = -1002404070892`, `TOPIC_MATERIAL = 12`, `TOPIC_QUESTION = 10` |
| `Config.LoadSettingsAdminFirst` | config.py:48-50 | a malformed `ADMIN_CHAT_ID` aborts loading with its own error, whatever the topic variables hold |
| `Telegram.Transport.Send` | bot.py:137-146 | one request is appended to the log and gets the scripted outcome for its position |
| `Bot.Handle` | bot.py:62 | the handle starts with `@` exactly when a username is present, and then carries it; otherwise it is `без username` |
| `Bot.FormatUser` | bot.py:57-63 | `Неизвестный пользователь` without a sender; otherwise `full name (handle)` followed exactly by ` (id=<decimal id>)` |
| `Bot.FormatUserIdUnambiguous` | bot.py:57-63 | two senders with the same identity text have the same id, whatever their names and handles |
| `Bot.FormatUserKnownIsNotUnknown` | bot.py:57-63 | a known sender is never shown as the unknown-user text |
| `Bot.FilteredText` | bot.py:95-104 | only a present text can be filtered; a text starting with `/` or made only of whitespace is always filtered |
| `Bot.Classify` | bot.py:95-126 | ignore exactly for filtered text or a missing or zero sender id; otherwise material exactly when an attachment is present, question for truthy text without one, and unsupported when there is neither |
| `Bot.QuestionTextIsRelayable` | bot.py:95-124 | text that reaches the question path is non-blank once stripped, is not a command and not a button label, has no attachment, and comes from a sender with a non-zero id |
| `Bot.PaddedButtonIgnored` | bot.py:95-104 | a button label surrounded by any whitespace is ignored |
| `Bot.MediaFromKnownSenderIsMaterial` | bot.py:106-122 | an attachment from a sender with a non-zero id, whose text is not filtered, takes the material path |
| `Bot.NothingToRelayIsUnsupported` | bot.py:114-126 | with no attachment and no text, a known sender gets only the unsupported-content answer |
| `Bot.MaterialRelayed` | bot.py:129-154 | the relation of the material path; whenever it holds, calls were only appended, no link was removed, and every new or changed link points to the sender |
| `Bot.QuestionRelayed` | bot.py:157-178 | the relation of the question path, with the same append-only and links-only-grow guarantees |
| `Bot.UserMessageHandled` | bot.py:94-126 | the relation of the private-message handler by route; whenever it holds, calls were only appended and no link was removed |
| `Bot.IgnoredMessageIsSilent` | bot.py:95-109 | a filtered text, or a missing or zero sender id, sends nothing and leaves the links unchanged |
| `Bot.UserMessageOnlyAddsLinks` | bot.py:141-171 | handling a user message never removes a link; every new or changed link points to the sender, whose id is non-zero |
| `Bot.MaterialSuccess` | bot.py:136-154 | when both sends are delivered, the calls are copy, then header `📸 Материал от …`, then one acknowledgement; both new ids resolve to the sender |
| `Bot.MaterialHeaderFailureKeepsCopyLink` | bot.py:141-151 | when the header is rejected, the copy's link is kept, the last call is the delivery-error notice, and no acknowledgement is sent |
| `Bot.QuestionSuccess` | bot.py:164-178 | when delivered, one post `❓ Вопрос от …:\n<text>` goes into the question topic and one acknowledgement follows; the post's id resolves to the sender |
| `Bot.ZeroTopicDisablesRelay` | bot.py:130-134 | a topic id of 0 sends only the delivery-error notice and leaves the links unchanged |
| `Bot.Lookup` | bot.py:183-190 | a reply resolves exactly when it replies to a linked id whose user is non-zero, and then to that user |
| `Bot.RecordThenLookup` | bot.py:141 | a recorded id resolves to its user, and a later record for the same id wins |
| `Bot.CaptionText` | bot.py:210-211 | the caption starts with the prefix; with a staff caption the next character is a line break, and without one the caption is exactly the prefix |
| `Bot.CaptionTextRoundTrip` | bot.py:210-211 | the caption is `prefix + "\n" + caption` for a non-empty staff caption: it starts with the prefix, the next character is a line break, and the rest is the staff caption; otherwise it is the bare prefix |
| `Bot.FirstPresentIndex` | bot.py:213-224 | the index found is the first kind in the given order that the message carries |
| `Bot.SelectReplyMedia` | bot.py:213-224 | the chosen file is the message's file of the chosen kind; nothing is chosen only when no kind is attached |
| `Bot.SelectReplyMediaFollowsOrder` | bot.py:213-224 | the chosen attachment is the first present in the order photo, video, document, audio, voice, animation; a photo uses its last size |
| `Bot.ReplyMediaMatchesClassifier` | bot.py:114-121 | replies and user submissions recognise the same six attachment kinds |
| `Bot.ReplyPlan` | bot.py:202-227 | a reply makes one or two requests, all to the resolved user; it makes two exactly when the message has no text and no attachment |
| `Bot.ReplyPlanPayload` | bot.py:210-227 | without text: the first attachment in the reply order, sent with the prefixed caption; with no attachment either: the prefix as text, then a copy of the staff message |
| `Bot.TextReplyIsPrefixed` | bot.py:206-208 | a text reply is sent as exactly `prefix + "\n" + text` |
| `Bot.RunPlan` | bot.py:192-197 | sequential awaits stop at the first rejection: the attempted calls are a prefix of the plan, every attempted call but a failing last one was delivered, and the run succeeds exactly when every outcome in its range is a delivery |
| `Bot.AdminReplyHandled` | bot.py:182-199 | the relation of the staff-reply handler; whenever it holds, calls were only appended, at most three, and none when the reply does not resolve |
| `Bot.UnresolvedReplyIsSilent` | bot.py:183-190 | a message that is not a reply, or whose target is unlinked or linked to 0, sends nothing |
| `Bot.ResolvedReplyGoesToUser` | bot.py:192-197 | a resolved reply sends only to the resolved user; a rejection adds exactly one failure notice, addressed to the staff message |
| `Bot.Relay.ValidLinksResolve` | bot.py:141-147 | under the relay's invariant every recorded id resolves to its recorded user, so the zero test at bot.py:188 never drops a relayed id |
| `Bot.Relay.constructor` | bot.py:20 | the relay starts with no links |
| `Bot.Relay.HandleUserMessage` | bot.py:94-126 | the new links and outbound calls are those of `UserMessageHandled`, and every link still leads to a non-zero user |
| `Bot.Relay.NotifyDeliveryError` | bot.py:66-70 | exactly one delivery-error answer is attempted, and a rejection of it is swallowed |
| `Bot.Relay.ProcessMaterial` | bot.py:129-154 | the new links and calls are those of `MaterialRelayed` |
| `Bot.Relay.ProcessQuestion` | bot.py:157-178 | the new links and calls are those of `QuestionRelayed` |
| `Bot.Relay.AdminReply` | bot.py:182-199 | the links are only read; the calls are those of `AdminReplyHandled` |
| `Bot.Relay.SendAdminReply` | bot.py:202-227 | the requests made are the reply plan run until the first rejection, and the result says whether all were delivered |
| `Bot.DefaultTokenPassesGuardAsWritten` | bot.py:230-232 | as written, with `BOT_TOKEN` unset the start-up check accepts the configuration's default token |
| `Bot.TokenAcceptedAsWritten` | bot.py:231 | the check as written refuses exactly the empty token and `ТВОЙ_ТОКЕН` |
| `Bot.TokenAccepted` | bot.py:231 | the corrected check is stricter than the one as written and refuses the configuration's default token |
| `Bot.Startup` | bot.py:230-232 | uses the corrected check `TokenAccepted`, not the check as written: start-up succeeds exactly when the settings load and the token is accepted; a loading error is reported as `BadSetting` with that error, and a refused token as `TokenNotConfigured` |
| `Bot.StartupNeedsToken` | config.py:47 | with `BOT_TOKEN` unset or empty, start-up fails |

## Findings

| source | as written | input that shows it | evidently intended | confidence | as-written member | corrected member |
|---|---|---|---|---|---|---|
| bot.py:231 | `main` refuses an empty token and the literal `ТВОЙ_ТОКЕН`, but the default of `BOT_TOKEN` at config.py:47 is spelled `–¢–í–û–ô_–¢–û–ö–ï–ù`, so the two literals differ | an environment without `BOT_TOKEN` | the default placeholder token is refused at start-up | low: the default may be a re-encoded copy of the same word; not executed | `Bot.DefaultTokenPassesGuardAsWritten` | `Bot.StartupNeedsToken` |

The corrected check `TokenAccepted` refuses both spellings of the
placeholder. `Startup` uses the corrected check.

## Left out

- ParseInt: accepts only an optional `+` or `-` followed by ASCII digits. Python's `int()` also accepts surrounding whitespace, single underscores between digits, and non-ASCII decimal digits. The model reports those values as errors. In the other direction, the model puts no limit on the number of digits. CPython's default `sys.int_max_str_digits` makes `int()` raise `ValueError` beyond 4300 digits, and `EnvInt` then reports the error, while the model returns the value.
- EnvInt: inherits that restriction of `ParseInt`.
- IntToString: renders integers of any length. CPython's `str()` raises `ValueError` beyond 4300 digits, which no Telegram user id reaches.
- SenderId: a missing sender and a sender with id 0 both give 0. The handler treats them the same way (bot.py:106-109).
- Logging and the rotating log file (bot.py:23-41), and every `logger` call: output only.
- The keyboards and the menu handlers `cmd_start`, `send_material_info`, `send_question_info` and `go_back` (bot.py:43-90): presentation only.
- Handler selection by the router (`Command`, `F.text`, `F.chat.type`, `F.chat.id` filters), `Dispatcher`, `start_polling`, closing the session, and `asyncio.run` (bot.py:230-251): framework plumbing. Each handler is modelled as called on the messages its filter admits.
- The values of the `Texts` and `Buttons` strings (config.py:23-44): they are a parameter record `Config.Texts`.
- `load_dotenv` and `os.getenv` (config.py:8-10): the environment is a map passed in. `LOG_FILE` is not modelled, because only logging uses it.
- The library's request details are not modelled: HTML parse mode, how `answer` and `reply` choose a thread, and `full_name`, which is taken as given.
- Exceptions other than `TelegramAPIError`: they propagate out of the handlers and are not modelled.
- Interleaving of handlers at their awaits: each handler is modelled as running to completion. Each update of `links` is a single assignment, so it is atomic at an await either way.
- The code has no album batching, debounce window, per-user intent state, or recovery of a user id from header text. None of these is modelled.
