# homework_bot — a Dafny model of the notification loop

`homework.py` is a Telegram bot. It polls the Practicum homework-status API
and sends a chat message whenever the status of the latest homework changes.
This project models the decision logic of that file and proves properties of it:

- **Start-up token check** (`check_tokens`), in `tokens.dfy`, module `Tokens`.
  The three settings `PRACTICUM_TOKEN`, `TELEGRAM_TOKEN` and
  `TELEGRAM_CHAT_ID` are inputs (`Settings`). A setting is missing when it is
  `None` or `""`. `check_tokens` fails with `Отсутствуют переменные окружения: `
  followed by the missing names, joined by `, `, in declaration order.
- **Answer validation** (`check_response`), in `responses.dfy`, module `Responses`.
  It makes three ordered shape tests on the decoded answer.
- **Status parser** (`parse_status`), also in `Responses`. It turns one homework
  record into the verdict sentence, looking the phrase up in the fixed
  `HOMEWORK_VERDICTS` table, or it raises.
- **Duplicate filter** (`uniq_messages_only` around `send_message`), in
  `notifier.dfy`, module `Notifications`. It is a `Notifier` class that holds
  `lastMessage`. A ghost log `sent` records each message that reached
  `bot.send_message`. The pure function `Notify` specifies one call.
- **One pass of `main`'s loop**, in `poll.dfy`, module `Poll`. The pure
  function `PollStep` takes the cursor (`timestamp`), the remembered message,
  what the fetch did and whether delivery succeeds. It returns the new state.
  The class `Poller` runs the same pass imperatively through a `Notifier`.
  `Launch` models the start of `main`: the token check, then the initial cursor.

Supporting modules: `results.dfy` holds `Option`, `Result` and `Outcome`.
`pyjson.dfy` holds the decoded JSON value as Python sees it. A dict is an
ordered member list, and `.get()` returns `None` for an absent key. That module
also has the parts of `str()`, `repr()` and `type()` that the messages use.
`failures.dfy` holds every exception the loop catches, with the text
`str(error)` gives it. `Text()` writes out that text. A `KeyError` puts quotes
around its message. An `AttributeError` is raised when the first homework is
not a dict. A `TypeError` is raised when the status is a list or a dict,
because such a value cannot be a `dict` key.

What follows from the code and is proved here:

- The cursor moves only when fetch, validation, parsing and sending all succeed
  (`CursorMovesOnlyOnSuccess`). A message dropped as a repeat counts as sent.
- `last_message` is set before `bot.send_message` is called. So when a
  homework message's send raises `TelegramError`, the cursor stays, and the
  next pass over the same answer drops that message as a repeat, sends
  nothing and moves the cursor (`FailedSendNotRepeated`). The message is sent
  again only if another message is remembered in between and the API returns
  that homework again.

Behaviour of the code that the model keeps:

- `timestamp` takes whatever `current_date` holds, so the cursor is any JSON
  value (`Json`) and may go backwards.
- `.get` treats a null `homework_name` as absent. A record that is not a dict
  raises AttributeError, and a list or dict status raises TypeError.
- Only `homeworks[0]` is parsed (`OnlyFirstHomework`).

## Model

| member | source | states |
|---|---|---|
| `PyJson.Lookup` | homework.py:109-111 | `key in d` and `d[key]`: the result is None exactly when no member has the key; otherwise it is the value of the first member that has the key |
| `PyJson.DictGet` | homework.py:119-120 | `d.get(key, default)`: the default when the key is absent, otherwise the stored value |
| `PyJson.TypeText` | homework.py:107-108 | `str(type(x))`: the type's name stands between `<class '` and `'>` and can be read back from there |
| `PyJson.NatText` | homework.py:124-125 | `str(n)` for a natural number: a non-empty string of decimal digits |
| `PyJson.NatTextValue` | homework.py:124-125 | the decimal text of a natural number reads back as that number and has no leading zero |
| `PyJson.IntText` | homework.py:124-125 | `str(i)` for an int: the decimal digits, without a leading zero, whose value is `i`, after a `-` when `i` is negative |
| `PyJson.Join` | homework.py:50 | `sep.join(parts)`: the empty list gives `""` and a single part gives itself |
| `PyJson.JoinLast` | homework.py:50 | for two or more parts, the join is the join of all but the last part, then the separator, then the last part |
| `PyJson.JoinThree` | homework.py:50 | joining three names puts the separator between each pair |
| `PyJson.Repr` | homework.py:127 | `repr`: a string between single quotes, a list between `[` and `]`, a dict between `{` and `}`, and `[]`/`{}` when empty |
| `PyJson.Str` | homework.py:127 | how an f-string shows a value: a string as it is, `None` as `None`, a bool as `True`/`False`, an int as its decimal digits without a leading zero (after `-` when negative) whose value is the int, a list or dict as its repr |
| `Failures.Failure.Text` | homework.py:107-125 | `str(error)`: a failed request shows its own cause; an answer that is not a dict ends with `Тип ответа: ` and its type; a non-list "homeworks" ends with `Полученный тип: ` and its type; an unknown status ends with `Полученный статус: ` and the status as the f-string shows it; the AttributeError and unhashable TypeError texts carry the type name between single quotes at a fixed place; every text but a failed request's has at least four characters |
| `Failures.DifferentKindsDifferentTexts` | homework.py:106-125 | two errors raised by different checks of `check_response` and `parse_status` have different texts |
| `Tokens.Missing` | homework.py:44-46 | the filter keeps at most as many names as it is given, and each kept name was given and has a falsy global |
| `Tokens.MissingTokens` | homework.py:44-46 | `missing_tokens`: at most the three required names, each of them one whose global is falsy |
| `Tokens.MissingMembers` | homework.py:44-46 | a name is reported exactly when it was asked about and its global is falsy |
| `Tokens.MissingAppend` | homework.py:44-46 | the filter splits over concatenation, so the reported names keep the order of `required_tokens` |
| `Tokens.MissingTokensExactly` | homework.py:19 | the report is exactly the falsy settings, in the order PRACTICUM_TOKEN, TELEGRAM_TOKEN, TELEGRAM_CHAT_ID |
| `Tokens.CheckTokens` | homework.py:42-53 | fails iff at least one of the three settings is None or empty; the error is the fixed prefix followed by the missing names joined by `, ` |
| `Tokens.AllPresentPasses` | homework.py:47 | three non-empty settings pass |
| `Tokens.EmptyChatIdReported` | homework.py:47-53 | an empty chat id alone is reported as `Отсутствуют переменные окружения: TELEGRAM_CHAT_ID` |
| `Tokens.TwoMissingReported` | homework.py:47-51 | with only the Telegram token set, the message names PRACTICUM_TOKEN then TELEGRAM_CHAT_ID, separated by `, ` |
| `Tokens.NothingSetReported` | homework.py:48-51 | with nothing set, all three names are reported, in declaration order |
| `Responses.VerdictMessage` | homework.py:127 | the f-string: a fixed head, then the name (read back at a fixed place) in double quotes, and the verdict at the end |
| `Responses.Homeworks` | homework.py:144-145 | `response["homeworks"]` of a validated answer: the list stored under "homeworks" |
| `Responses.CheckResponse` | homework.py:103-113 | in this order: not a dict gives TypeError; no "homeworks" key gives KeyError; a non-list value gives TypeError; it passes iff the answer is a dict whose "homeworks" is a list |
| `Responses.AcceptsEveryHomeworksList` | homework.py:109-113 | every dict whose "homeworks" is a list passes, the empty list included, and that list is what the loop reads |
| `Responses.RejectsThreeShapes` | homework.py:106-113 | the three rejections on minimal answers (a list, a dict without the key, a non-list value), and `{"homeworks": []}` passes |
| `Responses.ParseStatus` | homework.py:116-127 | a non-dict record gives AttributeError; an absent or null name gives KeyError whatever the status; the result is a message iff the name is present and the status is a table key; that message is the f-string built from the name and the table's phrase |
| `Responses.NameCheckedFirst` | homework.py:119-122 | a record without `homework_name` fails with the name error, whatever its status |
| `Responses.UnknownStatusFails` | homework.py:123-125 | with a name present, a status that is not approved/reviewing/rejected (absent and null included) fails: ValueError if it can be a dict key, TypeError if it is a list or dict |
| `Responses.AbsentStatusText` | homework.py:119-125 | an absent status fails as status `None`, and the error text ends `Полученный статус: None` |
| `Responses.KnownStatusMessages` | homework.py:25-29 | for each of the three statuses the result is exactly `Изменился статус проверки работы "<name>". ` followed by that status's fixed phrase |
| `Responses.StatusChangeChangesMessage` | homework.py:126-127 | two known statuses on the same name that differ give different messages, so the message for a new status never equals the message for the status before it |
| `Notifications.Notify` | homework.py:62-70 | after a call `last_message` is the message; the call is dropped iff the message equals the remembered one; it is delivered iff it is new and the bot succeeds |
| `Notifications.ReplayIsChanges` | homework.py:60-70 | over any run of calls the bot receives exactly the messages that differ from the message just before them (or from the initial one), in order, whatever the deliveries did |
| `Notifications.RepeatReachesBotOnce` | homework.py:65-70 | two identical consecutive calls reach the bot at most once |
| `Notifications.DifferentMessagesBothSent` | homework.py:65-70 | a new message followed by a different message reaches the bot twice |
| `Notifications.EmptyFirstMessageSuppressed` | homework.py:60 | `last_message` starts as `''`, so an empty first message is dropped |
| `Notifications.FailedSendNotRetried` | homework.py:69-70 | a send that raised TelegramError still records its message, so an immediate retry is dropped |
| `Notifications.Notifier.constructor` | homework.py:60 | a new sender remembers `''` and has sent nothing |
| `Notifications.Notifier.Send` | homework.py:62-79 | the new `lastMessage` and the outcome are those `Notify` gives; the log grows by the message iff it reached the bot |
| `Poll.FailureMessage` | homework.py:159 | the failure text is `Сбой в работе программы: ` followed by exactly `str(error)`, which can be read back from it |
| `Poll.NextCursor` | homework.py:153 | `response.get("current_date", timestamp)`: the old cursor when the key is absent, otherwise the stored value |
| `Poll.Attempt` | homework.py:140-146 | a failed fetch gives its own error; a failed answer validation gives the validation error; success means the answer passed validation |
| `Poll.PollStep` | homework.py:139-162 | a pass calls the bot at most once; a message that reaches the bot becomes the remembered one; otherwise the remembered message is unchanged; the cursor either stays or becomes the answer's `current_date` |
| `Poll.CursorMovesOnlyOnSuccess` | homework.py:140-153 | the cursor becomes `response.get("current_date", timestamp)` exactly when fetch, validation, parse and send all succeed, and otherwise stays |
| `Poll.NoCurrentDateKeepsCursor` | homework.py:153 | an answer without `current_date` leaves the cursor unchanged |
| `Poll.EmptyListSendsNothing` | homework.py:144-149 | an empty homework list sends nothing, keeps the remembered message and moves the cursor to `current_date` if present |
| `Poll.OnlyFirstHomework` | homework.py:144-147 | the pass is decided by `homeworks[0]` alone: its message is sent through the filter, or its parse error becomes the failure message |
| `Poll.FailureNotifiedThroughDedup` | homework.py:158-162 | any non-Telegram failure keeps the cursor and offers `Сбой в работе программы: <cause>` to the same filter; it is sent iff it differs from the last message |
| `Poll.RepeatedFailureReportedOnce` | homework.py:158-162 | the same failure on two passes in a row is sent at most once, and the second pass sends nothing |
| `Poll.ChangedFailureReported` | homework.py:158-162 | after a failure, a failure of another kind on the next pass is sent, and the cursor stays |
| `Poll.FailedSendNotRepeated` | homework.py:154-157 | after TelegramError on a new homework message the cursor stays, but the next pass over the same answer drops the message as a repeat and moves the cursor |
| `Poll.ApprovedScenario` | homework.py:140-153 | one approved `hw1` with `current_date` 1000 sends exactly the approved sentence once, and the cursor becomes 1000 |
| `Poll.EmptyScenario` | homework.py:144-153 | `{"homeworks": []}` sends nothing and keeps the cursor |
| `Poll.RequestFailedScenario` | homework.py:158-162 | a failed request sends one failure message carrying its cause and keeps the cursor |
| `Poll.MissingStatusScenario` | homework.py:119-125 | `hw2` without a status sends one failure message reporting status `None` and keeps the cursor |
| `Poll.Poller.constructor` | homework.py:136 | the cursor starts at the given current time, with a fresh sender that remembers `''` |
| `Poll.Poller.Iterate` | homework.py:139-162 | the imperative pass leaves exactly the cursor, remembered message and bot calls that `PollStep` gives |
| `Poll.Launch` | homework.py:134-136 | the token check runs first; the loop's state is created iff it passes |

## Left out

- `get_api_answer` (homework.py:82-100) is left out: the request, the endpoint, the headers, the timeout and the mapping of HTTP status to errors. This is network I/O. The model takes its result as an input: the decoded answer, or the text of the error it raised.
- Building `telegram.Bot` and calling `bot.send_message` are left out. This is a foreign SDK. The ghost log `sent` stands for the call, and a `delivered` flag says whether it raised `TelegramError`. Any other exception from the SDK is not modelled.
- Logging (homework.py:32-39, and every `logger` call) is left out, and so are `load_dotenv` and `os.getenv`. The three settings are inputs.
- `time.time()`, `time.sleep(RETRY_PERIOD)` and the endless `while True` are left out. They involve real time. The current time is a parameter, and the model covers one pass of the loop body.
- exceptions.py is not part of this model. It declares three exception classes that homework.py never uses.
- JSON floats (for example a float `current_date`) are not modelled.
- PyJson.Str: for a list or dict it states only that the text is the value's repr. PyJson.Repr states the brackets and the empty cases, not the layout of the elements.
- `PyJson.Repr` writes a string inside a list or dict between single quotes, without Python's escaping or its choice of quote character. This only matters for a homework name that is a list or a dict.
- A dict is the list of its members. Lookup returns the first member with a key. A decoded Python dict has distinct keys, so the case of duplicate keys does not arise.
