# homework_bot: a verified model of the polling core

homework_bot is a Telegram bot that polls the Yandex Practicum homework-review API. Every
600 seconds it asks for the status of the user's homework submissions. It sends the newest
status to one chat as a Russian sentence. This project models the part of `homework.py` that
decides what happens, and proves what it promises:

- the credential check run at start-up (`check_tokens`);
- the classification of the HTTP outcome (`get_api_answer`);
- the shape check of the decoded answer (`check_response`);
- the rendering of a homework record into a chat message (`parse_status`), with the verdict
  table `HOMEWORK_VERDICTS`;
- the `main` loop, as a state machine and as a `Bot` class whose `Step` and `Run` methods are
  proved against it.

Modules:

- `Wrappers` (wrappers.dfy): `Option`, `Result` and `Outcome`.
- `Errors` (errors.dfy): the failures as tags. `Kind` maps each one to the Python exception
  class it is raised as (`TypeError`, `KeyError`, `NoAPIAnswer`, `Exception`).
- `PyJson` (pyjson.dfy): the decoded body as a value (`None`, bool, int, str, list, dict). It
  also holds the Python operations the core applies to that value: `in`, `dict.get` and `str()`.
- `Homework` (homework.dfy): `CheckTokens`, `GetApiAnswer`, `CheckResponse`, `ParseStatus`.
- `PollLoop` (poll_loop.dfy): the state of `main` (`BotState`), start-up (`Start`), one cycle
  (`Cycle`, `Next`), a bounded run (`RunSpec`), the invariant `Inv` and the lemmas, and the
  class `Bot`.

The HTTP request is an input of type `Transport`. It is either a response or a connection
error. A response carries its status code and its body decoded as JSON, or `None` when the
body is not JSON. `Bot.Run` takes a finite sequence of such outcomes and feeds one to each
cycle. This replaces `while True` and `time.sleep`. Sending a chat message appends it to `sent`.
Every request records its `from_date` in `queries`, so it can be stated that no request is made
and that the timestamp never changes.

Two behaviours of the code differ from what the function names suggest, and the model follows the code.
`check_response({})` raises `TypeError`, not a missing-key error: `.get("homeworks")` returns
`None`, which is not a list. An unknown `status` raises `KeyError`, not a value error.

The failure handler is modelled as written. On any exception it sends `message`, the last status
message that `main` rendered. The start notice is passed as a keyword argument and does not bind
`message`. So a failure in a cycle before any status message was rendered raises
`UnboundLocalError` inside the handler. That ends `main`. The model records this as
`halted` and does not repair it (`FailureBeforeFirstMessageHalts`).

## Model

| member | source | states |
|---|---|---|
| PyJson.IsSubstring | homework.py:122 | `key in s` on a str is true exactly when `key` occurs in `s` at some index |
| PyJson.Contains | homework.py:122 | `key in x` is dict-key membership for a dict, the substring test for a str and element membership for a list; it raises exactly for None, bools and ints |
| PyJson.Digits | homework.py:133-134 | the digits written for a non-negative int denote that number, and there is no leading zero except in "0" |
| PyJson.PyStr | homework.py:133-134 | the name put into the message is the str itself, "None" for None, "True"/"False" for a bool, and for an int an optional minus sign, present exactly when it is negative, followed by the decimal digits of its absolute value |
| Homework.FirstFalsy | homework.py:62-65 | the search returns None exactly when every variable is truthy; otherwise it returns the name of a falsy variable that has only truthy variables before it |
| Homework.CheckTokens | homework.py:55-65 | the process may start exactly when all three tokens are set and non-empty; otherwise the first falsy one is reported, in the order PRACTICUM_TOKEN, TELEGRAM_TOKEN, TELEGRAM_CHAT_ID |
| Homework.GetApiAnswer | homework.py:81-103 | only a 200 answer with a JSON body succeeds, and it returns that body unchanged; any other status code gives NoAPIAnswer, even when the body is not JSON; a transport or decode failure gives the generic Exception |
| Homework.CheckResponse | homework.py:106-115 | passes exactly for a dict whose "homeworks" value is a list, of any elements and possibly empty; a non-dict, a missing key and a non-list all give TypeError |
| Homework.FirstMissingKey | homework.py:120-125 | for a dict, returns None exactly when every key is present, else the first absent key; it raises exactly when `in` is applied to None, a bool or an int |
| Homework.IsVerdict | homework.py:127 | a status is a verdict exactly when it is a str key of the verdict table; a list or dict status raises TypeError (unhashable) |
| Homework.ParseStatus | homework.py:118-135 | succeeds exactly on a dict with a name and a status from the table; it renders `Изменился статус проверки работы "<name>".<verdict phrase>` with nothing between the period and the phrase; it reports homework_name before status when keys are missing; an unknown status is a KeyError; a non-dict never renders |
| Homework.ParseStatusIgnoresOtherKeys | homework.py:132-135 | two dicts that agree on homework_name and status render the same result, whatever their other keys |
| Homework.ParseStatusApproved | homework.py:37-41 | the record {hw1, approved} renders the approved phrase directly after `"hw1".` |
| PollLoop.Start | homework.py:138-143 | a falsy credential stops the process with no request and no message sent; otherwise only the start notice has been sent, no status message is rendered, and the timestamp is the start-up clock reading |
| PollLoop.Cycle | homework.py:145-154 | an invalid or failed answer raises; an empty list sends nothing; otherwise the cycle succeeds exactly when the first record parses, and it sends that record's message |
| PollLoop.Next | homework.py:144-159 | each cycle issues one request with the unchanged timestamp and sends at most one text, appended after the earlier ones; the text is the new message on success and nothing for an empty list; on failure it is the previous message, and the loop halts exactly when there is none |
| PollLoop.StartEstablishesInv | homework.py:138-143 | a bot that starts satisfies the loop invariant |
| PollLoop.NextKeepsInv | homework.py:144-159 | one cycle preserves the invariant: the start notice comes first and only status messages follow; `message` is unbound exactly until the first status message and is then the last text sent; every request uses the start-up timestamp; at most one text is sent per cycle; the loop halts only while `message` is unbound |
| PollLoop.RunKeepsInv | homework.py:144-159 | the invariant holds after any number of cycles |
| PollLoop.RunFromHalted | homework.py:65 | a stopped process issues no request and sends nothing more |
| PollLoop.MissingTokenPreventsRequests | homework.py:140-146 | with a missing or empty credential, no request is ever made and no message is ever sent |
| PollLoop.RenderedMessageKeepsLoopAlive | homework.py:155-159 | once a status message has been rendered, no failure stops the loop: every cycle offered issues its request |
| PollLoop.FailureBeforeFirstMessageHalts | homework.py:155-157 | a failure before any status message was rendered stops the loop, and the chat has still received only the start notice |
| PollLoop.CycleReadsFirstRecordOnly | homework.py:148-152 | two answers with the same first record give the same cycle result; later records are never read |
| PollLoop.FirstRecordIsNotified | homework.py:148-152 | the answer [hw2 rejected, hw3 approved] sends the hw2 message and nothing about hw3 |
| PollLoop.RunStopsAtHalt | homework.py:144-159 | once the process has stopped, the remaining outcomes change nothing |
| PollLoop.Bot.constructor | homework.py:138-143 | the new bot's state is the start-up state |
| PollLoop.Bot.Step | homework.py:145-159 | one loop iteration, run in place, leaves the bot in the state `Next` gives |
| PollLoop.Bot.Run | homework.py:144-159 | the bounded loop leaves the bot in the state `RunSpec` gives, and it stops early when the process halts |

## Left out

- The HTTP request itself: the URL, the `Authorization` header, the `from_date` parameter encoding, the 10-second timeout and JSON decoding. Their outcome is the `Transport` input.
- The `exceptions` module is not part of this model. `NoAPIAnswer` is an error tag here. Whether its constructor accepts the arguments it is given is not modelled.
- The Telegram `Bot` and `Updater` objects, including the `Updater` built when the module is imported, and `bot.send_message`. Sending appends to `sent`. The notifier swallows every delivery error, so no send ever fails in the model.
- `load_dotenv` and `os.getenv`: the three credentials are `Option<string>` inputs. `sys.exit` is the `halted` flag.
- `time.time()` and `time.sleep(600)`: the start-up clock reading is the `now` input. The sleep is the step to the next cycle. `while True` runs over a finite sequence of outcomes.
- All logging, including the texts logged for each failure. Nothing in the bot reads them back.
- PyJson.PyStr: a `homework_name` that is a list or dict renders as the empty string, not Python's `str()` of it. The model's dict does not keep Python's key order. Names that are a str, None, a bool or an int render as Python renders them.
- JSON floats are not part of `Json`.
- The module docstring is a note to a reviewer and has no behaviour.
