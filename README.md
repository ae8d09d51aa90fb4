# homework_bot, modelled in Dafny

homework_bot is a polling script (`homework.py`). It asks a homework-review
API for status changes since a time cursor, and it forwards them to a
Telegram chat as Russian sentences. It also alerts the same chat when a
cycle fails, but it does not repeat an alert whose text equals the last one.

This project models the script's decision logic:

- `check_response` is `Homework.CheckResponse`. It validates the decoded
  answer.
- `parse_status` is `Homework.ParseStatus`. It turns one homework record
  into the status sentence.
- `check_tokens` is `Homework.CheckTokens`. It is the credential check.
- The body of `main`'s loop is `Poll.Classify` plus `Poll.Apply`, combined in
  `Poll.Cycle`. `Poll.Session` runs it in place: it has `cursor`
  (`current_timestamp`), `lastError` (`last_error`) and `sent`, the log of
  Telegram messages. `Session.Run` runs the loop over a finite sequence of
  fetch results.
- `Bot.RunBot` is `main`. It checks the credentials, then runs the loop.

Decoded JSON is `Json.Json`. Homework records are list elements, so they can
be any JSON value. The model therefore also follows the code on records that
are not objects: Python's `in` works on strings and lists, and the later
`.get` then fails. Each raised exception is an `Errors.Exception`, with its
class and its argument. `Errors.Text` is Python's `str()` of an exception,
and that text is what the alert embeds. The status-to-verdict table comes
from `settings.py`, which is not part of this model; it is the parameter
`statuses`.

Some of the code's behaviour may be unexpected; the model follows the code:

- An unknown status code raises `KeyError`. There is no separate error kind.
- A status that is a list or an object raises `TypeError`, because it is
  unhashable.
- The cursor takes whatever JSON value `current_date` holds. It is not
  checked to be an integer.
- `last_error` is not cleared by a successful cycle. An error that comes
  back after successes is therefore not alerted again
  (`PollProperties.FailureAfterSuccess`).

## Model

| member | source | states |
|---|---|---|
| `Homework.CheckResponse` | homework.py:56-65 | A value that is not an object gets TypeError with the "not a dict" text. For an object, success holds exactly when `homeworks` is present and is a list, and then that list is returned unchanged, even if empty. Any other object gets TypeError with the "not a list" text. |
| `Homework.CheckResponseReturnsList` | homework.py:61-65 | Any object whose `homeworks` entry is a list passes, whatever its other entries, and returns exactly that list. |
| `Homework.Contains` | homework.py:70-75 | Python's `key in record`. It is key membership for a dict, element membership for a list, and a substring test for a string. It raises exactly when the record is none of these, and then the error is a TypeError. |
| `Homework.IsUnknown` | homework.py:78-80 | The status is known exactly when it is a string that is a key of the table. It raises exactly for a list or a dict, with TypeError "unhashable type". |
| `Homework.StatusMessage` | homework.py:82 | The sentence is the fixed prefix, then the rendered name, then `". `, then the verdict verbatim at its end. Its length is the sum of the parts. |
| `Homework.ParseStatus` | homework.py:68-82 | A missing `homework_name` gives KeyError before `status` is examined. A missing `status` gives KeyError before the table is consulted. Success holds exactly for a dict with a name and a string status that is in the table. Then the result is `Изменился статус проверки работы "<name>". <verdict>`. A present but unknown hashable status gives KeyError. A present list or dict status gives TypeError "unhashable type". |
| `Homework.ParseStatusPrefix` | homework.py:82 | Every sentence produced starts with the fixed prefix and is longer than it. |
| `Homework.ParseStatusReadsTwoFields` | homework.py:70-82 | Two dict records that agree on `homework_name` and `status` (including on their absence) give the same result. |
| `Homework.ParseStatusScalarRecord` | homework.py:70 | A `null`, boolean or integer record raises TypeError "argument of type ... is not iterable" at the first `in`. |
| `Homework.ParseStatusListRecord` | homework.py:70-76 | A list record gives KeyError (no name) unless the string `homework_name` is an element. It then gives KeyError (no status) unless `status` is an element. Otherwise it gives AttributeError at `.get`. |
| `Homework.ParseStatusStringRecord` | homework.py:70-76 | A string record gives KeyError (no name) unless `homework_name` is a substring. It then gives KeyError (no status) unless `status` is a substring. Otherwise it gives AttributeError at `.get`. |
| `Homework.ParseStatusNeedsDict` | homework.py:70-77 | A record that is not a dict always fails. Strings and lists never fail with TypeError; every other non-dict record fails with TypeError. |
| `Homework.All` | homework.py:88 | `all(tokens)` is true exactly when every token is set and non-empty. |
| `Homework.CheckTokens` | homework.py:85-88 | True exactly when all three secrets are present and non-empty. |
| `Errors.Text` | homework.py:110 | `str()` of an exception. A non-KeyError renders its argument. A KeyError renders its argument between double quotes. |
| `Json.Format` | homework.py:82 | The f-string rendering of the name. A string renders as itself, `null` as `None`, and booleans as `True`/`False`. An integer renders as its decimal digits, with a leading `-` when negative, and those digits read back to its value. |
| `Json.DigitsRoundTrip` | homework.py:82 | Reading back the decimal digits of a natural number gives the number. |
| `Poll.Classify` | homework.py:100-110 | The outcome of the `try` block. A raised fetch becomes the alert with its text. A cycle is idle exactly when the answer passes `check_response` with an empty list. A notifying cycle has passed `check_response` with a non-empty list, and its message is `parse_status` of element 0. A successful cycle carries the answer's `current_date` if it has one. |
| `Poll.Apply` | homework.py:103-114 | The log only grows, by at most one message, and a notifying outcome appends its message. The last error becomes the alert on failure and is kept otherwise. A failure keeps the cursor. |
| `Poll.Cycle` | homework.py:100-114 | One pass of the loop. The log only grows, by at most one message. A failing cycle keeps the cursor and sets the last error to its alert; any other cycle keeps the last error. A raised fetch keeps the cursor. |
| `Poll.Replay` | homework.py:99-116 | A run of cycles only appends to the log, at most one message per cycle. |
| `Poll.Session.constructor` | homework.py:97-98 | At start-up the cursor is the current time, the last error is empty and nothing has been sent. |
| `Poll.Session.Send` | homework.py:29-35 | Sending appends the message to the log and changes nothing else. |
| `Poll.Session.Fail` | homework.py:109-114 | The alert is sent exactly when it differs from the last error. The last error then equals the alert. |
| `Poll.Session.Step` | homework.py:100-114 | One pass of the loop in place leaves the state equal to `Cycle` of the old state. |
| `Poll.Session.Run` | homework.py:99-116 | The loop over a run of fetch results leaves the state equal to `Replay` of the old state. |
| `PollProperties.Dedup` | homework.py:112-114 | Reference behaviour of the alert filter. The result is no longer than the input, is empty only for empty input, and ends with the input's last element. No two neighbours are equal, and it holds the same elements as the input. |
| `PollProperties.Alerts` | homework.py:110 | Every message it picks from a log carries the alert prefix. |
| `PollProperties.Notices` | homework.py:82 | No message it picks from a log carries the alert prefix. |
| `PollProperties.NoticeIsNotAlert` | homework.py:82 | A status sentence never starts with the alert prefix. |
| `PollProperties.FailedIsAlert` | homework.py:110 | Every failing cycle's alert carries the alert prefix and is non-empty, so it always differs from the initial empty last error. |
| `PollProperties.FailureCauses` | homework.py:100-110 | A cycle fails exactly when one of three things happens: the fetch raised, `check_response` raised, or the list is non-empty and `parse_status` on element 0 raised. The alert is the prefix plus that exception's text. |
| `PollProperties.SuccessfulCycle` | homework.py:103-108 | A successful cycle never touches the last error. It moves the cursor to `current_date` if present, else leaves it. It sends nothing for an empty list, and exactly the sentence for element 0 otherwise. |
| `PollProperties.FailingCycle` | homework.py:109-114 | A failing cycle keeps the cursor. It sends the alert exactly when the alert differs from the last error, and the last error becomes the alert. |
| `PollProperties.RepeatedFailure` | homework.py:112-114 | The same error twice in a row: the second cycle changes nothing, so at most one message is sent. |
| `PollProperties.DistinctFailures` | homework.py:112-114 | Two different errors in a row: the second is always sent. Both are sent when the first differs from the last error. |
| `PollProperties.FailureAfterSuccess` | homework.py:103-114 | An error repeated after a successful cycle is not sent again. |
| `PollProperties.RepeatedNotice` | homework.py:105-107 | Status sentences are not deduplicated: the same answer twice sends the sentence twice. |
| `PollProperties.Outcomes` | homework.py:100-110 | Gives one outcome per fetch, in order, each the classification of that fetch. |
| `PollProperties.ApplyQuietAlerts` | homework.py:103-108 | A cycle that does not fail sends no alert and leaves the last error as it was. |
| `PollProperties.ApplyNewAlert` | homework.py:109-114 | A failure whose alert differs from the last error sends that alert once, so the alerts stay the deduplicated failure history, and makes it the last error. |
| `PollProperties.ApplyRepeatedAlert` | homework.py:109-114 | A failure whose alert equals the last error sends nothing, and the alerts are still the deduplicated failure history. |
| `PollProperties.ReplayAlerts` | homework.py:97-114 | From start-up, the alerts sent are exactly the failing cycles' alerts with each run of equal texts sent once. The last error is the latest failure's alert, or empty if nothing has failed. |
| `PollProperties.ReplayNotices` | homework.py:103-107 | From any state, the status sentences a run sends are exactly the sentences of its cycles that found a homework, in order. |
| `PollProperties.ReplayCursor` | homework.py:108 | After a run, the cursor is the `current_date` of the last successful cycle that carried one. If no cycle did, the cursor has not moved. |
| `PollProperties.ReplaySentCount` | homework.py:97-114 | From start-up, the number of messages sent is the number of deduplicated alerts plus the number of status sentences. |
| `Bot.RunBot` | homework.py:91-116 | It raises ValueError exactly when `check_tokens` fails, and then it returns no log. The `telegram.Bot` construction is left out. Otherwise it returns the messages sent by running the loop from the start-up state. Its alerts are the deduplicated failure alerts and its status messages are the found sentences. |
| `Bot.EmptyAnswerMovesCursor` | homework.py:103-108 | `{"homeworks": [], "current_date": 1000}` sends nothing and moves the cursor to 1000. |
| `Bot.ApprovedHomeworkReported` | homework.py:78-82 | A record `hw1` with status `approved` sends `Изменился статус проверки работы "hw1". ` followed by the verdict for `approved`, and moves the cursor. |
| `Bot.OutageAlertedOnce` | homework.py:46-48 | Two non-200 answers in a row after start-up send exactly one alert. |

## Left out

- `get_api_answer` (homework.py:38-53) is left out: it is HTTP through `requests`, `time.time()` and JSON decoding. Each cycle's result is an input, either `Raised(detail)` or `Answer(body)`. A body that fails to decode makes the function return `None`, which reaches the loop as `Answer(Null)`. A request that raises leaves `response` unbound, and the resulting exception is just another `Raised`.
- `send_message` (homework.py:29-35) is a Telegram call. It is modelled only as appending to `sent`, and the chat identifier is not recorded. A delivery that fails with `telegram.TelegramError` is caught at homework.py:34 and never changes the loop's state, so the model records it like a successful send.
- Session.Send: an exception other than `telegram.TelegramError` from `bot.send_message` is not modelled. In the source it escapes `send_message`. Raised at homework.py:107, it reaches the `except` at line 109, which alerts and sets `last_error` if the text is new, and skips the cursor update at line 108. Raised at line 113, it escapes the loop. The model assumes every send returns.
- Bot.RunBot: `telegram.Bot(token=TELEGRAM_TOKEN)` at homework.py:96 is a foreign call that is not modelled. In the source it can raise after the credentials check and before the loop, so `main` can also fail when `check_tokens` succeeds.
- Logging (homework.py:21-26 and every `logger` call) is left out: it is output only.
- Environment loading and `HEADERS` (homework.py:14-19) are left out. The three secrets are `Option<string>` parameters.
- `time.sleep(RETRY_TIME)` and the endless `while True` (homework.py:99, 116) are replaced by a finite sequence of fetch results. The start-up clock reading is the parameter `now`.
- `settings.py` is not part of this model. `HOMEWORK_STATUSES` is the parameter `statuses`; `ENDPOINT` and `RETRY_TIME` do not appear.
- JSON floating-point numbers are not in `Json.Json`.
- Json.Format: names that are lists or dicts are rendered by a placeholder, because Python's `repr` of containers (quoting, dict insertion order) is not modelled. Strings, integers, booleans and `null` render as in Python.
- Errors.Text: the text of a `KeyError` is its argument in double quotes. This matches Python's `repr` only for arguments that hold a single quote and no double quote, which all three KeyError messages of the core do. The texts of interpreter-raised TypeError and AttributeError follow CPython 3's wording. The detail of a failed fetch is an opaque string.
