# Homework-status bot, modelled in Dafny

The bot polls the Yandex Practicum homework API every ten minutes. It checks
the shape of each answer. It is meant to turn the status of the latest homework
into a sentence and send that sentence, or a description of whatever went
wrong, to one Telegram chat, and to send a message only when the text differs
from the one it sent before. As written it never builds that sentence: see the
list "What the code does" below. This project models the decision logic of
`homework.py`:

- `PyValues`: a decoded JSON answer (`Json`) with the Python semantics the bot
  relies on. This covers truthiness, `dict.get`, `str()` and `repr()`.
- `Errors`: the exceptions that reach the loop's `except Exception` handler,
  and the text `str(error)` gives for each.
- `Homework`: `check_response`, `parse_status`, `check_tokens` and the
  `HOMEWORK_STATUSES` table. These are pure functions.
- `PollLoop`: the body of `main`. It has two readings of one pass. `AsWritten`
  is what the code does. `Intended` is what its authors evidently meant. It also
  has `Run`, which folds passes over a finite list of API answers. The imperative
  `Poll` method runs `main` the way the code is written: the credential gate,
  then a `while` loop over the given answers. Each pass goes through `Iterate`,
  which keeps the source's `try`/`except` control flow and `prev_report`
  bookkeeping.
- `Wrappers`: `Option`, `Result` and two sequence helpers.

What the code does, and what the model therefore does:

- Every validation failure is a plain `TypeError` carrying the `'Сбой. Ошибка: …'`
  text.
- `homeworks` is rejected when it is missing and also when it is `null`, because
  the code tests `.get('homeworks') is None`.
- The branch at homework.py:149-154 is inverted. A non-empty list is reported as
  `'Список ДЗ пуст !'`. An empty list is indexed and raises `IndexError`. So
  `parse_status` is never reached from the loop.
- `logging.DEBUG(...)` at homework.py:158 calls an integer and raises
  `TypeError`. Every pass therefore ends in the `except` branch. The
  de-duplication promise ("an unchanged report is sent once") holds for failures
  but not for successful passes (see Findings).
- The "record is absent" check in `parse_status` (homework.py:113) cannot fire.
  A `None` record has already raised `AttributeError` at `.get`.

## Model

| member | source | states |
|---|---|---|
| `PyValues.Get` | homework.py:107-108 | `d.get(key)` is None when the key is absent; otherwise it is the value of the last member with that key |
| `Homework.CheckResponse` | homework.py:74-101 | succeeds iff the answer is a dict with a truthy `current_date` and a list `homeworks`; then it returns exactly that list; every failure is a TypeError whose text starts with `'Сбой. Ошибка: '` |
| `Homework.CheckResponseOrder` | homework.py:76-97 | the four checks run in the source's order, and each rejection carries the message of the first check that fails |
| `Homework.MissingBothKeys` | homework.py:81-90 | a dict lacking both keys is rejected for `current_date`, not `homeworks` |
| `Homework.EmptyHomeworksAccepted` | homework.py:98-101 | an empty `homeworks` list is returned without error |
| `Homework.ParseStatus` | homework.py:104-123 | succeeds iff the record is a dict whose `status` is a key of `HOMEWORK_STATUSES`; the result is the fixed sentence around `str(homework_name)` and the table's text; WrongAPIAnswerError iff `status` is missing or null; an unknown scalar status raises the lookup's unwrapped KeyError; a non-dict record raises AttributeError |
| `Homework.NoneRecordFailsAtGet` | homework.py:107-117 | a None record fails with AttributeError at `.get`, so the `last_homework is None` test is dead |
| `Homework.ParseStatusDeterminesStatus` | homework.py:118-121 | for the same homework name, equal sentences come from the same status: the three table texts cannot be confused |
| `Homework.ApprovedScenario` | homework.py:24-28 | an `approved` record named `proj1` gives `'Изменился статус проверки работы "proj1". '` followed by the approved text |
| `Homework.AllSet` | homework.py:128 | Python's `all` over the tokens is true iff every token is set and non-empty |
| `Homework.CheckTokens` | homework.py:126-128 | true iff all three credentials are present and non-empty |
| `PollLoop.FailureReport` | homework.py:159-160 | every caught exception becomes a report starting with `'Сбой в работе программы: '` |
| `PollLoop.Attempt` | homework.py:147-154 | as written: the pass reaches a report iff the fetch succeeded, the answer passed `check_response` and the list is non-empty; that report is always `'Список ДЗ пуст !'`; an empty list raises IndexError; a failed fetch raises its own error and a rejected answer its validation TypeError |
| `PollLoop.IntendedAttempt` | homework.py:147-154 | as intended: a non-empty list is reported by `parse_status` of its first homework, an empty list by `'Список ДЗ пуст !'`, a rejected answer by its validation error, and a failed fetch by its own error |
| `PollLoop.Report` | homework.py:155-157 | a report is sent iff it differs from `prev_report`; at most one message is sent; afterwards `prev_report` equals the report |
| `PyValues.Truthy` | homework.py:81 | Python truthiness: exactly None, False, 0, `''`, `[]` and `{}` are falsy (also used at homework.py:98 and 128) |
| `PyValues.Str` | homework.py:119-121 | `str()` as `'{}'.format` applies it to `homework_name`: a string is itself, any other value its non-empty repr |
| `Errors.ErrorText` | homework.py:160 | `str(error)` in the f-string: an exception's own message, and for a KeyError the repr of its key: a string key in quotes, an integer key in decimal, a boolean key as `True` or `False` |
| `PollLoop.IntendedCandidate` | homework.py:147-160 | as intended, the report a pass settles on is the empty-list text, a status sentence or a failure report, and a failed fetch gives the failure report of its text |
| `PollLoop.Step` | homework.py:146-164 | one pass of the `while` body; afterwards `prev_report` is the last message sent and no message repeats the one before it; at most two messages as written (the report and the `logging.DEBUG` failure), at most one as intended |
| `PollLoop.Run` | homework.py:145-166 | consecutive passes over the given answers send at most two messages each as written, and at most one as intended |
| `PollLoop.RunDeduplicates` | homework.py:145-166 | over any number of passes, `prev_report` is the last message sent, and no two consecutive messages are equal |
| `PollLoop.WrittenPassEndsInFailure` | homework.py:155-164 | as written, every pass leaves a failure report in `prev_report`; a pass that got past the report leaves the `logging.DEBUG` failure text |
| `PollLoop.WrittenFailureStep` | homework.py:159-164 | as written, a pass that raises before the report reaches line 155 only de-duplicates and sends its failure report |
| `PollLoop.WrittenFailureSentOnce` | homework.py:159-164 | as written, one failing answer repeated n times sends its failure report once, or not at all if it was already the previous report |
| `PollLoop.WrittenSuccessStep` | homework.py:149-164 | as written, a pass that gets past the report sends `'Список ДЗ пуст !'` and then the `logging.DEBUG` failure text |
| `PollLoop.WrittenSuccessResent` | homework.py:155-164 | as written, one accepted answer repeated n times sends both texts on every pass, 2n messages in all |
| `PollLoop.IntendedSentOnce` | homework.py:145-164 | as intended, one answer repeated n times is announced at most once |
| `PollLoop.Bot.constructor` | homework.py:144 | the bot is built with the Telegram token and has sent nothing yet |
| `PollLoop.Bot.SendMessage` | homework.py:40-43 | sending appends the text to the chat's messages |
| `PollLoop.Iterate` | homework.py:146-164 | one pass of the `try`/`except` body sends exactly what `Step` says and returns its new `prev_report` |
| `PollLoop.Poll` | homework.py:131-166 | with a credential missing, `main` exits with the critical message before it builds the bot or queries the API; otherwise, after the given answers, it has sent what `Run` says from an empty `prev_report`, and every query used the start timestamp |

## Left out

- `get_api_answer` (homework.py:52-71) is an HTTP request. Its result is the input `Fetch`: either the decoded body or the text of what it raised. Its `ConnectionError` handler at homework.py:68-70 is unreachable, because `ConnectionError` is a subclass of `RequestException`.
- `PollLoop.Bot.SendMessage`: the Telegram transport is left out, so a send always succeeds. In the source, `send_message` catches only `IncorrectMessageError`, which the transport never raises, so a transport failure leaves `send_message` as the transport's own exception. At homework.py:156 that exception is caught at line 159: the failure report is then sent, and `prev_report` never takes the handled report. At homework.py:163 it ends `main`. The model captures neither.
- `time.sleep(RETRY_TIME)` and the endless `while True` are left out. `Poll` runs one pass per given answer.
- `int(time.time())` is the input `now`.
- All logging is left out, and so are `load_dotenv`/`os.getenv` (the `Env` value is their result) and the `logging.basicConfig` setup.
- The types in exceptions.py have no behaviour. `WrongAPIAnswerError` is a constructor of `Error`. `NoResponseReceivedError` and `FailAnswerConnectionError` only arise inside `get_api_answer`, so they appear only as the text of a `FetchRaised` answer. `IncorrectMessageError` is never raised by the transport.
- JSON numbers with a fraction or an exponent (Python floats) are not modelled. `Json` has integers only.
- `PyValues.StrRepr` escapes quotes, backslashes and control characters the way Python does. It treats every other character as printable, whereas Python escapes every character that `str.isprintable()` rejects: separators other than the ASCII space (such as U+00A0 and U+2028), format characters (such as U+200B and U+FEFF), surrogates, and private-use and unassigned code points, written as `\xhh`, `\uXXXX` or `\UXXXXXXXX`. A dict repr lists repeated keys once per member, whereas the decoder keeps only the last value of a repeated key.
- `parse_status` giving the same sentence twice for the same record needs no lemma: `ParseStatus` is a Dafny function, so it is deterministic by construction.

## Findings

| source | as written | input that shows it | evidently intended | confidence | as-written member | corrected member |
|---|---|---|---|---|---|---|
| homework.py:149-154 | `if homeworks:` reports the empty-list text for a non-empty list, and indexes an empty one | an answer with one approved homework gives `'Список ДЗ пуст !'`; `homeworks: []` raises IndexError | report `parse_status(homeworks[0])` for a non-empty list and the empty-list text otherwise | high, not executed | `PollLoop.Attempt` | `PollLoop.IntendedAttempt` |
| homework.py:158 | `logging.DEBUG(...)` calls the integer level constant and raises TypeError after every handled report | the same accepted answer on two consecutive passes sends `'Список ДЗ пуст !'` and the failure text twice each | `logging.debug(...)`, so that an unchanged report is sent only once | high, not executed | `PollLoop.WrittenSuccessResent` | `PollLoop.IntendedSentOnce` |

`Poll` and `Iterate` follow the code as written, because they model what the
program does. The `Intended` reading of `Step` and `Run` is the corrected loop,
and the intended-behaviour lemmas are proved about it.
