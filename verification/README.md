# homework_bot — a Dafny model of the polling bot's core

The bot polls the Practicum homework API, checks the answer, formats the
status of the newest homework as a Russian notification, and sends it to a
Telegram chat. It repeats this forever, and it reports any failure to the same
chat. This project models the parts of `homework.py` that have behaviour
worth stating:

- `PyValue` (`py_value.dfy`): the decoded JSON answer as Python values
  (None, bool, int, str, list, dict). It also holds Python truthiness and
  `dict.get`.
- `PyText` (`py_text.dfy`): how Python turns values and exceptions into text.
  This covers `str(int)`, `str`/`repr` of JSON values, and `str(e)`. Note that
  `str(KeyError(m))` is `repr(m)`, so it puts quotes around the text.
- `Homework` (`homework.dfy`): `HOMEWORK_STATUSES`, `check_response`,
  `parse_status` and `check_tokens`.
- `PollLoop` (`poll_loop.dfy`): the result of `get_api_answer` and
  `send_message`, one pass through the body of `main`'s `while True` loop as
  the pure function `Step`, and the start of `main`.

The network and the Telegram client are inputs. A `FetchOutcome` says what
the request produced: the server was unreachable, or it answered with a
status code and a body that was decoded or could not be decoded. A
`SendOutcome` says whether the bot delivered a message or refused it, with
the text of the error.

The model follows the code as written, including behaviour a reader of the
bot's description might not expect:

- An empty `homeworks` list is a `KeyError`, not a quiet cycle.
- A non-list `homeworks` is a `KeyError`, not a type error.
- The loop does not de-duplicate messages. The same answer sends the same
  notification again on every cycle.
- An unreachable server raises `SystemExit`. `except Exception` does not
  catch it, so the process ends.
- The cursor takes whatever `current_date` holds, including `null`.
- When the notification cannot be sent, the cursor has already advanced,
  because the assignment comes before `send_message`.
- When the failure report cannot be sent, its exception escapes `main`.
- A homework record that is not a dict raises `AttributeError`, because it
  has no `.get`.
- A non-empty list or dict status raises `TypeError` ("unhashable type"), because the
  `in HOMEWORK_STATUSES` test must hash it.
- The `homeworks is not None` guard always holds. `CheckResponse` only
  succeeds with a non-empty list, as its contract states, so `homeworks[0]`
  is always in range.

## Model

| member | source | states |
|---|---|---|
| PyValue.Lookup | homework.py:87 | `dict.get` finds a key exactly when some entry carries it, and returns the value of the last such entry |
| PyValue.Get | homework.py:149-151 | `get(key, default)` returns the default when the key is absent, and otherwise the value of the last entry binding the key |
| PyValue.LookupOther | homework.py:149-151 | rebinding one key of a dict leaves every other key's lookup unchanged, wherever the rebound entry sits |
| PyText.NatToStringRoundTrip | homework.py:73 | the digits `str` writes for a natural number read back as that number |
| PyText.IntToStringRoundTrip | homework.py:73 | `str(i)` of any int, sign included, reads back as `i` |
| PyText.IntToStringInjective | homework.py:73 | distinct status codes give distinct texts |
| PyText.PlainRepr | homework.py:156 | `repr` of a string of printable ASCII and Cyrillic characters, with no single quote or backslash, is that string in single quotes |
| PyText.KeyErrorText | homework.py:156 | the text of a KeyError whose argument is such a plain string is that argument in single quotes, so it differs from the argument |
| PyText.Display | homework.py:111 | the f-string shows a string name as the string itself |
| PyText.RenderScalars | homework.py:111 | `str` shows None, booleans and ints as Python does, with an int's text reading back as that int; `repr` quotes a string and `str` does not |
| Homework.CheckResponse | homework.py:82-94 | a non-dict raises TypeError; an absent or falsy `homeworks` raises KeyError (missing); a truthy non-list raises KeyError (not a list); every rejected dict gets a KeyError; success returns the bound non-empty list |
| Homework.CheckResponseAccepts | homework.py:87-94 | every dict whose `homeworks` is a non-empty list is accepted, and exactly that list is returned |
| Homework.CheckResponseFalsyHomeworks | homework.py:87-90 | any falsy `homeworks` is reported as missing: `[]`, `""`, `0`, `false`, `{}` and `null` |
| Homework.CheckResponseAbsentHomeworks | homework.py:87-90 | a dict without `homeworks` is reported as missing it |
| Homework.ParseStatus | homework.py:97-111 | a non-dict raises AttributeError; the checks run in order (None name, then falsy status, then unhashable status); success happens exactly for a non-None name with a known code; the text is the fixed sentence with the name and the code's verdict |
| Homework.ParseStatusUnknownCode | homework.py:107-109 | a truthy, hashable status outside the three codes raises the unknown-status KeyError |
| Homework.ParseStatusEmptyName | homework.py:99-102 | an empty-string name is accepted, since only None is rejected |
| Homework.SameCode | homework.py:25-29 | the three verdicts differ in their last two characters, so a text ending in a verdict identifies the code |
| Homework.NotificationInjective | homework.py:110-111 | two notifications are equal only if their names and their codes are equal |
| Homework.NotificationDetermines | homework.py:97-111 | two records with the same notification have the same displayed name and the same status |
| Homework.CheckTokens | homework.py:114-132 | the result is true exactly when all three values are set and non-empty; the reported values are exactly the missing ones, each once, in the order of the checks |
| PollLoop.GetApiAnswer | homework.py:60-79 | SystemExit exactly when the server is unreachable; JSON only for a decoded 200 answer; any other code raises ConnectionError naming the code; an undecodable body raises the exception that homework.py:78 raises, supplied by the fetch outcome |
| PollLoop.HttpErrorTextCarriesCode | homework.py:70-73 | the status code can be read back from the error text |
| PollLoop.SendMessage | homework.py:42-57 | a delivered message raises nothing; a refused one raises a ConnectionError whose text is the fixed hint, ` : ` and the client's error |
| PollLoop.Recover | homework.py:155-159 | the handler keeps the cursor, reports `Сбой в работе программы: ` plus the error text, and ends the process if that report cannot be sent |
| PollLoop.Compose | homework.py:144-148 | the try block reaches the send exactly when the answer is a 200 dict whose first homework is reportable, and then carries that answer and the notification `parse_status` makes of its first homework; otherwise it fails with the exception of the first step that raised: the request, `check_response`, or `parse_status` on the first homework |
| PollLoop.Step | homework.py:143-159 | an unreachable server halts with nothing sent; otherwise one or two messages go out; a quiet cycle happens exactly when the notification is composed and delivered, and it sends only that one message; every failure ends by sending a failure report; the cursor moves only after a notification is composed; the process halts exactly on SystemExit or an undeliverable report |
| PollLoop.StepSuccess | homework.py:145-153 | for a reportable first homework, exactly one message is sent (its notification), and the cursor becomes `current_date` when the answer has it, otherwise it stays |
| PollLoop.StepReadsFirstHomework | homework.py:148 | answers that differ only after the first homework give the same cycle, whatever entries come before or after `homeworks` (the API's own `{"homeworks": [...], "current_date": ...}` included), as long as no later entry rebinds `homeworks` |
| PollLoop.StepEarlyFailure | homework.py:155-159 | a failure in the request, the answer check or the record check sends one report of that error and leaves the cursor as it was |
| PollLoop.StepRejectedAnswer | homework.py:82-94 | an answer `check_response` rejects gives exactly one report, carrying that rejection's text, and keeps the cursor |
| PollLoop.StepRejectedRecord | homework.py:97-109 | a first homework `parse_status` rejects gives exactly one report, carrying that rejection's text, and keeps the cursor |
| PollLoop.StepUndecodableBody | homework.py:74-78 | a 200 answer with an undecodable body gives exactly one report, carrying the text of the exception that homework.py:78 raises (supplied by the fetch outcome), and keeps the cursor |
| PollLoop.StepRefusedNotification | homework.py:148-152 | when the notification is refused, the cycle sends it and then the report, and the cursor has moved as in a delivered cycle |
| PollLoop.KeyErrorReport | homework.py:156 | the report of a KeyError shows its argument in quotes |
| PollLoop.StepFalsyHomeworks | homework.py:146-158 | an absent or falsy `homeworks`, the empty list included, gives a failure report and not a quiet cycle |
| PollLoop.StepHttpError | homework.py:70-73 | a non-200 answer gives one failure report, keeps the cursor, and the status code can be read back from the report |
| PollLoop.StepRepeatsNotification | homework.py:143-153 | there is no de-duplication: after a delivered notification, the same answer sends it again and reaches the same state |
| PollLoop.StartUp | homework.py:135-142 | `main` returns exactly when a value is missing, and reports each missing one; otherwise the loop starts at the current time with an empty message |

## Left out

- The HTTP request in `get_api_answer` is not modelled: the endpoint, the `Authorization` header and the `from_date` parameter. Only its outcome is an input.
- JSON decoding is not modelled; its result is an input. The decoded form has no floating-point numbers.
- For an undecodable body, `homework.py` runs `raise requests.JSONDecodeError` without arguments. What that raises depends on the HTTP library version, so the raised exception is part of the input.
- The Telegram client, the chat id and the `Bot` constructor are not modelled. A send is modelled as an input outcome. The two `except` branches of `send_message` behave the same and are modelled as one.
- Logging is not modelled: the text and level of each `logger` call, and the `else` clause that logs the last message. `CheckTokens` returns the missing values it would log.
- `load_dotenv`, `os.getenv`, `time.time` and `time.sleep` are not modelled. The environment and the start time are parameters.
- The infinite `while True` loop is not modelled. The model has one cycle, and its lemmas relate successive cycles.
- `PyText.Render` escapes only backslashes, the chosen quote, `\n`, `\r` and `\t` when it reprs a string. Python also escapes other non-printable characters. This matters only for a name that is a list or dict holding such a string.
- A dict that repeats a key is rendered with each entry, while Python would show one entry. A decoded dict never repeats a key.
