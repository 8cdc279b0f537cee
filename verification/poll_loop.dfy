/**
 One iteration of the bot's polling loop and the start of `main`. The HTTP
 request and the Telegram call are not modelled; what they produced in a
 cycle is an input of the step: a `FetchOutcome` for the request and a
 `SendOutcome` for each message handed to the bot.
 */
module PollLoop {
  import opened PyValue
  import opened PyText
  import opened Homework

  /** What the request of one cycle produced. */
  datatype FetchOutcome =
      /** `requests.get` raised a RequestException (connection refused, DNS, timeout). */
    | Unreachable
    | Answered(statusCode: int, body: Body)

  /** The body of an answer: decoded JSON, or a body `response.json()` could not decode.
      For the latter, the exception `homework.py` then raises (`raise requests.JSONDecodeError`
      without arguments) depends on the HTTP library, so it is part of the outcome. */
  datatype Body = Decoded(json: Value) | Undecodable(raised: Exception)

  /** get_api_answer: a decoded answer, an exception for the loop's handler, or
      SystemExit, which the handler does not catch. */
  datatype ApiAnswer = ServiceDown | Raised(error: Exception) | Json(response: Value)

  const HttpOk := 200
  const HttpHint := "При запросе к эндпоинту вернулся код ответа"
  const SendHint := "Сервис недоступен, ошибка"
  const FailurePrefix := "Сбой в работе программы: "

  /** The text of the exception raised for a non-200 answer. */
  function HttpErrorText(statusCode: int): string {
    HttpHint + " : " + IntToString(statusCode)
  }

  function GetApiAnswer(fetch: FetchOutcome): (a: ApiAnswer)
    ensures a.ServiceDown? <==> fetch.Unreachable?
    ensures a.Json? <==> fetch.Answered? && fetch.statusCode == HttpOk && fetch.body.Decoded?
    ensures a.Json? ==> a.response == fetch.body.json
    ensures fetch.Answered? && fetch.statusCode != HttpOk ==>
      a == Raised(ConnectionError(HttpErrorText(fetch.statusCode)))
    ensures fetch.Answered? && fetch.statusCode == HttpOk && fetch.body.Undecodable? ==>
      a == Raised(fetch.body.raised)
  {
    match fetch
    case Unreachable => ServiceDown
    case Answered(code, body) =>
      if code != HttpOk then Raised(ConnectionError(HttpErrorText(code)))
      else
        match body
        case Undecodable(e) => Raised(e)
        case Decoded(json) => Json(json)
  }

  /** The status code of a failed request can be read back from the error text. */
  lemma HttpErrorTextCarriesCode(statusCode: int)
    ensures var t := HttpErrorText(statusCode);
      |t| > |HttpHint| + 3 && t[..|HttpHint| + 3] == HttpHint + " : "
      && ParseInt(t[|HttpHint| + 3..]) == statusCode
  {
    var digits := IntToString(statusCode);
    var t := HttpErrorText(statusCode);
    assert t == (HttpHint + " : ") + digits;
    assert t[|HttpHint| + 3..] == digits;
    IntToStringRoundTrip(statusCode);
  }

  /** What the Telegram call did with one message. */
  datatype SendOutcome =
    | Delivered
      /** The call raised; `reason` is the text of what it raised. */
    | Refused(reason: string)

  /** send_message: a refused message surfaces as a ConnectionError. */
  function SendMessage(outcome: SendOutcome): (e: Option<Exception>)
    ensures e.None? <==> outcome.Delivered?
    ensures e.Some? ==> e.value.ConnectionError?
    ensures e.Some? ==> ExceptionText(e.value) == SendHint + " : " + outcome.reason
  {
    match outcome
    case Delivered => None
    case Refused(reason) => Some(ConnectionError(SendHint + " : " + reason))
  }

  /** The variables the loop carries: the `from_date` cursor, which takes
      whatever value the answer's "current_date" holds, and the last message. */
  datatype PollState = PollState(cursor: Value, message: string)

  datatype Halt =
      /** SystemExit from get_api_answer ends the process. */
    | ServiceUnavailable
      /** The failure report could not be sent; the exception leaves `main`. */
    | ReportUndelivered(error: Exception)

  /** The end of one cycle: the state the next cycle starts from, the messages
      handed to the bot in order, and whether the exception handler ran; or the
      end of the process. */
  datatype Cycle =
    | Completed(state: PollState, sent: seq<string>, failed: bool)
    | Halted(state: PollState, sent: seq<string>, cause: Halt)

  /** The text the handler reports for an exception. */
  function FailureReport(e: Exception): (m: string)
    ensures IsFailureReport(m) && m[|FailurePrefix|..] == ExceptionText(e)
  {
    FailurePrefix + ExceptionText(e)
  }

  predicate IsFailureReport(m: string) {
    |m| >= |FailurePrefix| && m[..|FailurePrefix|] == FailurePrefix
  }

  /** The `except Exception` branch: report the error, keep the cursor. */
  function Recover(state: PollState, sent: seq<string>, e: Exception, report: SendOutcome): (c: Cycle)
    ensures c.state == PollState(state.cursor, FailureReport(e))
    ensures c.sent == sent + [FailureReport(e)]
    ensures c.Completed? <==> report.Delivered?
    ensures c.Completed? ==> c.failed
  {
    var message := FailureReport(e);
    var next := PollState(state.cursor, message);
    match SendMessage(report)
    case None => Completed(next, sent + [message], true)
    case Some(e2) => Halted(next, sent + [message], ReportUndelivered(e2))
  }

  /** The cursor after a successful answer: `response.get('current_date', cursor)`. */
  function NextCursor(response: Value, cursor: Value): Value
    requires response.Dict?
  {
    Get(response.entries, "current_date", cursor)
  }

  /** How the `try` block of a cycle gets as far as the send: SystemExit, an
      exception, or the answer and the notification composed from it. */
  datatype Attempt = Exit | Failure(error: Exception) | Notify(response: Value, message: string)

  function Compose(fetch: FetchOutcome): (a: Attempt)
    ensures a.Exit? <==> fetch.Unreachable?
    ensures a.Notify? ==> a.response.Dict?
    ensures a.Notify? <==>
      && GetApiAnswer(fetch).Json?
      && CheckResponse(GetApiAnswer(fetch).response).Ok?
      && Reportable(CheckResponse(GetApiAnswer(fetch).response).value[0])
    ensures GetApiAnswer(fetch).Raised? ==> a == Failure(GetApiAnswer(fetch).error)
    ensures GetApiAnswer(fetch).Json? && CheckResponse(GetApiAnswer(fetch).response).Err? ==>
      a == Failure(CheckResponse(GetApiAnswer(fetch).response).error)
    ensures (GetApiAnswer(fetch).Json? && CheckResponse(GetApiAnswer(fetch).response).Ok?
      && ParseStatus(CheckResponse(GetApiAnswer(fetch).response).value[0]).Err?) ==>
      a == Failure(ParseStatus(CheckResponse(GetApiAnswer(fetch).response).value[0]).error)
    ensures a.Notify? ==>
      && a.response == GetApiAnswer(fetch).response
      && a.message == ParseStatus(CheckResponse(a.response).value[0]).value
  {
    match GetApiAnswer(fetch)
    case ServiceDown => Exit
    case Raised(e) => Failure(e)
    case Json(response) =>
      match CheckResponse(response)
      case Err(e) => Failure(e)
      case Ok(homeworks) =>
        // CheckResponse never returns an empty list, so the
        // `homeworks is not None` guard always holds and `homeworks[0]` exists.
        match ParseStatus(homeworks[0])
        case Err(e) => Failure(e)
        case Ok(message) => Notify(response, message)
  }

  /** One pass through the body of `while True` in `main`. `first` is what the
      bot did with the notification, `report` what it did with a failure report. */
  function Step(state: PollState, fetch: FetchOutcome, first: SendOutcome, report: SendOutcome): (c: Cycle)
    ensures fetch.Unreachable? ==> c == Halted(state, [], ServiceUnavailable)
    ensures !fetch.Unreachable? ==> 1 <= |c.sent| <= 2
    ensures (c.Completed? && !c.failed) <==> Compose(fetch).Notify? && first.Delivered?
    ensures c.Completed? && !c.failed ==>
      c.sent == [Compose(fetch).message] && c.state.message == c.sent[0]
    ensures c.Completed? && c.failed ==>
      (c.sent[|c.sent| - 1] == c.state.message && IsFailureReport(c.state.message))
    ensures !Compose(fetch).Notify? ==> c.state.cursor == state.cursor
    ensures c.Halted? <==>
      fetch.Unreachable? || (report.Refused? && !(Compose(fetch).Notify? && first.Delivered?))
  {
    match Compose(fetch)
    case Exit => Halted(state, [], ServiceUnavailable)
    case Failure(e) => Recover(state, [], e, report)
    case Notify(response, message) =>
      var advanced := PollState(NextCursor(response, state.cursor), message);
      match SendMessage(first)
      case Some(e) => Recover(advanced, [message], e, report)
      case None => Completed(advanced, [message], false)
  }

  /** A cycle whose answer names a known status sends exactly that notification,
      and the cursor takes the answer's "current_date" when it has one. */
  lemma StepSuccess(state: PollState, response: Value, homeworks: seq<Value>, report: SendOutcome)
    requires CarriesHomeworks(response, homeworks)
    requires Reportable(homeworks[0])
    ensures var c := Step(state, Answered(HttpOk, Decoded(response)), Delivered, report);
      && c.Completed? && !c.failed
      && c.sent == [Notification(Display(NameOf(homeworks[0])), HomeworkStatuses[StatusOf(homeworks[0]).s])]
      && ((forall i :: 0 <= i < |response.entries| ==> response.entries[i].0 != "current_date") ==>
            c.state.cursor == state.cursor)
      && ((exists i :: 0 <= i < |response.entries| && response.entries[i].0 == "current_date") ==>
            exists i :: 0 <= i < |response.entries| && response.entries[i] == ("current_date", c.state.cursor)
              && forall j :: i < j < |response.entries| ==> response.entries[j].0 != "current_date")
  {
    CheckResponseAccepts(response, homeworks);
  }

  /** Only the first homework of the list matters: answers that differ after it
      lead to the same cycle, whatever entries come before or after the
      "homeworks" entry (as long as none of the later ones rebinds it). */
  lemma StepReadsFirstHomework(state: PollState, pre: seq<(string, Value)>, post: seq<(string, Value)>,
                               h: Value, rest1: seq<Value>, rest2: seq<Value>,
                               first: SendOutcome, report: SendOutcome)
    requires forall i :: 0 <= i < |post| ==> post[i].0 != "homeworks"
    ensures Step(state, Answered(HttpOk, Decoded(Dict(pre + [("homeworks", List([h] + rest1))] + post))), first, report)
         == Step(state, Answered(HttpOk, Decoded(Dict(pre + [("homeworks", List([h] + rest2))] + post))), first, report)
  {
    var r1 := Dict(pre + [("homeworks", List([h] + rest1))] + post);
    var r2 := Dict(pre + [("homeworks", List([h] + rest2))] + post);
    assert r1.entries[|pre|] == ("homeworks", List([h] + rest1));
    assert r2.entries[|pre|] == ("homeworks", List([h] + rest2));
    assert forall j :: |pre| < j < |r1.entries| ==> r1.entries[j] == post[j - |pre| - 1];
    assert forall j :: |pre| < j < |r2.entries| ==> r2.entries[j] == post[j - |pre| - 1];
    CheckResponseAccepts(r1, [h] + rest1);
    CheckResponseAccepts(r2, [h] + rest2);
    LookupOther(pre, "homeworks", List([h] + rest1), List([h] + rest2), post, "current_date");
  }

  /** A failure before the notification is composed (request, answer check or
      record check) is reported as the only message, and the cursor stays. */
  lemma StepEarlyFailure(state: PollState, fetch: FetchOutcome, e: Exception,
                         first: SendOutcome, report: SendOutcome)
    requires Compose(fetch) == Failure(e)
    ensures var c := Step(state, fetch, first, report);
      && c.state == PollState(state.cursor, FailurePrefix + ExceptionText(e))
      && c.sent == [FailurePrefix + ExceptionText(e)]
      && (c.Completed? <==> report.Delivered?)
      && (c.Completed? ==> c.failed)
  {
  }

  /** An answer `check_response` rejects is reported with that rejection's
      text, and the cursor stays. */
  lemma StepRejectedAnswer(state: PollState, response: Value, first: SendOutcome)
    requires CheckResponse(response).Err?
    ensures var c := Step(state, Answered(HttpOk, Decoded(response)), first, Delivered);
      && c.Completed? && c.failed
      && c.state.cursor == state.cursor
      && c.sent == [FailureReport(CheckResponse(response).error)]
  {
  }

  /** A first homework `parse_status` rejects is reported with that rejection's
      text, and the cursor stays. */
  lemma StepRejectedRecord(state: PollState, response: Value, homeworks: seq<Value>, first: SendOutcome)
    requires CarriesHomeworks(response, homeworks)
    requires ParseStatus(homeworks[0]).Err?
    ensures var c := Step(state, Answered(HttpOk, Decoded(response)), first, Delivered);
      && c.Completed? && c.failed
      && c.state.cursor == state.cursor
      && c.sent == [FailureReport(ParseStatus(homeworks[0]).error)]
  {
    CheckResponseAccepts(response, homeworks);
  }

  /** A 200 answer whose body cannot be decoded is reported with the text of
      the exception `homework.py` raises in its place, which the outcome
      supplies, and the cursor stays. */
  lemma StepUndecodableBody(state: PollState, raised: Exception, first: SendOutcome)
    ensures var c := Step(state, Answered(HttpOk, Undecodable(raised)), first, Delivered);
      && c.Completed? && c.failed
      && c.state.cursor == state.cursor
      && c.sent == [FailureReport(raised)]
  {
  }

  /** A notification the bot refuses is reported after the cursor has already
      moved: the assignment precedes the send. */
  lemma StepRefusedNotification(state: PollState, response: Value, homeworks: seq<Value>, reason: string)
    requires CarriesHomeworks(response, homeworks)
    requires Reportable(homeworks[0])
    ensures var c := Step(state, Answered(HttpOk, Decoded(response)), Refused(reason), Delivered);
      var m := Notification(Display(NameOf(homeworks[0])), HomeworkStatuses[StatusOf(homeworks[0]).s]);
      && c.Completed? && c.failed
      && c.sent == [m, FailurePrefix + SendHint + " : " + reason]
      && c.state.cursor == Step(state, Answered(HttpOk, Decoded(response)), Delivered, Delivered).state.cursor
  {
    CheckResponseAccepts(response, homeworks);
    assert Compose(Answered(HttpOk, Decoded(response))) == Notify(response, ParseStatus(homeworks[0]).value);
    assert ExceptionText(ConnectionError(SendHint + " : " + reason)) == SendHint + " : " + reason;
    assert FailurePrefix + (SendHint + " : " + reason) == FailurePrefix + SendHint + " : " + reason;
  }

  /** A dict whose "homeworks" is missing or falsy, the empty list among them,
      does not give a quiet cycle: it is reported as a missing key, quoted as
      `str(KeyError(...))` quotes it. */
  lemma StepFalsyHomeworks(state: PollState, response: Value, first: SendOutcome)
    requires response.Dict? && !Truthy(HomeworksOf(response))
    ensures var c := Step(state, Answered(HttpOk, Decoded(response)), first, Delivered);
      && c.Completed? && c.failed
      && c.state.cursor == state.cursor
      && c.sent == [FailurePrefix + "'" + MissingHomeworks + "'"]
  {
    var fetch := Answered(HttpOk, Decoded(response));
    assert Compose(fetch) == Failure(KeyError(MissingHomeworks));
    assert Step(state, fetch, first, Delivered) == Recover(state, [], KeyError(MissingHomeworks), Delivered);
    MissingHomeworksPlain();
    KeyErrorReport(MissingHomeworks);
  }

  /** The report of a KeyError quotes its argument. */
  lemma KeyErrorReport(m: string)
    requires Plain(m)
    ensures FailureReport(KeyError(m)) == FailurePrefix + "'" + m + "'"
  {
    KeyErrorText(m);
  }

  lemma MissingHomeworksPlain()
    ensures Plain(MissingHomeworks)
  {
  }

  /** A non-200 answer is reported with its status code, which the report keeps readable. */
  lemma StepHttpError(state: PollState, statusCode: int, body: Body, first: SendOutcome)
    requires statusCode != HttpOk
    ensures var c := Step(state, Answered(statusCode, body), first, Delivered);
      && c == Completed(PollState(state.cursor, FailurePrefix + HttpErrorText(statusCode)),
                        [FailurePrefix + HttpErrorText(statusCode)], true)
      && ParseInt(c.sent[0][|FailurePrefix| + |HttpHint| + 3..]) == statusCode
  {
    var c := Step(state, Answered(statusCode, body), first, Delivered);
    HttpErrorTextCarriesCode(statusCode);
    assert c.sent[0][|FailurePrefix|..] == HttpErrorText(statusCode);
    assert c.sent[0][|FailurePrefix| + |HttpHint| + 3..] == HttpErrorText(statusCode)[|HttpHint| + 3..];
  }

  /** Messages are not de-duplicated: after a delivered notification, the same
      answer in the next cycle sends the same notification again and leaves the
      state as it was. */
  lemma StepRepeatsNotification(state: PollState, fetch: FetchOutcome, report: SendOutcome)
    requires Step(state, fetch, Delivered, report).Completed?
    requires !Step(state, fetch, Delivered, report).failed
    ensures var c := Step(state, fetch, Delivered, report);
      Step(c.state, fetch, Delivered, report) == c && c.sent == [c.state.message]
  {
  }

  /** How `main` starts: it returns when a configuration value is missing,
      after reporting each missing one; otherwise the loop starts from the
      current time with an empty message. */
  datatype Start = Stopped(missing: seq<Token>) | Running(state: PollState)

  method StartUp(env: Environment, now: int) returns (start: Start)
    ensures start.Running? <==> forall t :: IsSet(env.Setting(t))
    ensures start.Running? ==> start.state == PollState(Int(now), "")
    ensures start.Stopped? ==>
      (|start.missing| > 0 && forall t :: t in start.missing <==> !IsSet(env.Setting(t)))
  {
    var ok, missing := CheckTokens(env);
    if !ok {
      start := Stopped(missing);
      return;
    }
    start := Running(PollState(Int(now), ""));
  }
}
