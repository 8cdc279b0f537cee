/**
 The validation and formatting functions of the homework bot: the status
 vocabulary, the check of an API answer, the notification text for one
 homework, and the check of the three configuration values.
 */
module Homework {
  import opened PyValue
  import opened PyText

  /** The three review codes the API reports and the verdict sent for each. */
  const Approved := "Работа проверена: ревьюеру всё понравилось. Ура!"
  const Reviewing := "Работа взята на проверку ревьюером."
  const Rejected := "Работа проверена: у ревьюера есть замечания."

  const HomeworkStatuses: map<string, string> :=
    map["approved" := Approved, "reviewing" := Reviewing, "rejected" := Rejected]

  /** Arguments of the exceptions raised by the checks below. */
  const NotADict := "Ответ не в формате dict"
  const MissingHomeworks := "Отсутствует ключ \"homeworks\""
  const NotAList := "Список работ не в формате list"
  const MissingName := "Отсутствует ключ \"homework_name\""
  const MissingStatus := "Отсутствует ключ \"status\""
  const UnknownStatus := "Неизвестный статус проверки работы"

  /** The text a known status produces: `Изменился статус проверки работы "<name>". <verdict>`. */
  const NotificationHead := "Изменился статус проверки работы \""
  const NotificationMiddle := "\". "

  function Notification(name: string, verdict: string): string {
    NotificationHead + name + NotificationMiddle + verdict
  }

  /** Reference: the answer is a dict whose binding of "homeworks" is the
      non-empty list `homeworks`. */
  ghost predicate CarriesHomeworks(response: Value, homeworks: seq<Value>) {
    && response.Dict?
    && |homeworks| > 0
    && exists i :: 0 <= i < |response.entries|
         && response.entries[i] == ("homeworks", List(homeworks))
         && forall j :: i < j < |response.entries| ==> response.entries[j].0 != "homeworks"
  }

  /** The binding `response.get('homeworks')` reads on a dict. */
  function HomeworksOf(response: Value): Value
    requires response.Dict?
  {
    Get(response.entries, "homeworks", Null)
  }

  /** check_response: the answer must be a dict whose "homeworks" is a truthy list. */
  function CheckResponse(response: Value): (r: Result<seq<Value>>)
    ensures !response.Dict? ==> r == Err(TypeError(NotADict))
    ensures response.Dict? && !Truthy(HomeworksOf(response)) ==> r == Err(KeyError(MissingHomeworks))
    ensures response.Dict? && Truthy(HomeworksOf(response)) && !HomeworksOf(response).List? ==>
      r == Err(KeyError(NotAList))
    ensures response.Dict? && r.Err? ==> r.error in {KeyError(MissingHomeworks), KeyError(NotAList)}
    ensures r.Ok? ==> CarriesHomeworks(response, r.value)
  {
    if !response.Dict? then Err(TypeError(NotADict))
    else
      var homeworks := HomeworksOf(response);
      if !Truthy(homeworks) then Err(KeyError(MissingHomeworks))
      else if !homeworks.List? then Err(KeyError(NotAList))
      else Ok(homeworks.items)
  }

  /** A dict whose "homeworks" is a non-empty list is accepted, and exactly
      that list is returned. */
  lemma CheckResponseAccepts(response: Value, homeworks: seq<Value>)
    requires CarriesHomeworks(response, homeworks)
    ensures CheckResponse(response) == Ok(homeworks)
  {
  }

  /** A falsy "homeworks", the empty list among them, is reported as missing. */
  lemma CheckResponseFalsyHomeworks(entries: seq<(string, Value)>, falsy: Value)
    requires !Truthy(falsy)
    ensures CheckResponse(Dict(entries + [("homeworks", falsy)])) == Err(KeyError(MissingHomeworks))
  {
  }

  /** A dict without "homeworks" is reported as missing it. */
  lemma CheckResponseAbsentHomeworks(entries: seq<(string, Value)>)
    requires forall i :: 0 <= i < |entries| ==> entries[i].0 != "homeworks"
    ensures CheckResponse(Dict(entries)) == Err(KeyError(MissingHomeworks))
  {
  }

  /** The name and status a homework record carries, as `homework.get` reads them. */
  function NameOf(homework: Value): Value
    requires homework.Dict?
  {
    Get(homework.entries, "homework_name", Null)
  }

  function StatusOf(homework: Value): Value
    requires homework.Dict?
  {
    Get(homework.entries, "status", Null)
  }

  /** The record names a work and carries one of the three known codes. */
  predicate Reportable(homework: Value) {
    && homework.Dict?
    && NameOf(homework) != Null
    && StatusOf(homework).Str?
    && StatusOf(homework).s in HomeworkStatuses
  }

  /** parse_status: checks the name, then the status, then the vocabulary, and
      composes the notification. A record that is not a dict has no `get`. */
  function ParseStatus(homework: Value): (r: Result<string>)
    ensures !homework.Dict? ==>
      r == Err(AttributeError("'" + TypeName(homework) + "' object has no attribute 'get'"))
    ensures homework.Dict? && NameOf(homework) == Null ==> r == Err(KeyError(MissingName))
    ensures homework.Dict? && NameOf(homework) != Null && !Truthy(StatusOf(homework)) ==>
      r == Err(KeyError(MissingStatus))
    ensures (homework.Dict? && NameOf(homework) != Null && Truthy(StatusOf(homework))
      && !Hashable(StatusOf(homework))) ==>
      r == Err(TypeError("unhashable type: '" + TypeName(StatusOf(homework)) + "'"))
    ensures r.Ok? <==> Reportable(homework)
    ensures r.Ok? ==>
      r.value == Notification(Display(NameOf(homework)), HomeworkStatuses[StatusOf(homework).s])
  {
    if !homework.Dict? then
      Err(AttributeError("'" + TypeName(homework) + "' object has no attribute 'get'"))
    else
      var name := NameOf(homework);
      if name == Null then Err(KeyError(MissingName))
      else
        var status := StatusOf(homework);
        if !Truthy(status) then Err(KeyError(MissingStatus))
        else if !Hashable(status) then
          Err(TypeError("unhashable type: '" + TypeName(status) + "'"))
        else if !(status.Str? && status.s in HomeworkStatuses) then Err(KeyError(UnknownStatus))
        else Ok(Notification(Display(name), HomeworkStatuses[status.s]))
  }

  /** A truthy, hashable status outside the vocabulary is an unknown status. */
  lemma ParseStatusUnknownCode(homework: Value)
    requires homework.Dict? && NameOf(homework) != Null
    requires Truthy(StatusOf(homework)) && Hashable(StatusOf(homework))
    requires !(StatusOf(homework).Str? && StatusOf(homework).s in HomeworkStatuses)
    ensures ParseStatus(homework) == Err(KeyError(UnknownStatus))
  {
  }

  /** Only None is rejected as a name: an empty name still gives a notification. */
  lemma ParseStatusEmptyName(code: string)
    requires code in HomeworkStatuses
    ensures ParseStatus(Dict([("homework_name", Str("")), ("status", Str(code))]))
      == Ok(NotificationHead + NotificationMiddle + HomeworkStatuses[code])
  {
    var h := Dict([("homework_name", Str("")), ("status", Str(code))]);
    assert h.entries[..1] == [("homework_name", Str(""))];
    assert Lookup(h.entries, "homework_name") == Lookup(h.entries[..1], "homework_name");
    assert NameOf(h) == Str("");
    assert StatusOf(h) == Str(code);
    assert Display(Str("")) == "";
    assert NotificationHead + "" == NotificationHead;
  }

  lemma StripAround(a: string, b: string, c: string, d: string)
    requires a + b + c == a + d + c
    ensures b == d
  {
    var whole := a + b + c;
    assert |b| == |d|;
    assert b == whole[|a|..|a| + |b|];
    assert d == (a + d + c)[|a|..|a| + |d|];
  }

  /** The last two characters of a verdict tell the three codes apart. */
  function Ending(code: string): string {
    if code == "approved" then "а!" else if code == "reviewing" then "м." else "я."
  }

  lemma VerdictEnding(code: string)
    requires code in HomeworkStatuses
    ensures var v := HomeworkStatuses[code];
      |v| >= 2 && v[|v| - 2..] == Ending(code)
  {
  }

  lemma EndingOfJoin(x: string, v: string)
    requires |v| >= 2
    ensures (x + v)[|x + v| - 2..] == v[|v| - 2..]
  {
  }

  /** A text ending in a verdict determines the code of that verdict. */
  lemma SameCode(x1: string, c1: string, x2: string, c2: string)
    requires c1 in HomeworkStatuses && c2 in HomeworkStatuses
    requires x1 + HomeworkStatuses[c1] == x2 + HomeworkStatuses[c2]
    ensures c1 == c2
  {
    VerdictEnding(c1);
    VerdictEnding(c2);
    EndingOfJoin(x1, HomeworkStatuses[c1]);
    EndingOfJoin(x2, HomeworkStatuses[c2]);
    assert Ending(c1) == Ending(c2);
  }

  /** Two notifications agree only when their names and their codes agree. */
  lemma NotificationInjective(n1: string, c1: string, n2: string, c2: string)
    requires c1 in HomeworkStatuses && c2 in HomeworkStatuses
    requires Notification(n1, HomeworkStatuses[c1]) == Notification(n2, HomeworkStatuses[c2])
    ensures n1 == n2 && c1 == c2
  {
    var v := HomeworkStatuses[c1];
    SameCode(NotificationHead + n1 + NotificationMiddle, c1, NotificationHead + n2 + NotificationMiddle, c2);
    var b1, b2 := n1 + NotificationMiddle, n2 + NotificationMiddle;
    assert NotificationHead + n1 + NotificationMiddle == NotificationHead + b1;
    assert NotificationHead + n2 + NotificationMiddle == NotificationHead + b2;
    assert NotificationHead + b1 + v == NotificationHead + b2 + v;
    StripAround(NotificationHead, b1, v, b2);
    assert n1 == b1[..|n1|];
    assert n2 == b2[..|n2|];
  }

  /** Different works or different verdicts never produce the same
      notification: the text determines the displayed name and the status. */
  lemma NotificationDetermines(h1: Value, h2: Value)
    requires ParseStatus(h1).Ok? && ParseStatus(h2).Ok?
    requires ParseStatus(h1).value == ParseStatus(h2).value
    ensures Display(NameOf(h1)) == Display(NameOf(h2))
    ensures StatusOf(h1) == StatusOf(h2)
  {
    NotificationInjective(Display(NameOf(h1)), StatusOf(h1).s, Display(NameOf(h2)), StatusOf(h2).s);
  }

  /** The three configuration values the bot needs, as `os.getenv` returns them. */
  datatype Token = PracticumToken | TelegramToken | TelegramChatId

  datatype Environment = Environment(
    practicumToken: Option<string>,
    telegramToken: Option<string>,
    telegramChatId: Option<string>)
  {
    function Setting(t: Token): Option<string> {
      match t
      case PracticumToken => practicumToken
      case TelegramToken => telegramToken
      case TelegramChatId => telegramChatId
    }
  }

  /** Python truthiness of an environment value: set and non-empty. */
  predicate IsSet(value: Option<string>) {
    value.Some? && |value.value| > 0
  }

  /** The order in which the checks run. */
  function Rank(t: Token): nat {
    match t
    case PracticumToken => 0
    case TelegramToken => 1
    case TelegramChatId => 2
  }

  /** check_tokens: every value is checked and each missing one is reported,
      in the order of the checks; the answer is whether none is missing. */
  method CheckTokens(env: Environment) returns (ok: bool, reported: seq<Token>)
    ensures ok <==> forall t :: IsSet(env.Setting(t))
    ensures forall t :: t in reported <==> !IsSet(env.Setting(t))
    ensures forall i, j :: 0 <= i < j < |reported| ==> Rank(reported[i]) < Rank(reported[j])
  {
    ok := true;
    reported := [];
    if !IsSet(env.practicumToken) {
      reported := reported + [PracticumToken];
      ok := false;
    }
    if !IsSet(env.telegramToken) {
      reported := reported + [TelegramToken];
      ok := false;
    }
    if !IsSet(env.telegramChatId) {
      reported := reported + [TelegramChatId];
      ok := false;
    }
    AllSetByToken(env);
  }

  lemma AllSetByToken(env: Environment)
    ensures (forall t :: IsSet(env.Setting(t))) <==>
      IsSet(env.practicumToken) && IsSet(env.telegramToken) && IsSet(env.telegramChatId)
  {
    assert env.practicumToken == env.Setting(PracticumToken);
    assert env.telegramToken == env.Setting(TelegramToken);
    assert env.telegramChatId == env.Setting(TelegramChatId);
  }
}
