/** The checks of homework.py that decide, without side effects, whether the bot may run,
    whether an API answer is usable and which chat message a homework record renders to. */
module Homework {
  import opened Wrappers
  import opened Errors
  import opened PyJson

  /** The verdict phrase for each status the review API reports (HOMEWORK_VERDICTS). */
  const HomeworkVerdicts: map<string, string> := map[
    "approved" := "Работа проверена: ревьюеру всё понравилось. Ура!",
    "reviewing" := "Работа взята на проверку ревьюером.",
    "rejected" := "Работа проверена: у ревьюера есть замечания."
  ]

  /** The text every status message starts with, up to the opening quote of the name. */
  const StatusPrefix := "Изменился статус проверки работы \""

  // ---------------------------------------------------------------- check_tokens

  /** Python truthiness of an environment variable: set and not the empty str. */
  predicate Truthy(v: Option<string>)
  {
    v.Some? && v.value != ""
  }

  /** The name of the first variable whose value is falsy, or None when all are truthy. */
  function FirstFalsy(vars: seq<(string, Option<string>)>): (r: Option<string>)
    ensures r.None? <==> forall i :: 0 <= i < |vars| ==> Truthy(vars[i].1)
    ensures r.Some? ==> exists i :: 0 <= i < |vars| && vars[i].0 == r.value && !Truthy(vars[i].1) &&
                                    forall j :: 0 <= j < i ==> Truthy(vars[j].1)
  {
    if vars == [] then None
    else if !Truthy(vars[0].1) then Some(vars[0].0)
    else
      var r := FirstFalsy(vars[1..]);
      if r.Some? then
        var i :| 0 <= i < |vars[1..]| && vars[1..][i].0 == r.value && !Truthy(vars[1..][i].1) &&
                 forall j :: 0 <= j < i ==> Truthy(vars[1..][j].1);
        assert vars[i + 1].0 == r.value && !Truthy(vars[i + 1].1);
        r
      else
        r
  }

  /** check_tokens: None when the bot may start, otherwise the name of the variable it exits on.
      The three variables are checked in a fixed order and the first falsy one is reported. */
  function CheckTokens(practicumToken: Option<string>, telegramToken: Option<string>,
                       telegramChatId: Option<string>): (r: Option<string>)
    ensures r.None? <==> Truthy(practicumToken) && Truthy(telegramToken) && Truthy(telegramChatId)
    ensures !Truthy(practicumToken) ==> r == Some("PRACTICUM_TOKEN")
    ensures Truthy(practicumToken) && !Truthy(telegramToken) ==> r == Some("TELEGRAM_TOKEN")
    ensures Truthy(practicumToken) && Truthy(telegramToken) && !Truthy(telegramChatId) ==>
              r == Some("TELEGRAM_CHAT_ID")
  {
    var vars := [("PRACTICUM_TOKEN", practicumToken),
                 ("TELEGRAM_TOKEN", telegramToken),
                 ("TELEGRAM_CHAT_ID", telegramChatId)];
    var r := FirstFalsy(vars);
    assert r.None? ==> Truthy(vars[0].1) && Truthy(vars[1].1) && Truthy(vars[2].1);
    assert Truthy(practicumToken) ==> r == FirstFalsy(vars[1..]);
    assert Truthy(telegramToken) ==> FirstFalsy(vars[1..]) == FirstFalsy(vars[2..]);
    r
  }

  // ---------------------------------------------------------------- get_api_answer

  /** What the HTTP request produced: a response with its status code and its body decoded
      as JSON (None when the body is not JSON), or a transport failure. */
  datatype Transport = Response(statusCode: int, body: Option<Json>) | ConnectionError

  /** HTTPStatus.OK */
  const HttpOk := 200

  /** get_api_answer: the decoded body of a 200 answer, unchanged; NoAPIAnswer for any other
      status code; the generic "url unreachable" exception for every other failure. */
  function GetApiAnswer(t: Transport): (r: Result<Json, Error>)
    ensures r.Ok? <==> t.Response? && t.statusCode == HttpOk && t.body.Some?
    ensures r.Ok? ==> r.value == t.body.value
    ensures t.Response? && t.statusCode != HttpOk ==> r == Err(BadAnswer) && Kind(r.error) == NoAPIAnswer
    ensures (t.ConnectionError? || t.body.None?) && !(t.Response? && t.statusCode != HttpOk) ==>
              r == Err(UrlUnreachable) && Kind(r.error) == Exception
  {
    match t
    case ConnectionError => Err(UrlUnreachable)
    case Response(code, body) =>
      if code != HttpOk then Err(BadAnswer)
      else if body.None? then Err(UrlUnreachable)
      else Ok(body.value)
  }

  // ---------------------------------------------------------------- check_response

  /** The answer is a dict whose "homeworks" entry is a list. */
  predicate HasHomeworkList(response: Json)
  {
    response.JObject? && "homeworks" in response.fields && response.fields["homeworks"].JList?
  }

  /** check_response: passes exactly when the answer is a dict holding a list (of any elements,
      possibly none) under "homeworks"; every failure is a TypeError, a missing key included. */
  function CheckResponse(response: Json): (r: Outcome<Error>)
    ensures r.Pass? <==> HasHomeworkList(response)
    ensures !response.JObject? ==> r == Fail(ResponseNotDict)
    ensures response.JObject? && !HasHomeworkList(response) ==> r == Fail(HomeworksNotList)
    ensures r.Fail? ==> Kind(r.error) == TypeError
  {
    if !response.JObject? then Fail(ResponseNotDict)
    else if !DictGet(response.fields, "homeworks").JList? then Fail(HomeworksNotList)
    else Pass
  }

  // ---------------------------------------------------------------- parse_status

  /** The keys parse_status looks for, in the order it looks for them. */
  const RequiredKeys: seq<string> := ["homework_name", "status"]

  /** The first of `keys` that `key in homework` says is absent, or None when all are present;
      an error when `in` itself raises. */
  function FirstMissingKey(homework: Json, keys: seq<string>): (r: Result<Option<string>, Error>)
    ensures r.Err? <==> keys != [] && (homework.JNull? || homework.JBool? || homework.JInt?)
    ensures r.Err? ==> r.error == NotIterable(TypeName(homework))
    ensures homework.JObject? && r.Ok? ==>
              (r.value.None? <==> forall i :: 0 <= i < |keys| ==> keys[i] in homework.fields)
    ensures homework.JObject? && r.Ok? && r.value.Some? ==>
              exists i :: 0 <= i < |keys| && keys[i] == r.value.value && keys[i] !in homework.fields &&
                          forall j :: 0 <= j < i ==> keys[j] in homework.fields
  {
    if keys == [] then Ok(None)
    else
      match Contains(homework, keys[0])
      case Err(e) => Err(e)
      case Ok(found) =>
        if !found then Ok(Some(keys[0]))
        else
          var r := FirstMissingKey(homework, keys[1..]);
          if homework.JObject? && r.Ok? && r.value.Some? then
            var i :| 0 <= i < |keys[1..]| && keys[1..][i] == r.value.value && keys[1..][i] !in homework.fields &&
                     forall j :: 0 <= j < i ==> keys[1..][j] in homework.fields;
            assert keys[i + 1] == r.value.value && keys[i + 1] !in homework.fields;
            r
          else
            r
  }

  /** `status in HOMEWORK_VERDICTS`: a str is looked up, a list or dict cannot be hashed,
      and any other value is never a key of the table. */
  function IsVerdict(status: Json): (r: Result<bool, Error>)
    ensures r == Ok(true) <==> status.JStr? && status.s in HomeworkVerdicts
    ensures r.Err? <==> status.JList? || status.JObject?
    ensures r.Err? ==> Kind(r.error) == TypeError
  {
    match status
    case JStr(s) => Ok(s in HomeworkVerdicts)
    case JList(_) => Err(Unhashable("list"))
    case JObject(_) => Err(Unhashable("dict"))
    case _ => Ok(false)
  }

  /** The record is a dict with a name and one of the three known statuses. */
  predicate IsHomework(homework: Json)
  {
    homework.JObject? && "homework_name" in homework.fields && "status" in homework.fields &&
    homework.fields["status"].JStr? && homework.fields["status"].s in HomeworkVerdicts
  }

  /** parse_status: the chat message announcing a homework's new status. */
  function ParseStatus(homework: Json): (r: Result<string, Error>)
    // succeeds exactly on a dict with a name and a known status, and renders
    // the quoted name followed directly by the verdict phrase
    ensures r.Ok? <==> IsHomework(homework)
    ensures r.Ok? ==> r.value == StatusPrefix + PyStr(homework.fields["homework_name"]) + "\"." +
                                 HomeworkVerdicts[homework.fields["status"].s]
    // the missing key is reported, homework_name before status
    ensures homework.JObject? && "homework_name" !in homework.fields ==>
              r == Err(MissingKey("homework_name"))
    ensures homework.JObject? && "homework_name" in homework.fields && "status" !in homework.fields ==>
              r == Err(MissingKey("status"))
    // an unknown status is a KeyError, not a value error
    ensures homework.JObject? && "homework_name" in homework.fields && "status" in homework.fields &&
            !homework.fields["status"].JList? && !homework.fields["status"].JObject? && !IsHomework(homework) ==>
              r == Err(UnexpectedStatus) && Kind(r.error) == KeyError
    // a record that is not a dict never renders a message
    ensures !homework.JObject? ==> r.Err?
  {
    match FirstMissingKey(homework, RequiredKeys)
    case Err(e) => Err(e)
    case Ok(Some(key)) => Err(MissingKey(key))
    case Ok(None) =>
      if homework.JStr? then Err(NonIntegerIndex("string"))
      else if !homework.JObject? then Err(NonIntegerIndex("list"))
      else
        assert RequiredKeys[1] in homework.fields;
        var verdict := homework.fields["status"];
        match IsVerdict(verdict)
        case Err(e) => Err(e)
        case Ok(known) =>
          if !known then Err(UnexpectedStatus)
          else
            var homeworkName := homework.fields["homework_name"];
            Ok(StatusPrefix + PyStr(homeworkName) + "\"." + HomeworkVerdicts[verdict.s])
  }

  /** Keys other than homework_name and status do not affect parse_status. */
  lemma ParseStatusIgnoresOtherKeys(a: map<string, Json>, b: map<string, Json>)
    requires forall k :: k in RequiredKeys ==> (k in a <==> k in b) && (k in a ==> a[k] == b[k])
    ensures ParseStatus(JObject(a)) == ParseStatus(JObject(b))
  {
    assert RequiredKeys[0] == "homework_name" && RequiredKeys[1] == "status";
  }

  /** The record {homework_name: "hw1", status: "approved"} renders with the closing quote and
      period followed directly by the approved phrase. */
  lemma ParseStatusApproved()
    ensures ParseStatus(JObject(map["homework_name" := JStr("hw1"), "status" := JStr("approved")])) ==
            Ok("Изменился статус проверки работы \"" + "hw1" + "\"." + "Работа проверена: ревьюеру всё понравилось. Ура!")
  {
    var hw := JObject(map["homework_name" := JStr("hw1"), "status" := JStr("approved")]);
    assert IsHomework(hw);
  }
}
