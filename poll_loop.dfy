/** The bot's main loop: start-up, then poll cycles that fetch, validate, parse and notify,
    with the failure handler that resends the last rendered status message. */
module PollLoop {
  import opened Wrappers
  import opened Errors
  import opened PyJson
  import opened Homework

  /** The best-effort notice sent once the credentials are accepted. */
  const StartMessage := "Начали парсинг!"

  /** What the bot has done so far: the fixed from_date of its requests, the last status
      message it rendered (the local `message` of main), every text sent to the chat,
      the from_date of every request issued, and whether the process has stopped. */
  datatype BotState = BotState(
    timestamp: int,
    lastMessage: Option<string>,
    sent: seq<string>,
    queries: seq<int>,
    halted: bool)

  /** Start-up: check_tokens, then the start notice. A falsy credential stops the process
      before any request or message; otherwise nothing has been rendered yet. */
  function Start(practicumToken: Option<string>, telegramToken: Option<string>,
                 telegramChatId: Option<string>, now: int): (s: BotState)
    ensures s.halted <==> !(Truthy(practicumToken) && Truthy(telegramToken) && Truthy(telegramChatId))
    ensures s.halted ==> s.sent == [] && s.queries == []
    ensures !s.halted ==> s.sent == [StartMessage] && s.queries == [] && s.lastMessage.None? && s.timestamp == now
  {
    if CheckTokens(practicumToken, telegramToken, telegramChatId).Some? then
      BotState(now, None, [], [], true)
    else
      BotState(now, None, [StartMessage], [], false)
  }

  /** The API answered 200 with a dict holding a "homeworks" list. */
  predicate ValidAnswer(t: Transport)
  {
    GetApiAnswer(t).Ok? && CheckResponse(GetApiAnswer(t).value).Pass?
  }

  /** The "homeworks" list of a valid answer. */
  function HomeworksOf(t: Transport): seq<Json>
    requires ValidAnswer(t)
  {
    GetApiAnswer(t).value.fields["homeworks"].items
  }

  /** The body of the `try` in one cycle: the status message to send, None when the list is
      empty, or the exception raised by the request, the validation or the parsing. */
  function Cycle(t: Transport): (r: Result<Option<string>, Error>)
    ensures !ValidAnswer(t) ==> r.Err?
    ensures ValidAnswer(t) && HomeworksOf(t) == [] ==> r == Ok(None)
    ensures ValidAnswer(t) && HomeworksOf(t) != [] ==>
              (r.Ok? <==> IsHomework(HomeworksOf(t)[0])) &&
              (r.Ok? ==> r.value.Some? && ParseStatus(HomeworksOf(t)[0]) == Ok(r.value.value))
  {
    match GetApiAnswer(t)
    case Err(e) => Err(e)
    case Ok(response) =>
      match CheckResponse(response)
      case Fail(e) => Err(e)
      case Pass =>
        var homeworks := response.fields["homeworks"].items;
        if homeworks == [] then Ok(None)
        else
          match ParseStatus(homeworks[0])
          case Err(e) => Err(e)
          case Ok(message) => Ok(Some(message))
  }

  /** One iteration of the `while True` loop: one request with the fixed timestamp, then the
      rendered message is sent; on any exception the previous message is sent again, and
      when there is none the handler itself fails and the process stops. */
  function Next(s: BotState, t: Transport): (r: BotState)
    requires !s.halted
    ensures r.timestamp == s.timestamp && r.queries == s.queries + [s.timestamp]
    ensures |s.sent| <= |r.sent| <= |s.sent| + 1 && r.sent[..|s.sent|] == s.sent
    ensures r.halted <==> Cycle(t).Err? && s.lastMessage.None?
    ensures Cycle(t) == Ok(None) ==> r.sent == s.sent && r.lastMessage == s.lastMessage
    ensures Cycle(t).Ok? && Cycle(t).value.Some? ==>
              r.sent == s.sent + [Cycle(t).value.value] && r.lastMessage == Cycle(t).value
    ensures Cycle(t).Err? ==>
              r.lastMessage == s.lastMessage &&
              r.sent == if s.lastMessage.Some? then s.sent + [s.lastMessage.value] else s.sent
  {
    var polled := s.(queries := s.queries + [s.timestamp]);
    match Cycle(t)
    case Ok(None) => polled
    case Ok(Some(message)) => polled.(lastMessage := Some(message), sent := s.sent + [message])
    case Err(_) =>
      if s.lastMessage.Some? then polled.(sent := s.sent + [s.lastMessage.value])
      else polled.(halted := true)
  }

  /** The state after the loop has been offered the transport outcomes `ts` in order;
      once the process has stopped, later outcomes change nothing. */
  function RunSpec(s: BotState, ts: seq<Transport>): BotState
    decreases |ts|
  {
    if ts == [] then s
    else
      var before := RunSpec(s, ts[..|ts| - 1]);
      if before.halted then before else Next(before, ts[|ts| - 1])
  }

  /** A text parse_status can render: a status message. */
  ghost predicate IsStatusMessage(m: string)
  {
    exists homework :: ParseStatus(homework) == Ok(m)
  }

  /** What holds of a running bot after start-up and any number of cycles. */
  ghost predicate Inv(s: BotState)
  {
    // the start notice comes first, every later text is a status message
    && |s.sent| >= 1 && s.sent[0] == StartMessage
    && (forall i :: 1 <= i < |s.sent| ==> IsStatusMessage(s.sent[i]))
    // `message` is unbound exactly until the first status message is sent,
    // and afterwards it is the last text the chat received
    && (s.lastMessage.None? <==> |s.sent| == 1)
    && (s.lastMessage.Some? ==> s.sent[|s.sent| - 1] == s.lastMessage.value)
    // every request carries the timestamp taken at start-up
    && (forall q :: q in s.queries ==> q == s.timestamp)
    // at most one text per cycle
    && |s.sent| <= |s.queries| + 1
    // the loop only dies while no message has been rendered
    && (s.halted ==> s.lastMessage.None?)
  }

  lemma StartEstablishesInv(practicumToken: Option<string>, telegramToken: Option<string>,
                            telegramChatId: Option<string>, now: int)
    requires !Start(practicumToken, telegramToken, telegramChatId, now).halted
    ensures Inv(Start(practicumToken, telegramToken, telegramChatId, now))
  {
  }

  lemma NextKeepsInv(s: BotState, t: Transport)
    requires Inv(s) && !s.halted
    ensures Inv(Next(s, t))
  {
    var r := Next(s, t);
    if Cycle(t).Ok? && Cycle(t).value.Some? {
      var m := Cycle(t).value.value;
      assert ParseStatus(HomeworksOf(t)[0]) == Ok(m);
      assert IsStatusMessage(m);
      assert r.sent[|r.sent| - 1] == m;
    }
    assert forall i :: 1 <= i < |s.sent| ==> r.sent[i] == s.sent[i];
  }

  lemma {:induction false} RunKeepsInv(s: BotState, ts: seq<Transport>)
    requires Inv(s)
    ensures Inv(RunSpec(s, ts))
    decreases |ts|
  {
    if ts != [] {
      RunKeepsInv(s, ts[..|ts| - 1]);
      var before := RunSpec(s, ts[..|ts| - 1]);
      if !before.halted {
        NextKeepsInv(before, ts[|ts| - 1]);
      }
    }
  }

  /** A stopped process does nothing more. */
  lemma {:induction false} RunFromHalted(s: BotState, ts: seq<Transport>)
    requires s.halted
    ensures RunSpec(s, ts) == s
    decreases |ts|
  {
    if ts != [] {
      RunFromHalted(s, ts[..|ts| - 1]);
    }
  }

  /** A falsy credential prevents every request and every chat message. */
  lemma MissingTokenPreventsRequests(practicumToken: Option<string>, telegramToken: Option<string>,
                                     telegramChatId: Option<string>, now: int, ts: seq<Transport>)
    requires !(Truthy(practicumToken) && Truthy(telegramToken) && Truthy(telegramChatId))
    ensures RunSpec(Start(practicumToken, telegramToken, telegramChatId, now), ts).queries == []
    ensures RunSpec(Start(practicumToken, telegramToken, telegramChatId, now), ts).sent == []
  {
    RunFromHalted(Start(practicumToken, telegramToken, telegramChatId, now), ts);
  }

  /** Once a status message has been rendered, no failure stops the loop: every outcome
      offered is polled, and `message` stays bound. */
  lemma {:induction false} RenderedMessageKeepsLoopAlive(s: BotState, ts: seq<Transport>)
    requires !s.halted && s.lastMessage.Some?
    ensures !RunSpec(s, ts).halted && RunSpec(s, ts).lastMessage.Some?
    ensures |RunSpec(s, ts).queries| == |s.queries| + |ts|
    decreases |ts|
  {
    if ts != [] {
      RenderedMessageKeepsLoopAlive(s, ts[..|ts| - 1]);
    }
  }

  /** The defect of the failure handler: a failure before any status message was rendered
      reads the unbound `message`, which stops the loop with nothing sent for it. */
  lemma FailureBeforeFirstMessageHalts(s: BotState, t: Transport)
    requires Inv(s) && !s.halted && |s.sent| == 1 && Cycle(t).Err?
    ensures Next(s, t).halted && Next(s, t).sent == [StartMessage]
  {
  }

  /** Only the first record of the list decides what is sent; the later ones are never read. */
  lemma CycleReadsFirstRecordOnly(t1: Transport, t2: Transport)
    requires ValidAnswer(t1) && ValidAnswer(t2)
    requires HomeworksOf(t1) != [] && HomeworksOf(t2) != []
    requires HomeworksOf(t1)[0] == HomeworksOf(t2)[0]
    ensures Cycle(t1) == Cycle(t2)
  {
  }

  /** An answer listing a rejected hw2 before an approved hw3 notifies about hw2 only. */
  lemma FirstRecordIsNotified()
    ensures
      var hw2 := JObject(map["homework_name" := JStr("hw2"), "status" := JStr("rejected")]);
      var hw3 := JObject(map["homework_name" := JStr("hw3"), "status" := JStr("approved")]);
      var t := Response(200, Some(JObject(map["homeworks" := JList([hw2, hw3])])));
      Cycle(t) == Ok(Some(StatusPrefix + "hw2" + "\"." + "Работа проверена: у ревьюера есть замечания."))
  {
    var hw2 := JObject(map["homework_name" := JStr("hw2"), "status" := JStr("rejected")]);
    assert IsHomework(hw2);
  }

  /** The bot process: the locals of main that survive from one iteration to the next. */
  class Bot {
    var timestamp: int
    var lastMessage: Option<string>
    var sent: seq<string>
    var queries: seq<int>
    var halted: bool

    function State(): BotState
      reads this
    {
      BotState(timestamp, lastMessage, sent, queries, halted)
    }

    /** main up to the loop: the credential check, the clock reading and the start notice. */
    constructor (practicumToken: Option<string>, telegramToken: Option<string>,
                 telegramChatId: Option<string>, now: int)
      ensures State() == Start(practicumToken, telegramToken, telegramChatId, now)
    {
      timestamp := now;
      lastMessage := None;
      queries := [];
      var missing := CheckTokens(practicumToken, telegramToken, telegramChatId);
      if missing.Some? {
        sent := [];
        halted := true;
      } else {
        sent := [StartMessage];
        halted := false;
      }
    }

    /** One iteration of the loop body. */
    method Step(t: Transport)
      requires !halted
      modifies this
      ensures State() == Next(old(State()), t)
    {
      queries := queries + [timestamp];
      var failure: Option<Error> := None;
      var answer := GetApiAnswer(t);
      if answer.Err? {
        failure := Some(answer.error);
      } else {
        var response := answer.value;
        var check := CheckResponse(response);
        if check.Fail? {
          failure := Some(check.error);
        } else {
          var homeworks := response.fields["homeworks"].items;
          if homeworks != [] {
            var parsed := ParseStatus(homeworks[0]);
            if parsed.Err? {
              failure := Some(parsed.error);
            } else {
              lastMessage := Some(parsed.value);
              sent := sent + [parsed.value];
            }
          }
        }
      }
      if failure.Some? {
        if lastMessage.Some? {
          sent := sent + [lastMessage.value];
        } else {
          halted := true;
        }
      }
    }

    /** The loop, offered a bounded sequence of transport outcomes; it ends early when the
        process stops. */
    method Run(ts: seq<Transport>)
      modifies this
      ensures State() == RunSpec(old(State()), ts)
    {
      var i := 0;
      while i < |ts| && !halted
        invariant 0 <= i <= |ts|
        invariant State() == RunSpec(old(State()), ts[..i])
      {
        assert ts[..i + 1][..i] == ts[..i];
        Step(ts[i]);
        i := i + 1;
      }
      if i < |ts| {
        RunStopsAtHalt(old(State()), ts, i);
      } else {
        assert ts[..i] == ts;
      }
    }
  }

  /** When the process has stopped after a prefix of the outcomes, the rest change nothing. */
  lemma {:induction false} RunStopsAtHalt(s: BotState, ts: seq<Transport>, i: nat)
    requires i <= |ts| && RunSpec(s, ts[..i]).halted
    ensures RunSpec(s, ts) == RunSpec(s, ts[..i])
    decreases |ts| - i
  {
    if i < |ts| {
      assert ts[..i + 1][..i] == ts[..i];
      RunStopsAtHalt(s, ts, i + 1);
    } else {
      assert ts[..i] == ts;
    }
  }
}
