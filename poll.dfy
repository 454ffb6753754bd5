/** `main`: the start-up token test and one pass of the `while True` loop body
    (fetch, validate, parse the first homework, notify, move the cursor). */
module Poll {
  import opened Results
  import opened PyJson
  import opened Failures
  import opened Tokens
  import opened Responses
  import opened Notifications

  /** What `get_api_answer(timestamp)` did: returned the decoded answer, or
      raised with this text. */
  datatype FetchOutcome = Fetched(response: Json) | FetchFailed(cause: string)

  /** The state one pass leaves: the new `timestamp`, the sender's
      `last_message`, and the calls that reached `bot.send_message`. */
  datatype StepResult = StepResult(cursor: Json, lastMessage: string, sent: seq<string>)

  const FAILURE_PREFIX: string := "Сбой в работе программы: "

  /** The text sent when a pass fails with `error`. */
  function FailureMessage(error: Failure): (r: string)
    ensures |r| == |FAILURE_PREFIX| + |error.Text()|
    ensures r[..|FAILURE_PREFIX|] == FAILURE_PREFIX
    ensures r[|FAILURE_PREFIX|..] == error.Text()
  {
    FAILURE_PREFIX + error.Text()
  }

  /** `response.get("current_date", timestamp)`. */
  function NextCursor(response: Json, cursor: Json): (r: Json)
    requires response.JDict?
    ensures Lookup(response.members, "current_date").None? ==> r == cursor
    ensures Lookup(response.members, "current_date").Some? ==> r == Lookup(response.members, "current_date").value
  {
    DictGet(response, "current_date", cursor)
  }

  /** The try-block up to the send: the error it raises, or the message to
      send (None for an empty homework list). */
  function Attempt(fetch: FetchOutcome): (r: Result<Option<string>, Failure>)
    ensures r.Ok? ==> fetch.Fetched? && CheckResponse(fetch.response).Pass?
    ensures fetch.FetchFailed? ==> r == Err(ApiFailed(fetch.cause))
    ensures fetch.Fetched? && CheckResponse(fetch.response).Fail? ==>
      r == Err(CheckResponse(fetch.response).error)
  {
    match fetch
    case FetchFailed(cause) => Err(ApiFailed(cause))
    case Fetched(response) =>
      match CheckResponse(response)
      case Fail(error) => Err(error)
      case Pass =>
        var homeworks := Homeworks(response);
        if homeworks == [] then Ok(None)
        else
          match ParseStatus(homeworks[0])
          case Err(error) => Err(error)
          case Ok(message) => Ok(Some(message))
  }

  /** One pass of the loop body. A TelegramError from the homework message
      is only logged; any other error becomes a failure message sent
      through the same sender, with TelegramError suppressed. */
  function PollStep(cursor: Json, lastMessage: string, fetch: FetchOutcome, delivered: bool): (r: StepResult)
    ensures |r.sent| <= 1
    ensures r.sent == [] ==> r.lastMessage == lastMessage
    ensures r.sent != [] ==> r.sent == [r.lastMessage] && r.lastMessage != lastMessage
    ensures r.cursor == cursor ||
      (fetch.Fetched? && fetch.response.JDict? && r.cursor == NextCursor(fetch.response, cursor))
  {
    match Attempt(fetch)
    case Err(error) =>
      var message := FailureMessage(error);
      var n := Notify(lastMessage, message, delivered);
      StepResult(cursor, n.lastMessage, Attempted(message, n.outcome))
    case Ok(None) =>
      StepResult(NextCursor(fetch.response, cursor), lastMessage, [])
    case Ok(Some(message)) =>
      var n := Notify(lastMessage, message, delivered);
      var next := if n.outcome.TelegramFailed? then cursor else NextCursor(fetch.response, cursor);
      StepResult(next, n.lastMessage, Attempted(message, n.outcome))
  }

  /** Fetch, validation, parsing and sending all went through (a send dropped as a
      repeat counts as gone through: the wrapper returns normally). */
  predicate Succeeded(lastMessage: string, fetch: FetchOutcome, delivered: bool) {
    && fetch.Fetched?
    && CheckResponse(fetch.response).Pass?
    && var homeworks := Homeworks(fetch.response);
       (homeworks == [] ||
        (ParseStatus(homeworks[0]).Ok? && (ParseStatus(homeworks[0]).value == lastMessage || delivered)))
  }

  /** The cursor moves to the answer's `current_date` exactly when the pass
      succeeded, and stays put otherwise. */
  lemma CursorMovesOnlyOnSuccess(cursor: Json, lastMessage: string, fetch: FetchOutcome, delivered: bool)
    ensures var r := PollStep(cursor, lastMessage, fetch, delivered);
      if Succeeded(lastMessage, fetch, delivered)
      then r.cursor == DictGet(fetch.response, "current_date", cursor)
      else r.cursor == cursor
  {
  }

  /** An answer without `current_date` never moves the cursor. */
  lemma NoCurrentDateKeepsCursor(cursor: Json, lastMessage: string, response: Json, delivered: bool)
    requires response.JDict? && Lookup(response.members, "current_date").None?
    ensures PollStep(cursor, lastMessage, Fetched(response), delivered).cursor == cursor
  {
  }

  /** An empty homework list sends nothing and leaves the sender as it was. */
  lemma EmptyListSendsNothing(cursor: Json, lastMessage: string, response: Json, delivered: bool)
    requires CheckResponse(response).Pass? && Homeworks(response) == []
    ensures var r := PollStep(cursor, lastMessage, Fetched(response), delivered);
      r.sent == [] && r.lastMessage == lastMessage &&
      r.cursor == DictGet(response, "current_date", cursor)
  {
  }

  /** Only the first homework matters: the pass does exactly what parsing
      `homeworks[0]` and sending its message (or its error) does. */
  lemma OnlyFirstHomework(cursor: Json, lastMessage: string, response: Json, delivered: bool)
    requires CheckResponse(response).Pass? && Homeworks(response) != []
    ensures var r := PollStep(cursor, lastMessage, Fetched(response), delivered);
      match ParseStatus(Homeworks(response)[0])
      case Ok(message) =>
        r.lastMessage == message &&
        r.sent == (if message == lastMessage then [] else [message]) &&
        r.cursor == (if message != lastMessage && !delivered then cursor
                     else DictGet(response, "current_date", cursor))
      case Err(error) =>
        r.lastMessage == FailureMessage(error) &&
        r.sent == (if FailureMessage(error) == lastMessage then [] else [FailureMessage(error)]) &&
        r.cursor == cursor
  {
  }

  /** Any failure other than TelegramError sends at most the one failure
      message naming its cause, and only when it differs from the last
      message. */
  lemma FailureNotifiedThroughDedup(cursor: Json, lastMessage: string, fetch: FetchOutcome, delivered: bool)
    requires Attempt(fetch).Err?
    ensures var r := PollStep(cursor, lastMessage, fetch, delivered);
      var message := FAILURE_PREFIX + Attempt(fetch).error.Text();
      r.cursor == cursor && r.lastMessage == message &&
      r.sent == (if message == lastMessage then [] else [message])
  {
  }

  /** The same failure twice in a row is reported once: the second pass
      sends nothing. */
  lemma {:induction false} RepeatedFailureReportedOnce(cursor: Json, lastMessage: string, fetch: FetchOutcome,
                                                       first: bool, second: bool)
    requires Attempt(fetch).Err?
    ensures var r1 := PollStep(cursor, lastMessage, fetch, first);
      var r2 := PollStep(r1.cursor, r1.lastMessage, fetch, second);
      r2.sent == [] && r2.cursor == cursor && |r1.sent + r2.sent| <= 1
  {
    FailureNotifiedThroughDedup(cursor, lastMessage, fetch, first);
    var r1 := PollStep(cursor, lastMessage, fetch, first);
    FailureNotifiedThroughDedup(r1.cursor, r1.lastMessage, fetch, second);
  }

  /** A failure of another kind right after a failure is reported: the
      second pass sends its own failure message. */
  lemma {:induction false} ChangedFailureReported(cursor: Json, lastMessage: string, f1: FetchOutcome,
                                                  f2: FetchOutcome, d1: bool, d2: bool)
    requires Attempt(f1).Err? && Attempt(f2).Err?
    requires !Attempt(f1).error.ApiFailed? && !Attempt(f2).error.ApiFailed?
    requires !SameKind(Attempt(f1).error, Attempt(f2).error)
    ensures var r1 := PollStep(cursor, lastMessage, f1, d1);
      var r2 := PollStep(r1.cursor, r1.lastMessage, f2, d2);
      r2.sent == [FailureMessage(Attempt(f2).error)] && r2.cursor == cursor
  {
    var e1, e2 := Attempt(f1).error, Attempt(f2).error;
    FailureNotifiedThroughDedup(cursor, lastMessage, f1, d1);
    var r1 := PollStep(cursor, lastMessage, f1, d1);
    FailureNotifiedThroughDedup(r1.cursor, r1.lastMessage, f2, d2);
    DifferentKindsDifferentTexts(e1, e2);
    assert FailureMessage(e1)[|FAILURE_PREFIX|..] != FailureMessage(e2)[|FAILURE_PREFIX|..];
  }

  /** A homework message whose send raised TelegramError is not sent again
      by the next pass over the same answer, although the cursor stayed
      put; that pass then moves the cursor. */
  lemma {:induction false} FailedSendNotRepeated(cursor: Json, lastMessage: string, response: Json, second: bool)
    requires CheckResponse(response).Pass? && Homeworks(response) != []
    requires ParseStatus(Homeworks(response)[0]).Ok?
    requires ParseStatus(Homeworks(response)[0]).value != lastMessage
    ensures var r1 := PollStep(cursor, lastMessage, Fetched(response), false);
      var r2 := PollStep(r1.cursor, r1.lastMessage, Fetched(response), second);
      r1.cursor == cursor && r1.sent == [ParseStatus(Homeworks(response)[0]).value] &&
      r2.sent == [] && r2.cursor == DictGet(response, "current_date", cursor)
  {
    OnlyFirstHomework(cursor, lastMessage, response, false);
    var r1 := PollStep(cursor, lastMessage, Fetched(response), false);
    OnlyFirstHomework(r1.cursor, r1.lastMessage, response, second);
  }

  /** Scenario: one approved homework and `current_date` 1000 give exactly
      one message, and the cursor becomes 1000. */
  lemma ApprovedScenario(cursor: Json)
    ensures var hw := JDict([("homework_name", JString("hw1")), ("status", JString("approved"))]);
      var response := JDict([("homeworks", JList([hw])), ("current_date", JInt(1000))]);
      var message := "Изменился статус проверки работы \"" + "hw1" + "\". " +
                     "Работа проверена: ревьюеру всё понравилось. Ура!";
      PollStep(cursor, "", Fetched(response), true) == StepResult(JInt(1000), message, [message])
  {
    var hw := JDict([("homework_name", JString("hw1")), ("status", JString("approved"))]);
    var response := JDict([("homeworks", JList([hw])), ("current_date", JInt(1000))]);
    assert "homework_name" != "status" && "homeworks" != "current_date";
    assert hw.members[1..] == [("status", JString("approved"))];
    assert DictGet(hw, "status", JNull) == JString("approved");
    KnownStatusMessages(hw, "hw1");
    assert Homeworks(response) == [hw];
    assert response.members[1..] == [("current_date", JInt(1000))];
    assert Lookup(response.members, "current_date") == Some(JInt(1000));
  }

  /** Scenario: an empty homework list without `current_date` sends nothing
      and keeps the cursor. */
  lemma EmptyScenario(cursor: Json, lastMessage: string, delivered: bool)
    ensures PollStep(cursor, lastMessage, Fetched(JDict([("homeworks", JList([]))])), delivered) ==
      StepResult(cursor, lastMessage, [])
  {
  }

  /** Scenario: a failed request sends one failure message with its cause
      and keeps the cursor. */
  lemma RequestFailedScenario(cursor: Json, cause: string, delivered: bool)
    ensures PollStep(cursor, "", FetchFailed(cause), delivered) ==
      StepResult(cursor, FAILURE_PREFIX + cause, [FAILURE_PREFIX + cause])
  {
  }

  /** Scenario: a homework without a status is reported as status None and
      keeps the cursor. */
  lemma MissingStatusScenario(cursor: Json, delivered: bool)
    ensures var response := JDict([("homeworks", JList([JDict([("homework_name", JString("hw2"))])]))]);
      var message := FAILURE_PREFIX + "Неожиданный статус домашней работы. Полученный статус: " + "None";
      PollStep(cursor, "", Fetched(response), delivered) == StepResult(cursor, message, [message])
  {
    var hw := JDict([("homework_name", JString("hw2"))]);
    var response := JDict([("homeworks", JList([hw]))]);
    AbsentStatusText("hw2");
    assert Homeworks(response) == [hw];
    assert Lookup(hw.members, "status") == None;
    assert ParseStatus(hw) == Err(UnexpectedStatus(JNull));
    assert FailureMessage(UnexpectedStatus(JNull)) ==
      FAILURE_PREFIX + "Неожиданный статус домашней работы. Полученный статус: " + "None";
  }

  /** The running bot: `timestamp` and the wrapped sender. */
  class Poller {
    var timestamp: Json
    const notifier: Notifier

    /** `timestamp = int(time.time())`, with the current time as `now`. */
    constructor (now: int)
      ensures timestamp == JInt(now)
      ensures fresh(notifier) && notifier.lastMessage == "" && notifier.sent == []
    {
      timestamp := JInt(now);
      notifier := new Notifier();
    }

    /** One pass of the loop body: `fetch` is what `get_api_answer` did and
        `delivered` what `bot.send_message` would do. */
    method Iterate(fetch: FetchOutcome, delivered: bool)
      modifies this, notifier
      ensures var r := PollStep(old(timestamp), old(notifier.lastMessage), fetch, delivered);
        timestamp == r.cursor && notifier.lastMessage == r.lastMessage &&
        notifier.sent == old(notifier.sent) + r.sent
    {
      var failure: Option<Failure> := None;
      match fetch {
        case FetchFailed(cause) =>
          failure := Some(ApiFailed(cause));
        case Fetched(response) =>
          var checked := CheckResponse(response);
          if checked.Fail? {
            failure := Some(checked.error);
          } else {
            var homeworks := Homeworks(response);
            var telegramFailed := false;
            if homeworks != [] {
              var parsed := ParseStatus(homeworks[0]);
              if parsed.Err? {
                failure := Some(parsed.error);
              } else {
                var outcome := notifier.Send(parsed.value, delivered);
                telegramFailed := outcome.TelegramFailed?;
              }
            }
            if failure.None? && !telegramFailed {
              timestamp := NextCursor(response, timestamp);
            }
          }
      }
      if failure.Some? {
        var _ := notifier.Send(FailureMessage(failure.value), delivered);
      }
    }
  }

  /** The start of `main`: `check_tokens()` first; when it raises the
      process stops with its message and no loop is entered. */
  method Launch(settings: Settings, now: int) returns (poller: Poller?, check: Outcome<string>)
    ensures check == CheckTokens(settings)
    ensures poller == null <==> check.Fail?
    ensures poller != null ==>
      fresh(poller) && fresh(poller.notifier) && poller.timestamp == JInt(now) &&
      poller.notifier.lastMessage == "" && poller.notifier.sent == []
  {
    check := CheckTokens(settings);
    if check.Fail? {
      poller := null;
    } else {
      poller := new Poller(now);
    }
  }
}
