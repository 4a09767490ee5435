/**
 * The body of `main`: the startup gate on the credentials, then one pass of
 * the `while True` loop per API answer. The answer each pass receives is an
 * input; sending a message appends it to the bot's log of sent messages.
 */
module PollLoop {
  import opened Wrappers
  import opened PyValues
  import opened Errors
  import opened Homework

  /** What one call of `get_api_answer` produced: the decoded body, or the text of what it raised. */
  datatype Fetch = Answer(body: Json) | FetchRaised(text: string)

  /** The loop as the source writes it, or as its authors evidently meant it. */
  datatype Reading = AsWritten | Intended

  const EMPTY_LIST_REPORT := "Список ДЗ пуст !"
  const FAILURE_PREFIX := "Сбой в работе программы: "
  const MISSING_TOKENS := FAIL_ERROR_PREFIX +
    "Не обнаружена одна или несколько переменных оркужения: " +
    "PRACTICUM_TOKEN, TELEGRAM_TOKEN, TELEGRAM_CHAT_ID !"
  /** `homeworks[0]` on an empty list. */
  const EMPTY_INDEX := IndexError("list index out of range")
  /** `logging.DEBUG(...)`: the level constant is an int, and an int cannot be called. */
  const DEBUG_CALL := TypeError("'int' object is not callable")

  /** The report the `except` branch builds from an exception. */
  function FailureReport(e: Error): (r: string)
    ensures StartsWith(r, FAILURE_PREFIX)
  {
    FAILURE_PREFIX + ErrorText(e)
  }

  /**
   * The `try` block up to the choice of report, as written: the report, or the
   * exception that ends the block first. A non-empty list gets the empty-list
   * text and an empty one is indexed, so `parse_status` is never reached.
   */
  function Attempt(outcome: Fetch): (r: Result<string, Error>)
    ensures r.Success? <==>
      outcome.Answer? && CheckResponse(outcome.body).Success? && CheckResponse(outcome.body).value != []
    ensures r.Success? ==> r.value == EMPTY_LIST_REPORT
    ensures outcome.Answer? && CheckResponse(outcome.body) == Success([]) ==> r == Failure(EMPTY_INDEX)
    ensures outcome.Answer? && CheckResponse(outcome.body).Failure? ==>
      r == Failure(CheckResponse(outcome.body).error)
    ensures outcome.FetchRaised? ==> r == Failure(FetchFailed(outcome.text))
  {
    match outcome
    case FetchRaised(text) => Failure(FetchFailed(text))
    case Answer(body) =>
      match CheckResponse(body)
      case Failure(e) => Failure(e)
      case Success(homeworks) =>
        if homeworks != [] then Success(EMPTY_LIST_REPORT) else Failure(EMPTY_INDEX)
  }

  /**
   * The same block as intended: the latest homework's status sentence when
   * there is one, the empty-list text when there is none.
   */
  function IntendedAttempt(outcome: Fetch): (r: Result<string, Error>)
    ensures outcome.Answer? && CheckResponse(outcome.body).Success? ==>
      if CheckResponse(outcome.body).value == [] then r == Success(EMPTY_LIST_REPORT)
      else r == ParseStatus(CheckResponse(outcome.body).value[0])
    ensures outcome.Answer? && CheckResponse(outcome.body).Failure? ==>
      r == Failure(CheckResponse(outcome.body).error)
    ensures outcome.FetchRaised? ==> r == Failure(FetchFailed(outcome.text))
  {
    match outcome
    case FetchRaised(text) => Failure(FetchFailed(text))
    case Answer(body) =>
      match CheckResponse(body)
      case Failure(e) => Failure(e)
      case Success(homeworks) =>
        if homeworks != [] then ParseStatus(homeworks[0]) else Success(EMPTY_LIST_REPORT)
  }

  /**
   * The report an intended pass settles on, failure or not: a verdict, the
   * empty-list text or a failure report, never anything else.
   */
  function IntendedCandidate(outcome: Fetch): (r: string)
    ensures r == EMPTY_LIST_REPORT || StartsWith(r, STATUS_CHANGED) || StartsWith(r, FAILURE_PREFIX)
    ensures outcome.FetchRaised? ==> r == FailureReport(FetchFailed(outcome.text))
  {
    var attempt := IntendedAttempt(outcome);
    assert attempt.Success? && attempt.value != EMPTY_LIST_REPORT ==>
      exists name, verdict :: attempt.value == StatusSentence(name, verdict);
    match attempt
    case Success(report) => report
    case Failure(e) => FailureReport(e)
  }

  /** What a pass leaves behind: the messages it sent and the new `prev_report`. */
  datatype Pass = Pass(sent: seq<string>, prev: string)

  /**
   * The de-duplication that follows a candidate report: it is sent only when it
   * differs from the previous report, and afterwards it is the previous report.
   */
  function Report(prev: string, candidate: string): (p: Pass)
    ensures p.prev == candidate
    ensures |p.sent| <= 1
    ensures p.sent != [] <==> candidate != prev
    ensures p.sent != [] ==> p.sent[0] == candidate
  {
    if candidate != prev then Pass([candidate], candidate) else Pass([], prev)
  }

  /**
   * One pass of the loop, from `prev_report` and the API answer. It keeps the
   * de-duplication invariant: the new `prev_report` is the last message sent,
   * and no message repeats the one before it. As written a pass sends at most
   * two messages (the report and the `logging.DEBUG` failure); as intended, one.
   */
  function Step(reading: Reading, prev: string, outcome: Fetch): (p: Pass)
    ensures p.prev == LastOr(prev, p.sent)
    ensures NoRepeats(prev, p.sent)
    ensures |p.sent| <= if reading == AsWritten then 2 else 1
  {
    match reading
    case AsWritten =>
      (match Attempt(outcome)
       case Success(report) =>
         // After the report is handled, `logging.DEBUG(...)` raises.
         var handled := Report(prev, report);
         var failed := Report(handled.prev, FailureReport(DEBUG_CALL));
         Pass(handled.sent + failed.sent, failed.prev)
       case Failure(e) => Report(prev, FailureReport(e)))
    case Intended => Report(prev, IntendedCandidate(outcome))
  }

  /**
   * Consecutive passes over `outcomes`, starting from `prev`: at most two
   * messages per pass as written, at most one as intended.
   */
  function Run(reading: Reading, prev: string, outcomes: seq<Fetch>): (p: Pass)
    ensures |p.sent| <= (if reading == AsWritten then 2 else 1) * |outcomes|
    decreases |outcomes|
  {
    if outcomes == [] then Pass([], prev)
    else
      var before := Run(reading, prev, outcomes[..|outcomes| - 1]);
      var last := Step(reading, before.prev, outcomes[|outcomes| - 1]);
      Pass(before.sent + last.sent, last.prev)
  }

  /** Running the first `i + 1` answers is running the first `i`, then one more pass. */
  lemma RunOneMore(reading: Reading, prev: string, outcomes: seq<Fetch>, i: nat)
    requires i < |outcomes|
    ensures Run(reading, prev, outcomes[..i + 1]) ==
      var before := Run(reading, prev, outcomes[..i]);
      var last := Step(reading, before.prev, outcomes[i]);
      Pass(before.sent + last.sent, last.prev)
  {
    assert outcomes[..i + 1][..i] == outcomes[..i];
  }

  /** No two messages in a row are the same, counting `first` as sent before them. */
  predicate NoRepeats(first: string, sent: seq<string>) {
    (sent != [] ==> sent[0] != first) &&
    forall k :: 0 < k < |sent| ==> sent[k] != sent[k - 1]
  }

  function LastOr(first: string, sent: seq<string>): string {
    if sent == [] then first else sent[|sent| - 1]
  }

  lemma NoRepeatsAppend(first: string, before: seq<string>, after: seq<string>)
    requires NoRepeats(first, before) && NoRepeats(LastOr(first, before), after)
    ensures NoRepeats(first, before + after)
    ensures LastOr(first, before + after) == LastOr(LastOr(first, before), after)
  {
  }

  /**
   * The de-duplication invariant of the loop, whichever reading: the previous
   * report is always the last message sent, and no message repeats the one
   * sent just before it.
   */
  lemma {:induction false} RunDeduplicates(reading: Reading, prev: string, outcomes: seq<Fetch>)
    ensures Run(reading, prev, outcomes).prev == LastOr(prev, Run(reading, prev, outcomes).sent)
    ensures NoRepeats(prev, Run(reading, prev, outcomes).sent)
    decreases |outcomes|
  {
    if outcomes != [] {
      var before := Run(reading, prev, outcomes[..|outcomes| - 1]);
      RunDeduplicates(reading, prev, outcomes[..|outcomes| - 1]);
      NoRepeatsAppend(prev, before.sent, Step(reading, before.prev, outcomes[|outcomes| - 1]).sent);
    }
  }

  /**
   * As written, every pass ends in the `except` branch: the previous report is
   * always a failure report, and after a pass that got past the report it is
   * the one for the failed `logging.DEBUG` call.
   */
  lemma WrittenPassEndsInFailure(prev: string, outcome: Fetch)
    ensures StartsWith(Step(AsWritten, prev, outcome).prev, FAILURE_PREFIX)
    ensures Attempt(outcome).Success? ==>
      Step(AsWritten, prev, outcome).prev == FailureReport(DEBUG_CALL)
  {
  }

  /** A pass that fails before the report only reports the failure. */
  lemma WrittenFailureStep(prev: string, outcome: Fetch)
    requires Attempt(outcome).Failure?
    ensures Step(AsWritten, prev, outcome) == Report(prev, FailureReport(Attempt(outcome).error))
  {
  }

  /**
   * As written, the same failing answer over and over is reported once: the
   * failure report is sent on the first pass (unless it was already the
   * previous report) and then suppressed.
   */
  lemma {:induction false} WrittenFailureSentOnce(prev: string, outcome: Fetch, n: nat)
    requires Attempt(outcome).Failure?
    ensures Run(AsWritten, prev, Repeat([outcome], n)).sent ==
      if n > 0 && FailureReport(Attempt(outcome).error) != prev
      then [FailureReport(Attempt(outcome).error)] else []
    ensures Run(AsWritten, prev, Repeat([outcome], n)).prev ==
      if n > 0 then FailureReport(Attempt(outcome).error) else prev
  {
    if n > 0 {
      var outcomes := Repeat([outcome], n);
      assert outcomes[..|outcomes| - 1] == Repeat([outcome], n - 1);
      WrittenFailureSentOnce(prev, outcome, n - 1);
      WrittenFailureStep(Run(AsWritten, prev, Repeat([outcome], n - 1)).prev, outcome);
    }
  }

  /** A pass that gets past the report sends it and then the `logging.DEBUG` failure. */
  lemma WrittenSuccessStep(prev: string, outcome: Fetch)
    requires Attempt(outcome).Success?
    requires prev != EMPTY_LIST_REPORT
    ensures Step(AsWritten, prev, outcome) ==
      Pass([EMPTY_LIST_REPORT, FailureReport(DEBUG_CALL)], FailureReport(DEBUG_CALL))
  {
  }

  /**
   * As written, the same accepted answer is re-announced on every pass: each
   * pass sends the empty-list text and then the `logging.DEBUG` failure, since
   * each of them differs from the one before.
   */
  lemma {:induction false} WrittenSuccessResent(prev: string, outcome: Fetch, n: nat)
    requires Attempt(outcome).Success?
    requires prev != EMPTY_LIST_REPORT
    ensures Run(AsWritten, prev, Repeat([outcome], n)).sent ==
      Repeat([EMPTY_LIST_REPORT, FailureReport(DEBUG_CALL)], n)
    ensures Run(AsWritten, prev, Repeat([outcome], n)).prev ==
      if n > 0 then FailureReport(DEBUG_CALL) else prev
  {
    if n > 0 {
      var outcomes := Repeat([outcome], n);
      assert outcomes[..|outcomes| - 1] == Repeat([outcome], n - 1);
      WrittenSuccessResent(prev, outcome, n - 1);
      var before := Run(AsWritten, prev, Repeat([outcome], n - 1));
      WrittenSuccessStep(before.prev, outcome);
    }
  }

  /**
   * As intended, an answer repeated over any number of passes is announced at
   * most once, whether it is a verdict, the empty-list text or a failure.
   */
  lemma {:induction false} IntendedSentOnce(prev: string, outcome: Fetch, n: nat)
    ensures Run(Intended, prev, Repeat([outcome], n)).sent ==
      if n > 0 && IntendedCandidate(outcome) != prev then [IntendedCandidate(outcome)] else []
    ensures Run(Intended, prev, Repeat([outcome], n)).prev ==
      if n > 0 then IntendedCandidate(outcome) else prev
  {
    if n > 0 {
      var outcomes := Repeat([outcome], n);
      assert outcomes[..|outcomes| - 1] == Repeat([outcome], n - 1);
      IntendedSentOnce(prev, outcome, n - 1);
    }
  }

  /** The Telegram bot, reduced to the messages it has sent to the fixed chat. */
  class Bot {
    const token: string
    var sent: seq<string>

    constructor (token: string)
      ensures this.token == token && sent == []
    {
      this.token := token;
      sent := [];
    }

    /** `send_message`: the text goes to the chat. */
    method SendMessage(text: string)
      modifies this
      ensures sent == old(sent) + [text]
    {
      sent := sent + [text];
    }
  }

  /**
   * One pass of the `while True` body, `try`, `except` and all, on the answer
   * `outcome`; returns the new `prev_report`.
   */
  method Iterate(bot: Bot, prevReport: string, outcome: Fetch) returns (newPrev: string)
    modifies bot
    ensures bot.sent == old(bot.sent) + Step(AsWritten, prevReport, outcome).sent
    ensures newPrev == Step(AsWritten, prevReport, outcome).prev
  {
    newPrev := prevReport;
    var currentReport := "";
    var raised: Option<Error> := None;
    match outcome {
      case FetchRaised(text) =>
        raised := Some(FetchFailed(text));
      case Answer(apiDict) =>
        var checked := CheckResponse(apiDict);
        if checked.Failure? {
          raised := Some(checked.error);
        } else {
          var homeworks := checked.value;
          if homeworks != [] {
            currentReport := EMPTY_LIST_REPORT;
          } else {
            raised := Some(EMPTY_INDEX);
          }
          if raised == None {
            if currentReport != newPrev {
              bot.SendMessage(currentReport);
              newPrev := currentReport;
            }
            raised := Some(DEBUG_CALL);
          }
        }
    }
    // Every pass reaches the `except` branch.
    currentReport := FailureReport(raised.value);
    if currentReport != newPrev {
      bot.SendMessage(currentReport);
      newPrev := currentReport;
    }
  }

  /**
   * How `main` ends up: it exits at startup, or, after the given passes, it
   * has sent these messages, holds this `prev_report` and has queried the API
   * with these `from_date` values.
   */
  datatype Ending =
    | Exited(message: string)
    | Polling(sent: seq<string>, prevReport: string, queries: seq<int>)

  /**
   * `main`, run for one pass per element of `outcomes`: with a credential
   * missing it exits before it builds the bot or queries the API; otherwise
   * every pass queries from the start time `now` and goes as `Step` says.
   */
  method Poll(env: Env, now: int, outcomes: seq<Fetch>) returns (ending: Ending)
    ensures !CheckTokens(env) ==> ending == Exited(MISSING_TOKENS)
    ensures CheckTokens(env) ==>
      ending == Polling(Run(AsWritten, "", outcomes).sent, Run(AsWritten, "", outcomes).prev,
                        Repeat([now], |outcomes|))
  {
    var tokens := CheckTokens(env);
    if !tokens {
      return Exited(MISSING_TOKENS);
    }
    var prevReport := "";
    var currentTimestamp := now;
    var bot := new Bot(env.telegramToken.value);
    var queries: seq<int> := [];
    var i := 0;
    while i < |outcomes|
      invariant 0 <= i <= |outcomes|
      invariant bot.sent == Run(AsWritten, "", outcomes[..i]).sent
      invariant prevReport == Run(AsWritten, "", outcomes[..i]).prev
      invariant queries == Repeat([now], i)
    {
      queries := queries + [currentTimestamp];
      RunOneMore(AsWritten, "", outcomes, i);
      prevReport := Iterate(bot, prevReport, outcomes[i]);
      i := i + 1;
    }
    assert outcomes[..i] == outcomes;
    return Polling(bot.sent, prevReport, queries);
  }
}
