/**
 * The OpenAI assistant session: the bounded retry loop around every API request, the
 * run-status state machine that waits for a reply, the check of the reply's shape, the
 * mapping of client errors, and the assistant find-or-create of the builder.
 *
 * The service is a script: every request takes the next reply of a sequence, and every
 * `next_backoff` call takes the next delay of a schedule, with `None` once the schedule
 * has run out. A call that would need a reply past the end of its script is `Pending`.
 */
module OpenAi {
  import opened Wrappers
  import opened Rosetta

  /** Budget of sequential errors of both retry loops. */
  const MAX_SEQUENTIAL_ERRORS: nat := 5

  /** What a scripted call came to. */
  datatype Outcome<+T, +E> =
    | Success(value: T)
    | Failure(error: E)
    | Pending   // the script ran out before the call returned

  // ---------------------------------------------------------------------------
  // `run_openai_request`
  // ---------------------------------------------------------------------------

  /** The end of a request loop: the outcome and the number of attempts made. */
  datatype RequestEnd<+R> = RequestEnd(outcome: Outcome<R, LLMError>, attempts: nat)

  /**
   * The request loop from attempt `n` on: attempt `n` gets reply `replies[n]`. Before
   * attempt `n` the loop has seen `n` transient errors and taken `n` delays.
   */
  function RequestFrom<R>(replies: seq<Result<R, OpenAIError>>, schedule: seq<nat>, n: nat): (e: RequestEnd<R>)
    requires n <= MAX_SEQUENTIAL_ERRORS && n <= |schedule| && n <= |replies|
    ensures n <= e.attempts <= |replies| && e.attempts <= MAX_SEQUENTIAL_ERRORS + 1
    ensures e.outcome.Pending? ==> e.attempts == |replies|
    ensures !e.outcome.Pending? ==> n < e.attempts
    ensures e.outcome.Success? ==> replies[e.attempts - 1] == Ok(e.outcome.value)
    ensures e.outcome.Failure? ==> e.outcome.error.InteractionError? && replies[e.attempts - 1].Err?
    decreases MAX_SEQUENTIAL_ERRORS - n
  {
    if n == |replies| then RequestEnd(Pending, n)
    else match replies[n]
      case Ok(v) => RequestEnd(Success(v), n + 1)
      case Err(err) =>
        if !Retryable(err) then RequestEnd(Failure(InteractionError(ClientError(err))), n + 1)
        else if n >= MAX_SEQUENTIAL_ERRORS then RequestEnd(Failure(InteractionError(RetriesExhausted(err))), n + 1)
        else if n == |schedule| then RequestEnd(Failure(InteractionError(BackoffExhausted(err))), n + 1)
        else RequestFrom(replies, schedule, n + 1)
  }

  /** What `run_openai_request` returns for a script of replies and a backoff schedule. */
  function Request<R>(replies: seq<Result<R, OpenAIError>>, schedule: seq<nat>): RequestEnd<R> {
    RequestFrom(replies, schedule, 0)
  }

  /** The first `m` replies are transient errors. */
  predicate TransientErrors<R>(replies: seq<Result<R, OpenAIError>>, m: nat) {
    m <= |replies| && forall k :: 0 <= k < m ==> replies[k].Err? && Retryable(replies[k].error)
  }

  /**
   * Only transient errors are retried: every reply before the last one the loop took was
   * a transport or decoding error, and a failure names the error of the last reply, as
   * a client error when it is not transient, and otherwise as the error after which the
   * budget or the backoff schedule ran out.
   */
  lemma {:induction false} RequestRetriesTransientOnly<R>(replies: seq<Result<R, OpenAIError>>, schedule: seq<nat>, n: nat)
    requires n <= MAX_SEQUENTIAL_ERRORS && n <= |schedule| && TransientErrors(replies, n)
    ensures var e := RequestFrom(replies, schedule, n);
      && TransientErrors(replies, if e.outcome.Pending? then e.attempts else e.attempts - 1)
      && (e.outcome.Failure? ==> match e.outcome.error.cause
           case ClientError(err) => replies[e.attempts - 1] == Err(err) && !Retryable(err)
           case RetriesExhausted(err) =>
             replies[e.attempts - 1] == Err(err) && e.attempts == MAX_SEQUENTIAL_ERRORS + 1
           case BackoffExhausted(err) =>
             replies[e.attempts - 1] == Err(err) && e.attempts == |schedule| + 1
           case _ => false)
    decreases MAX_SEQUENTIAL_ERRORS - n
  {
    if n < |replies| && replies[n].Err? && Retryable(replies[n].error)
      && n < MAX_SEQUENTIAL_ERRORS && n < |schedule|
    {
      RequestRetriesTransientOnly(replies, schedule, n + 1);
    }
  }

  /**
   * The loop returns the first successful reply when it comes after at most five
   * transient errors and the schedule has a delay for each of them.
   */
  lemma {:induction false} RequestReturnsFirstOk<R>(replies: seq<Result<R, OpenAIError>>, schedule: seq<nat>, n: nat, m: nat)
    requires n <= m <= MAX_SEQUENTIAL_ERRORS && m <= |schedule| && m < |replies|
    requires TransientErrors(replies, m) && replies[m].Ok?
    ensures RequestFrom(replies, schedule, n) == RequestEnd(Success(replies[m].value), m + 1)
    decreases m - n
  {
    if n < m {
      RequestReturnsFirstOk(replies, schedule, n + 1, m);
    }
  }

  /** `run_openai_request` as the loop it is: attempt, and retry a transient error after a delay. */
  method RunOpenAiRequest<R>(replies: seq<Result<R, OpenAIError>>, schedule: seq<nat>) returns (r: Outcome<R, LLMError>)
    ensures r == Request(replies, schedule).outcome
  {
    var sequentialErrors := 0;
    var drawn := 0;  // delays taken from the backoff schedule
    while true
      invariant sequentialErrors == drawn <= MAX_SEQUENTIAL_ERRORS && drawn <= |schedule| && drawn <= |replies|
      invariant RequestFrom(replies, schedule, sequentialErrors).outcome == Request(replies, schedule).outcome
      decreases MAX_SEQUENTIAL_ERRORS - sequentialErrors
    {
      if sequentialErrors == |replies| {
        return Pending;
      }
      var result := replies[sequentialErrors];
      match result {
        case Ok(v) =>
          return Success(v);
        case Err(err) =>
          if !Retryable(err) {
            return Failure(InteractionError(ClientError(err)));
          }
          if sequentialErrors >= MAX_SEQUENTIAL_ERRORS {
            return Failure(InteractionError(RetriesExhausted(err)));
          }
          sequentialErrors := sequentialErrors + 1;
          if drawn < |schedule| {
            drawn := drawn + 1;  // sleep for `schedule[drawn - 1]`
          } else {
            return Failure(InteractionError(BackoffExhausted(err)));
          }
      }
    }
  }

  // ---------------------------------------------------------------------------
  // `run_with_backoff`
  // ---------------------------------------------------------------------------

  datatype RunStatus =
    | Queued | InProgress | RequiresAction | Cancelling | Cancelled | Failed | Completed | Incomplete | Expired

  datatype LastErrorCode = ServerError | RateLimitExceeded | InvalidPrompt

  datatype LastError = LastError(code: LastErrorCode, message: string)

  /** The fields of a run object the loop looks at. */
  datatype Run = Run(status: RunStatus, lastError: Option<LastError>, incompleteReason: Option<string>)

  /**
   * A run the loop can handle: no run asks for a tool call, and an incomplete run says
   * why (the loop panics otherwise).
   */
  predicate Handled(run: Run) {
    run.status != RequiresAction && (run.status == Incomplete ==> run.incompleteReason.Some?)
  }

  predicate HandledReplies(replies: seq<Result<Run, OpenAIError>>) {
    forall k :: 0 <= k < |replies| && replies[k].Ok? ==> Handled(replies[k].value)
  }

  /**
   * The end of a run loop: the outcome, the replies used, the delays taken from the
   * backoff schedule and the final value of the sequential-error counter.
   */
  datatype RunEnd = RunEnd(outcome: Outcome<Run, Cause>, used: nat, draws: nat, errors: nat)

  /**
   * What every end of the loop satisfies, when it started at reply `i` with `b` delays
   * taken and `errors` sequential errors: the counter only grows and stays within the
   * budget, the loop gives up on the budget only once the counter is at 5 and on the
   * schedule only once every delay is taken, and it succeeds only with a completed run.
   */
  predicate RunEndFrom(replies: seq<Result<Run, OpenAIError>>, schedule: seq<nat>, i: nat, b: nat, errors: nat, e: RunEnd) {
    && i <= e.used <= |replies| && b <= e.draws <= |schedule|
    && errors <= e.errors <= MAX_SEQUENTIAL_ERRORS
    && (e.outcome.Pending? ==> e.used == |replies|)
    && (e.outcome.Success? ==>
          e.used > i && replies[e.used - 1] == Ok(e.outcome.value) && e.outcome.value.status == Completed)
    && (e.outcome.Failure? && e.outcome.error.RunRetriesExhausted? ==> e.errors == MAX_SEQUENTIAL_ERRORS)
    && (e.outcome.Failure? && e.outcome.error.RunBackoffExhausted? ==> e.draws == |schedule|)
  }

  /**
   * An iteration of the outer loop: take a delay from the schedule, then create a run;
   * `i` replies are used, `b` delays taken and the counter is at `errors`.
   */
  function RunOuter(replies: seq<Result<Run, OpenAIError>>, schedule: seq<nat>, i: nat, b: nat, errors: nat): (e: RunEnd)
    requires HandledReplies(replies) && i <= |replies| && b <= |schedule| && errors <= MAX_SEQUENTIAL_ERRORS
    ensures RunEndFrom(replies, schedule, i, b, errors, e)
    decreases |replies| - i, 0
  {
    if b == |schedule| then RunEnd(Failure(RunBackoffExhausted), i, b, errors)
    else if i == |replies| then RunEnd(Pending, i, b + 1, errors)
    else match replies[i]
      case Ok(_) => RunPoll(replies, schedule, i + 1, b + 1, errors)
      case Err(err) =>
        if Retryable(err) then RetryOrBail(Transport(CreateRun, err), replies, schedule, i + 1, b + 1, errors)
        else RunEnd(Failure(RunRequestFailed(CreateRun, err)), i + 1, b + 1, errors)
  }

  /** The inner loop: retrieve the run and act on its status. */
  function RunPoll(replies: seq<Result<Run, OpenAIError>>, schedule: seq<nat>, i: nat, b: nat, errors: nat): (e: RunEnd)
    requires HandledReplies(replies) && i <= |replies| && b <= |schedule| && errors <= MAX_SEQUENTIAL_ERRORS
    ensures RunEndFrom(replies, schedule, i, b, errors, e)
    decreases |replies| - i, 0
  {
    if i == |replies| then RunEnd(Pending, i, b, errors)
    else match replies[i]
      case Err(err) =>
        if Retryable(err) then RetryOrBail(Transport(RetrieveRun, err), replies, schedule, i + 1, b, errors)
        else RunEnd(Failure(RunRequestFailed(RetrieveRun, err)), i + 1, b, errors)
      case Ok(run) =>
        match run.status
        case Completed => RunEnd(Success(run), i + 1, b, errors)
        case Queued => RunPoll(replies, schedule, i + 1, b, errors)
        case InProgress => RunPoll(replies, schedule, i + 1, b, errors)
        case Cancelling => RunEnd(Failure(RunCancelled), i + 1, b, errors)
        case Cancelled => RunEnd(Failure(RunCancelled), i + 1, b, errors)
        case Expired => RunEnd(Failure(RunExpired), i + 1, b, errors)
        case Incomplete => RetryOrBail(IncompleteRun(run.incompleteReason.value), replies, schedule, i + 1, b, errors)
        case Failed => (
          match run.lastError
          case None => RetryOrBail(FailedWithoutError, replies, schedule, i + 1, b, errors)
          case Some(LastError(code, message)) => (
            match code
            case RateLimitExceeded => RunOuter(replies, schedule, i + 1, b, errors)
            case InvalidPrompt => RunEnd(Failure(RunInvalidPrompt(message)), i + 1, b, errors)
            case ServerError => RetryOrBail(ServerFault(message), replies, schedule, i + 1, b, errors)))
        case RequiresAction => assert false; RunEnd(Pending, i, b, errors)
  }

  /** `retry_or_bail!`: give up once the counter is at the budget, else count the error and start over. */
  function RetryOrBail(fault: RunFault, replies: seq<Result<Run, OpenAIError>>, schedule: seq<nat>, i: nat, b: nat, errors: nat): (e: RunEnd)
    requires HandledReplies(replies) && i <= |replies| && b <= |schedule| && errors <= MAX_SEQUENTIAL_ERRORS
    ensures RunEndFrom(replies, schedule, i, b, errors, e)
    decreases |replies| - i, 1
  {
    if errors >= MAX_SEQUENTIAL_ERRORS then RunEnd(Failure(RunRetriesExhausted(fault)), i, b, errors)
    else RunOuter(replies, schedule, i, b, errors + 1)
  }

  /** What `run_with_backoff` returns for a script of replies and a backoff schedule. */
  function RunToCompletion(replies: seq<Result<Run, OpenAIError>>, schedule: seq<nat>): RunEnd
    requires HandledReplies(replies)
  {
    RunOuter(replies, schedule, 0, 0, 0)
  }

  /**
   * `run_with_backoff` as the nested loops it is: every outer iteration takes a delay
   * and creates a run, the inner loop polls it; transient faults count against the
   * budget and start over, a rate limit starts over without counting.
   */
  method RunWithBackoff(replies: seq<Result<Run, OpenAIError>>, schedule: seq<nat>) returns (r: Outcome<Run, Cause>)
    requires HandledReplies(replies)
    ensures r == RunToCompletion(replies, schedule).outcome
  {
    var sequentialErrors := 0;
    var drawn := 0;  // delays taken from the backoff schedule
    var i := 0;      // replies used
    ghost var whole := RunToCompletion(replies, schedule).outcome;
    while true
      invariant i <= |replies| && drawn <= |schedule| && sequentialErrors <= MAX_SEQUENTIAL_ERRORS
      invariant RunOuter(replies, schedule, i, drawn, sequentialErrors).outcome == whole
      decreases |replies| - i, |schedule| - drawn
    {
      if drawn == |schedule| {
        return Failure(RunBackoffExhausted);
      }
      drawn := drawn + 1;  // sleep for `schedule[drawn - 1]`
      if i == |replies| {
        return Pending;
      }
      var created := replies[i];
      i := i + 1;
      if created.Err? {
        if !Retryable(created.error) {
          return Failure(RunRequestFailed(CreateRun, created.error));
        }
        if sequentialErrors >= MAX_SEQUENTIAL_ERRORS {
          return Failure(RunRetriesExhausted(Transport(CreateRun, created.error)));
        }
        sequentialErrors := sequentialErrors + 1;
        continue;
      }
      ghost var start := i;
      var restart := false;
      while !restart
        invariant start <= i <= |replies| && sequentialErrors <= MAX_SEQUENTIAL_ERRORS
        invariant !restart ==> RunPoll(replies, schedule, i, drawn, sequentialErrors).outcome == whole
        invariant restart ==> start < i && RunOuter(replies, schedule, i, drawn, sequentialErrors).outcome == whole
        decreases |replies| - i, if restart then 0 else 1
      {
        if i == |replies| {
          return Pending;
        }
        var polled := replies[i];
        i := i + 1;
        if polled.Err? {
          if !Retryable(polled.error) {
            return Failure(RunRequestFailed(RetrieveRun, polled.error));
          }
          if sequentialErrors >= MAX_SEQUENTIAL_ERRORS {
            return Failure(RunRetriesExhausted(Transport(RetrieveRun, polled.error)));
          }
          sequentialErrors := sequentialErrors + 1;
          restart := true;
        } else {
          var run := polled.value;
          var fault: Option<RunFault> := None;  // a fault that counts against the budget
          match run.status {
            case Completed =>
              return Success(run);
            case Queued =>
            case InProgress =>
            case Cancelling =>
              return Failure(RunCancelled);
            case Cancelled =>
              return Failure(RunCancelled);
            case Expired =>
              return Failure(RunExpired);
            case Incomplete =>
              fault := Some(IncompleteRun(run.incompleteReason.value));
            case Failed =>
              match run.lastError {
                case None =>
                  fault := Some(FailedWithoutError);
                case Some(LastError(code, message)) =>
                  match code {
                    case RateLimitExceeded =>
                      restart := true;
                    case InvalidPrompt =>
                      return Failure(RunInvalidPrompt(message));
                    case ServerError =>
                      fault := Some(ServerFault(message));
                  }
              }
          }
          if fault.Some? {
            if sequentialErrors >= MAX_SEQUENTIAL_ERRORS {
              return Failure(RunRetriesExhausted(fault.value));
            }
            sequentialErrors := sequentialErrors + 1;
            restart := true;
          }
        }
      }
    }
  }

  /** A reply that is a run with the status `Failed` and the given error code. */
  predicate FailedWith(reply: Result<Run, OpenAIError>, code: LastErrorCode) {
    reply.Ok? && reply.value.status == Failed && reply.value.lastError.Some? && reply.value.lastError.value.code == code
  }

  /** From reply `i` on, `k` rounds of a created run that then failed with `code`. */
  predicate FailedRounds(replies: seq<Result<Run, OpenAIError>>, i: nat, k: nat, code: LastErrorCode) {
    i + 2 * k <= |replies|
    && forall r :: 0 <= r < k ==> replies[i + 2 * r].Ok? && FailedWith(replies[i + 2 * r + 1], code)
  }

  lemma FailedRoundsTail(replies: seq<Result<Run, OpenAIError>>, i: nat, k: nat, code: LastErrorCode)
    requires k > 0 && FailedRounds(replies, i, k, code)
    ensures replies[i].Ok? && FailedWith(replies[i + 1], code) && FailedRounds(replies, i + 2, k - 1, code)
  {
    assert replies[i + 2 * 0].Ok?;
    forall r | 0 <= r < k - 1 ensures replies[i + 2 + 2 * r].Ok? && FailedWith(replies[i + 2 + 2 * r + 1], code) {
      assert i + 2 + 2 * r == i + 2 * (r + 1);
    }
  }

  /** Rate-limited runs start over with a fresh run and do not count against the budget. */
  lemma {:induction false} RateLimitIsFree(replies: seq<Result<Run, OpenAIError>>, schedule: seq<nat>, i: nat, b: nat, errors: nat, k: nat)
    requires HandledReplies(replies) && errors <= MAX_SEQUENTIAL_ERRORS && b + k <= |schedule|
    requires FailedRounds(replies, i, k, RateLimitExceeded)
    ensures RunOuter(replies, schedule, i, b, errors) == RunOuter(replies, schedule, i + 2 * k, b + k, errors)
    decreases k
  {
    if k > 0 {
      FailedRoundsTail(replies, i, k, RateLimitExceeded);
      RateLimitIsFree(replies, schedule, i + 2, b + 1, errors, k - 1);
    }
  }

  /**
   * Runs that fail with a server error count against the budget: with the counter at
   * `errors`, the loop starts over after each of the first `5 - errors` of them and gives
   * up at the next.
   */
  lemma {:induction false} ServerErrorsCount(replies: seq<Result<Run, OpenAIError>>, schedule: seq<nat>, i: nat, b: nat, errors: nat, k: nat)
    requires HandledReplies(replies) && errors <= MAX_SEQUENTIAL_ERRORS && b + k <= |schedule|
    requires FailedRounds(replies, i, k, ServerError)
    ensures errors + k <= MAX_SEQUENTIAL_ERRORS ==>
      RunOuter(replies, schedule, i, b, errors) == RunOuter(replies, schedule, i + 2 * k, b + k, errors + k)
    ensures errors + k > MAX_SEQUENTIAL_ERRORS ==>
      RunOuter(replies, schedule, i, b, errors).outcome.Failure?
      && RunOuter(replies, schedule, i, b, errors).outcome.error.RunRetriesExhausted?
      && RunOuter(replies, schedule, i, b, errors).outcome.error.fault.ServerFault?
    decreases k
  {
    if k > 0 {
      FailedRoundsTail(replies, i, k, ServerError);
      var fault := ServerFault(replies[i + 1].value.lastError.value.message);
      assert RunOuter(replies, schedule, i, b, errors) == RunPoll(replies, schedule, i + 1, b + 1, errors);
      assert RunPoll(replies, schedule, i + 1, b + 1, errors) == RetryOrBail(fault, replies, schedule, i + 2, b + 1, errors);
      if errors < MAX_SEQUENTIAL_ERRORS {
        ServerErrorsCount(replies, schedule, i + 2, b + 1, errors + 1, k - 1);
      }
    }
  }

  /** A reply to polling a run that counts against the budget: a failure without a code, a server error, an incomplete run. */
  predicate CountedFault(reply: Result<Run, OpenAIError>) {
    reply.Ok? &&
      (reply.value.status == Incomplete
       || (reply.value.status == Failed
           && (reply.value.lastError.None? || reply.value.lastError.value.code == ServerError)))
  }

  /**
   * A transport or decoding error of either request counts against the budget: the loop
   * starts over with the counter one higher, or gives up once it is at 5.
   */
  lemma TransportFaultsCount(replies: seq<Result<Run, OpenAIError>>, schedule: seq<nat>, i: nat, b: nat, errors: nat)
    requires HandledReplies(replies) && b < |schedule| && errors <= MAX_SEQUENTIAL_ERRORS
    requires i < |replies| && replies[i].Err? && Retryable(replies[i].error)
    ensures errors < MAX_SEQUENTIAL_ERRORS ==>
      RunOuter(replies, schedule, i, b, errors) == RunOuter(replies, schedule, i + 1, b + 1, errors + 1)
      && RunPoll(replies, schedule, i, b, errors) == RunOuter(replies, schedule, i + 1, b, errors + 1)
    ensures errors == MAX_SEQUENTIAL_ERRORS ==>
      RunOuter(replies, schedule, i, b, errors).outcome == Failure(RunRetriesExhausted(Transport(CreateRun, replies[i].error)))
      && RunPoll(replies, schedule, i, b, errors).outcome == Failure(RunRetriesExhausted(Transport(RetrieveRun, replies[i].error)))
  {
  }

  /**
   * A created run that then fails without a code, with a server error, or comes back
   * incomplete counts against the budget in the same way.
   */
  lemma PollFaultsCount(replies: seq<Result<Run, OpenAIError>>, schedule: seq<nat>, i: nat, b: nat, errors: nat)
    requires HandledReplies(replies) && b < |schedule| && errors <= MAX_SEQUENTIAL_ERRORS
    requires i + 1 < |replies| && replies[i].Ok? && CountedFault(replies[i + 1])
    ensures errors < MAX_SEQUENTIAL_ERRORS ==>
      RunOuter(replies, schedule, i, b, errors) == RunOuter(replies, schedule, i + 2, b + 1, errors + 1)
    ensures errors == MAX_SEQUENTIAL_ERRORS ==>
      RunOuter(replies, schedule, i, b, errors).outcome.Failure?
      && RunOuter(replies, schedule, i, b, errors).outcome.error.RunRetriesExhausted?
  {
    var run := replies[i + 1].value;
    var fault := if run.status == Incomplete then IncompleteRun(run.incompleteReason.value)
                 else if run.lastError.None? then FailedWithoutError
                 else ServerFault(run.lastError.value.message);
    assert RunOuter(replies, schedule, i, b, errors) == RunPoll(replies, schedule, i + 1, b + 1, errors);
    assert RunPoll(replies, schedule, i + 1, b + 1, errors) == RetryOrBail(fault, replies, schedule, i + 2, b + 1, errors);
  }

  /**
   * The budget of a fresh loop: a run that completes after five server errors is
   * returned, a sixth server error ends the call.
   */
  lemma FiveServerErrorsAreTolerated(replies: seq<Result<Run, OpenAIError>>, schedule: seq<nat>, k: nat)
    requires HandledReplies(replies) && k <= |schedule| && FailedRounds(replies, 0, k, ServerError)
    ensures k > MAX_SEQUENTIAL_ERRORS ==> RunToCompletion(replies, schedule).outcome.Failure?
    ensures k <= MAX_SEQUENTIAL_ERRORS && k < |schedule| && 2 * k + 1 < |replies|
      && replies[2 * k].Ok? && replies[2 * k + 1].Ok? && replies[2 * k + 1].value.status == Completed
      ==> RunToCompletion(replies, schedule).outcome == Success(replies[2 * k + 1].value)
  {
    ServerErrorsCount(replies, schedule, 0, 0, 0, k);
  }

  /** Queued and in-progress runs are polled again, with the counter untouched. */
  lemma {:induction false} WaitingRunsArePolled(replies: seq<Result<Run, OpenAIError>>, schedule: seq<nat>, i: nat, b: nat, errors: nat, k: nat)
    requires HandledReplies(replies) && b <= |schedule| && errors <= MAX_SEQUENTIAL_ERRORS && i + k <= |replies|
    requires forall j :: i <= j < i + k ==> replies[j].Ok? && replies[j].value.status in {Queued, InProgress}
    ensures RunPoll(replies, schedule, i, b, errors) == RunPoll(replies, schedule, i + k, b, errors)
    decreases k
  {
    if k > 0 {
      WaitingRunsArePolled(replies, schedule, i + 1, b, errors, k - 1);
    }
  }

  /**
   * A completed run is returned as it is, after any number of queued or in-progress
   * polls, with no further delay taken and the counter untouched.
   */
  lemma CompletedRunIsReturned(replies: seq<Result<Run, OpenAIError>>, schedule: seq<nat>, i: nat, b: nat, errors: nat, k: nat)
    requires HandledReplies(replies) && b <= |schedule| && errors <= MAX_SEQUENTIAL_ERRORS && i + k < |replies|
    requires forall j :: i <= j < i + k ==> replies[j].Ok? && replies[j].value.status in {Queued, InProgress}
    requires replies[i + k].Ok? && replies[i + k].value.status == Completed
    ensures RunPoll(replies, schedule, i, b, errors) == RunEnd(Success(replies[i + k].value), i + k + 1, b, errors)
  {
    WaitingRunsArePolled(replies, schedule, i, b, errors, k);
  }

  /** The cause a run ends the call with, whatever the counter, if its status is fatal. */
  function FatalCause(run: Run): (c: Option<Cause>)
    ensures c.Some? <==> run.status in {Cancelling, Cancelled, Expired} || FailedWith(Ok(run), InvalidPrompt)
  {
    match run.status
    case Cancelling => Some(RunCancelled)
    case Cancelled => Some(RunCancelled)
    case Expired => Some(RunExpired)
    case Failed =>
      if run.lastError.Some? && run.lastError.value.code == InvalidPrompt
      then Some(RunInvalidPrompt(run.lastError.value.message))
      else None
    case _ => None
  }

  /** Cancelled, expired and invalid-prompt runs end the call at once, whatever the counter. */
  lemma FatalStatusFails(replies: seq<Result<Run, OpenAIError>>, schedule: seq<nat>, i: nat, b: nat)
    requires HandledReplies(replies) && b <= |schedule| && i < |replies|
    requires replies[i].Ok? && FatalCause(replies[i].value).Some?
    ensures forall errors: nat :: errors <= MAX_SEQUENTIAL_ERRORS ==>
      RunPoll(replies, schedule, i, b, errors).outcome == Failure(FatalCause(replies[i].value).value)
  {
  }

  /** Every iteration of the outer loop, the first included, takes a delay first. */
  lemma NoDelayNoRun(replies: seq<Result<Run, OpenAIError>>)
    requires HandledReplies(replies)
    ensures RunToCompletion(replies, []) == RunEnd(Failure(RunBackoffExhausted), 0, 0, 0)
  {
  }

  // ---------------------------------------------------------------------------
  // `OpenAiGPT::translate`
  // ---------------------------------------------------------------------------

  datatype MessageContent = Text(value: string) | ImageFile | ImageUrl | Refusal

  datatype Message = Message(content: seq<MessageContent>)

  /** The replies one scripted request gets, and its backoff schedule. */
  datatype Script<+R> = Script(replies: seq<Result<R, OpenAIError>>, schedule: seq<nat>)

  /**
   * The service's side of one subsection: the replies to posting the message, to the
   * run, and to listing the run's messages.
   */
  datatype Turn = Turn(post: Script<()>, run: Script<Run>, listing: Script<seq<Message>>)

  /**
   * The reply check as written: a wrong number of content blocks is reported with the
   * number of messages, which is 1 at that point.
   */
  function ReadReplyAsWritten(msgs: seq<Message>): (r: Result<Subsection, Cause>)
    ensures r.Err? && r.error.WrongContentCount? ==> r.error.count == 1
  {
    if |msgs| != 1 then Err(WrongMessageCount(|msgs|))
    else if |msgs[0].content| != 1 then Err(WrongContentCount(|msgs|))
    else match msgs[0].content[0]
      case Text(v) => Ok(v)
      case _ => Err(NonTextContent)
  }

  /**
   * The reply check: exactly one message with exactly one text block, whose text is the
   * translation; a failure reports the count that is wrong.
   */
  function ReadReply(msgs: seq<Message>): (r: Result<Subsection, Cause>)
    ensures r.Ok? <==> |msgs| == 1 && |msgs[0].content| == 1 && msgs[0].content[0].Text?
    ensures r.Ok? ==> r.value == msgs[0].content[0].value
    ensures r.Err? ==> match r.error
      case WrongMessageCount(n) => n == |msgs| != 1
      case WrongContentCount(n) => |msgs| == 1 && n == |msgs[0].content| != 1
      case NonTextContent => |msgs| == 1 && |msgs[0].content| == 1 && !msgs[0].content[0].Text?
      case _ => false
  {
    if |msgs| != 1 then Err(WrongMessageCount(|msgs|))
    else if |msgs[0].content| != 1 then Err(WrongContentCount(|msgs[0].content|))
    else match msgs[0].content[0]
      case Text(v) => Ok(v)
      case _ => Err(NonTextContent)
  }

  /** The check as written accepts and rejects the same replies; only the reported count differs. */
  lemma ReadReplyAsWrittenAgrees(msgs: seq<Message>)
    ensures ReadReplyAsWritten(msgs).Ok? <==> ReadReply(msgs).Ok?
    ensures ReadReply(msgs).Err? && !ReadReply(msgs).error.WrongContentCount? ==> ReadReplyAsWritten(msgs) == ReadReply(msgs)
    ensures ReadReply(msgs).Ok? ==> ReadReplyAsWritten(msgs) == ReadReply(msgs)
  {
  }

  /** A message with two text blocks is reported as having one. */
  lemma ReadReplyAsWrittenMiscounts()
    ensures ReadReplyAsWritten([Message([Text("a"), Text("b")])]) == Err(WrongContentCount(1))
    ensures ReadReply([Message([Text("a"), Text("b")])]) == Err(WrongContentCount(2))
  {
  }

  /** One subsection: post it, wait for the run, read the reply. */
  function Exchange(turn: Turn): (r: Outcome<Subsection, LLMError>)
    requires HandledReplies(turn.run.replies)
    ensures r.Failure? ==> r.error.InteractionError?
  {
    match Request(turn.post.replies, turn.post.schedule).outcome
    case Failure(e) => Failure(e)
    case Pending => Pending
    case Success(_) =>
      match RunToCompletion(turn.run.replies, turn.run.schedule).outcome
      case Failure(c) => Failure(InteractionError(c))
      case Pending => Pending
      case Success(_) =>
        match Request(turn.listing.replies, turn.listing.schedule).outcome
        case Failure(e) => Failure(e)
        case Pending => Pending
        case Success(msgs) =>
          match ReadReply(msgs)
          case Ok(t) => Success(t)
          case Err(c) => Failure(InteractionError(c))
  }

  predicate HandledTurns(turns: seq<Turn>) {
    forall k :: 0 <= k < |turns| ==> HandledReplies(turns[k].run.replies)
  }

  /** What the exchange of each turn comes to. */
  function Exchanges(turns: seq<Turn>): (rs: seq<Outcome<Subsection, LLMError>>)
    requires HandledTurns(turns)
    ensures |rs| == |turns|
    decreases |turns|
  {
    if turns == [] then [] else [Exchange(turns[0])] + Exchanges(turns[1..])
  }

  lemma {:induction false} ExchangesAt(turns: seq<Turn>, k: nat)
    requires HandledTurns(turns) && k < |turns|
    ensures Exchanges(turns)[k] == Exchange(turns[k])
    decreases k
  {
    if k > 0 {
      ExchangesAt(turns[1..], k - 1);
    }
  }

  /** The translations of the first `n` exchanges, in order, or the first one that did not succeed. */
  function Collect(results: seq<Outcome<Subsection, LLMError>>, n: nat): Outcome<Section, LLMError> {
    if n == 0 then Success([])
    else match Collect(results, n - 1)
      case Failure(e) => Failure(e)
      case Pending => Pending
      case Success(done) =>
        if n > |results| then Pending
        else match results[n - 1]
          case Failure(e) => Failure(e)
          case Pending => Pending
          case Success(t) => Success(done + [t])
  }

  /** What `translate` returns for a section when the service behaves as `turns` says. */
  function TranslateSection(section: Section, turns: seq<Turn>): Outcome<Section, LLMError>
    requires HandledTurns(turns)
  {
    Collect(Exchanges(turns), |section|)
  }

  /**
   * A translation has exactly one subsection per subsection of the input, in order, each
   * the text its exchange read; it succeeds exactly when every exchange does, and a
   * failure is the failure of the first exchange that did not succeed.
   */
  lemma {:induction false} CollectShape(results: seq<Outcome<Subsection, LLMError>>, n: nat)
    ensures var r := Collect(results, n);
      && (r.Success? <==> n <= |results| && forall k :: 0 <= k < n ==> results[k].Success?)
      && (r.Success? ==> |r.value| == n && forall k :: 0 <= k < n ==> r.value[k] == results[k].value)
      && (r.Failure? ==> exists k :: (0 <= k < n && k < |results| && results[k] == Failure(r.error)
            && forall j :: 0 <= j < k ==> results[j].Success?))
  {
    if n > 0 {
      CollectShape(results, n - 1);
      var r := Collect(results, n - 1);
      if r.Success? && n <= |results| && results[n - 1].Success? {
        assert Collect(results, n).value == r.value + [results[n - 1].value];
      }
    }
  }

  lemma CollectNext(results: seq<Outcome<Subsection, LLMError>>, i: nat, done: Section)
    requires i < |results| && Collect(results, i) == Success(done)
    ensures Collect(results, i + 1) == match results[i]
      case Success(t) => Success(done + [t])
      case Failure(e) => Failure(e)
      case Pending => Pending
  {
  }

  /** Once an exchange fails or the script runs out, later subsections change nothing. */
  lemma {:induction false} CollectStops(results: seq<Outcome<Subsection, LLMError>>, n: nat, m: nat)
    requires n <= m && !Collect(results, n).Success?
    ensures Collect(results, m) == Collect(results, n)
    decreases m - n
  {
    if n < m {
      CollectStops(results, n, m - 1);
    }
  }

  /** The translation of a section, in terms of the exchanges of its subsections. */
  lemma TranslateSectionShape(section: Section, turns: seq<Turn>)
    requires HandledTurns(turns)
    ensures var r := TranslateSection(section, turns);
      && (r.Success? <==> |section| <= |turns| && forall k :: 0 <= k < |section| ==> Exchange(turns[k]).Success?)
      && (r.Success? ==> |r.value| == |section| && forall k :: 0 <= k < |section| ==> r.value[k] == Exchange(turns[k]).value)
  {
    var results := Exchanges(turns);
    forall k | 0 <= k < |turns| ensures results[k] == Exchange(turns[k]) {
      ExchangesAt(turns, k);
    }
    CollectShape(results, |section|);
  }

  /** The body of the loop of `translate`: post one subsection, wait for the run, read the reply. */
  method TranslateOne(turn: Turn) returns (r: Outcome<Subsection, LLMError>)
    requires HandledReplies(turn.run.replies)
    ensures r == Exchange(turn)
  {
    var posted := RunOpenAiRequest(turn.post.replies, turn.post.schedule);
    if !posted.Success? {
      return if posted.Pending? then Pending else Failure(posted.error);
    }
    var run := RunWithBackoff(turn.run.replies, turn.run.schedule);
    if !run.Success? {
      return if run.Pending? then Pending else Failure(InteractionError(run.error));
    }
    var msgs := RunOpenAiRequest(turn.listing.replies, turn.listing.schedule);
    if !msgs.Success? {
      return if msgs.Pending? then Pending else Failure(msgs.error);
    }
    var translated := ReadReply(msgs.value);
    if translated.Err? {
      return Failure(InteractionError(translated.error));
    }
    return Success(translated.value);
  }

  /** `translate`: the loop over the subsections, one exchange each. */
  method Translate(section: Section, turns: seq<Turn>) returns (r: Outcome<Section, LLMError>)
    requires HandledTurns(turns)
    ensures r == TranslateSection(section, turns)
  {
    ghost var results := Exchanges(turns);
    var subsections: Section := [];
    for i := 0 to |section|
      invariant Collect(results, i) == Success(subsections)
    {
      if i == |turns| {
        CollectStops(results, i + 1, |section|);
        return Pending;
      }
      var translated := TranslateOne(turns[i]);
      ExchangesAt(turns, i);
      CollectNext(results, i, subsections);
      if !translated.Success? {
        CollectStops(results, i + 1, |section|);
        return if translated.Pending? then Pending else Failure(translated.error);
      }
      subsections := subsections + [translated.value];
    }
    return Success(subsections);
  }

  // ---------------------------------------------------------------------------
  // `From<OpenAIError> for LLMError`
  // ---------------------------------------------------------------------------

  /**
   * Transport and stream errors are connection errors, error objects of the service are
   * API errors, and everything else is another error; the client error is carried along.
   */
  function FromOpenAIError(e: OpenAIError): (r: LLMError)
    ensures r.cause == ClientError(e)
    ensures r.ConnectionError? <==> e.Reqwest? || e.StreamError?
    ensures r.LlmApiError? <==> e.ApiError?
    ensures r.OtherLlmError? <==> e.JSONDeserialize? || e.FileSaveError? || e.FileReadError? || e.InvalidArgument?
    ensures !r.InteractionError?
  {
    match e
    case Reqwest => ConnectionError(ClientError(e))
    case ApiError => LlmApiError(ClientError(e))
    case JSONDeserialize => OtherLlmError(ClientError(e))
    case FileSaveError => OtherLlmError(ClientError(e))
    case FileReadError => OtherLlmError(ClientError(e))
    case StreamError => ConnectionError(ClientError(e))
    case InvalidArgument => OtherLlmError(ClientError(e))
  }

  // ---------------------------------------------------------------------------
  // `OpenAiGPTBuilder::build`
  // ---------------------------------------------------------------------------

  const ASSISTANT_NAME := "rosetta-translator"

  datatype Assistant = Assistant(id: string, name: Option<string>)

  datatype Thread = Thread(id: string)

  /** The assistant and the conversation thread a built translator talks to. */
  datatype Session = Session(assistant: Assistant, thread: Thread)

  /** The first listed assistant with the translator's name. */
  function FindAssistant(assistants: seq<Assistant>): (r: Option<Assistant>)
    ensures r.Some? <==> exists k :: 0 <= k < |assistants| && assistants[k].name == Some(ASSISTANT_NAME)
    ensures r.Some? ==> r.value.name == Some(ASSISTANT_NAME)
    ensures r.Some? ==> exists k :: (0 <= k < |assistants| && assistants[k] == r.value
      && forall j :: 0 <= j < k ==> assistants[j].name != Some(ASSISTANT_NAME))
  {
    if assistants == [] then None
    else if assistants[0].name == Some(ASSISTANT_NAME) then Some(assistants[0])
    else
      var r := FindAssistant(assistants[1..]);
      assert forall k :: 1 <= k < |assistants| ==> assistants[k] == assistants[1..][k - 1];
      r
  }

  /** The request `build` makes for the assistant. */
  datatype AssistantRequest = Update(id: string) | Create

  /** The service's side of `build`: the replies to each of its requests. */
  datatype BuildScripts = BuildScripts(
    list: Script<seq<Assistant>>,
    update: Script<Assistant>,
    create: Script<Assistant>,
    thread: Script<Thread>)

  /** What `build` returns, and which assistant request it made, if it got that far. */
  function BuildSession(scripts: BuildScripts): (Outcome<Session, LLMError>, Option<AssistantRequest>) {
    match Request(scripts.list.replies, scripts.list.schedule).outcome
    case Failure(e) => (Failure(e), None)
    case Pending => (Pending, None)
    case Success(assistants) =>
      var found := FindAssistant(assistants);
      var request := if found.Some? then Update(found.value.id) else Create;
      var saved := if found.Some? then Request(scripts.update.replies, scripts.update.schedule).outcome
                   else Request(scripts.create.replies, scripts.create.schedule).outcome;
      match saved
      case Failure(e) => (Failure(e), Some(request))
      case Pending => (Pending, Some(request))
      case Success(assistant) =>
        match Request(scripts.thread.replies, scripts.thread.schedule).outcome
        case Failure(e) => (Failure(e), Some(request))
        case Pending => (Pending, Some(request))
        case Success(thread) => (Success(Session(assistant, thread)), Some(request))
  }

  /**
   * Find-or-create: once the assistants are listed, the first one named
   * `rosetta-translator` is updated, and a new one is created only when there is none.
   */
  lemma BuildFindsOrCreates(scripts: BuildScripts)
    requires Request(scripts.list.replies, scripts.list.schedule).outcome.Success?
    ensures var assistants := Request(scripts.list.replies, scripts.list.schedule).outcome.value;
      && BuildSession(scripts).1.Some?
      && (BuildSession(scripts).1.value.Create? <==> forall k :: 0 <= k < |assistants| ==> assistants[k].name != Some(ASSISTANT_NAME))
      && (BuildSession(scripts).1.value.Update? ==> exists k :: (0 <= k < |assistants|
            && assistants[k].id == BuildSession(scripts).1.value.id && assistants[k].name == Some(ASSISTANT_NAME)
            && forall j :: 0 <= j < k ==> assistants[j].name != Some(ASSISTANT_NAME)))
  {
  }

  /** A built session holds the assistant the update or create request returned, and the new thread. */
  lemma BuildSessionParts(scripts: BuildScripts)
    requires BuildSession(scripts).0.Success?
    ensures var s := BuildSession(scripts).0.value;
      && Request(scripts.thread.replies, scripts.thread.schedule).outcome == Success(s.thread)
      && (BuildSession(scripts).1 == Some(Create) ==> Request(scripts.create.replies, scripts.create.schedule).outcome == Success(s.assistant))
      && (BuildSession(scripts).1 != Some(Create) ==> Request(scripts.update.replies, scripts.update.schedule).outcome == Success(s.assistant))
  {
  }

  /** `build`: list, update or create the assistant, open a thread. */
  method Build(scripts: BuildScripts) returns (r: Outcome<Session, LLMError>)
    ensures r == BuildSession(scripts).0
  {
    var listed := RunOpenAiRequest(scripts.list.replies, scripts.list.schedule);
    if !listed.Success? {
      return if listed.Pending? then Pending else Failure(listed.error);
    }
    var found := FindAssistant(listed.value);
    var saved;
    if found.Some? {
      saved := RunOpenAiRequest(scripts.update.replies, scripts.update.schedule);
    } else {
      saved := RunOpenAiRequest(scripts.create.replies, scripts.create.schedule);
    }
    if !saved.Success? {
      return if saved.Pending? then Pending else Failure(saved.error);
    }
    var thread := RunOpenAiRequest(scripts.thread.replies, scripts.thread.schedule);
    if !thread.Success? {
      return if thread.Pending? then Pending else Failure(thread.error);
    }
    return Success(Session(saved.value, thread.value));
  }
}
