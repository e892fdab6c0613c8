/**
 * The connection-establishment state machine of `register`: the executor is
 * created once, then the attempt block runs with a retry counter `try` that
 * starts at 0; every rescued failure either gives up (close, then exit 1) or
 * sleeps for the fixed interval, increments `try` and re-runs the whole block.
 */
module ConnectRetry {

  import opened Wrappers
  import opened ConnectionString
  import opened Trace

  /** `retry_interval = 2`, the seconds slept between two attempts. */
  const RetryInterval: int := 2
  /** The configuration defaults of `connection_retry_count` and `client_threads`. */
  const DefaultConnectionRetryCount: int := 3
  const DefaultClientThreads: int := 4

  /** What one run of `EventHubClient.createSync` does, as seen by the rescue clauses. */
  datatype Attempt =
    | Success
    | IllegalFormat                   // IllegalConnectionStringFormatException
    | IOErr                           // IOException
    | EventHubEx(isTransient: bool)   // EventHubException and its getIsTransient()
    | ExecutionEx                     // ExecutionException
    | OtherError                      // any exception neither rescue clause names

  /** Failures that end registration whatever the counter is. */
  predicate IsFatal(a: Attempt) {
    a.IllegalFormat? || a.IOErr? || a == EventHubEx(false)
  }

  /** Failures that are retried while the counter is below the retry count. */
  predicate IsRetryable(a: Attempt) {
    a.ExecutionEx? || a == EventHubEx(true)
  }

  /** How the attempt block and its rescue clauses dispose of one attempt. */
  datatype Verdict = Established | GiveUp | Retry | Escape

  /**
   * The two rescue clauses: the first gives up on a malformed string or an I/O
   * error; the second gives up on a non-transient EventHubException or once
   * `try >= connection_retry_count`, and retries otherwise.
   */
  function Classify(a: Attempt, try: int, retryCount: int): (v: Verdict)
    ensures v == Established <==> a == Success
    ensures v == Retry <==> IsRetryable(a) && try < retryCount
    ensures v == GiveUp <==> IsFatal(a) || (IsRetryable(a) && try >= retryCount)
    ensures v == Escape <==> a == OtherError
  {
    match a
    case Success => Established
    case IllegalFormat | IOErr => GiveUp
    case EventHubEx(transient) => if transient != true || try >= retryCount then GiveUp else Retry
    case ExecutionEx => if try >= retryCount then GiveUp else Retry
    case OtherError => Escape
  }

  /**
   * How `register` ends. `sleeps` is the number of retry waits before the end,
   * which is also the value of `try` at the last attempt.
   */
  datatype RegisterResult =
    | Ignored                           // no endpoint: the no-op callback is wired
    | Connected(sleeps: nat)            // client created, `send_record` wired
    | Exited(status: int, sleeps: nat)  // `close()` then `exit(status)`
    | Raised(sleeps: nat)               // an exception left `register`

  function Waits(r: RegisterResult): (sleeps: nat) {
    if r.Ignored? then 0 else r.sleeps
  }

  datatype Run = Run(result: RegisterResult, calls: seq<Call>)

  /** The calls of one retried attempt: `createSync`, the retry log line, the sleep. */
  function RetryRound(s: string): (round: seq<Call>) {
    [CreateSync(s), Log(ConnectRetry), Sleep(RetryInterval)]
  }

  /** The calls of k retried attempts in a row. */
  function RetryPrefix(s: string, k: nat): (calls: seq<Call>)
  {
    if k == 0 then [] else RetryRound(s) + RetryPrefix(s, k - 1)
  }

  /** k retried attempts make k `createSync` calls, k retry log lines and k sleeps of RetryInterval, and nothing else. */
  lemma {:induction false} RetryPrefixCount(s: string, k: nat, c: Call)
    ensures Count(RetryPrefix(s, k), c)
      == if c == CreateSync(s) || c == Log(ConnectRetry) || c == Sleep(RetryInterval) then k else 0
  {
    if k > 0 {
      RetryPrefixCount(s, k - 1, c);
      CountAppend(RetryRound(s), RetryPrefix(s, k - 1), c);
      var round := RetryRound(s);
      assert round == [CreateSync(s)] + ([Log(ConnectRetry)] + [Sleep(RetryInterval)]);
      CountAppend([CreateSync(s)], [Log(ConnectRetry)] + [Sleep(RetryInterval)], c);
      CountAppend([Log(ConnectRetry)], [Sleep(RetryInterval)], c);
    }
  }

  /** Rounds accumulate at the back as the loop runs them: one more round appends one RetryRound. */
  lemma {:induction false} RetryPrefixSnoc(s: string, k: nat)
    ensures RetryPrefix(s, k + 1) == RetryPrefix(s, k) + RetryRound(s)
  {
    if k > 0 {
      RetryPrefixSnoc(s, k - 1);
      assert RetryPrefix(s, k + 1) == RetryRound(s) + (RetryPrefix(s, k - 1) + RetryRound(s));
    }
  }

  /** The calls of giving up: the error log line, `close` (with an executor), then `exit(1)`. */
  function AbortCalls(hadClient: bool): (calls: seq<Call>) {
    [Log(ConnectFailed)] + CloseCalls(hadClient, true) + [Exit(1)]
  }

  /** The last attempt of the block, one that does not retry. */
  function FinalAttempt(s: string, hadClient: bool, v: Verdict, try: nat): (run: Run)
    requires v != Retry
    ensures Waits(run.result) == try && !run.result.Ignored?
    ensures run.result.Connected? <==> v == Established
    ensures run.result.Exited? <==> v == GiveUp
  {
    match v
    case Established => Run(Connected(try), [CreateSync(s), OnEvent(SendRecord)])
    case GiveUp =>
      Run(Exited(1, try), [CreateSync(s)] + AbortCalls(hadClient))
    case Escape => Run(Raised(try), [CreateSync(s)])
  }

  /** Giving up logs once, closes the client when there is one, shuts the executor down once and exits once. */
  lemma AbortCallsCount(hadClient: bool, c: Call)
    ensures Count(AbortCalls(hadClient), c)
      == (if c == Log(ConnectFailed) then 1 else 0) + (if hadClient && c == CloseSync then 1 else 0)
       + (if c == Shutdown then 1 else 0) + (if c == Exit(1) then 1 else 0)
  {
    CountAppend([Log(ConnectFailed)] + CloseCalls(hadClient, true), [Exit(1)], c);
    CountAppend([Log(ConnectFailed)], CloseCalls(hadClient, true), c);
    CloseCallsCount(hadClient, true, c);
  }

  /** The calls of the final attempt, counted: one `createSync`, and what connecting or giving up adds. */
  lemma FinalAttemptCount(s: string, hadClient: bool, v: Verdict, try: nat, c: Call)
    requires v != Retry
    ensures Count(FinalAttempt(s, hadClient, v, try).calls, c)
      == (if c == CreateSync(s) then 1 else 0)
       + (if v == Established && c == OnEvent(SendRecord) then 1 else 0)
       + (if v == GiveUp then Count(AbortCalls(hadClient), c) else 0)
  {
  }

  /**
   * The attempt block from counter value `try` on. `attempts(i)` is what the
   * attempt made with `try == i` does. `hadClient` says whether
   * `@eventhub_client` was already non-nil, which decides what `close` does.
   */
  function ConnectLoop(cs: Option<string>, retryCount: int, hadClient: bool, attempts: nat -> Attempt, try: nat): (run: Run)
    decreases if try < retryCount then retryCount - try else 0
  {
    if IsAbsent(cs) then
      Run(Ignored, [Log(ConnectionStringEmpty), OnEvent(LogNoMsgSent)])
    else
      var v := Classify(attempts(try), try, retryCount);
      if v == Retry then
        var rest := ConnectLoop(cs, retryCount, hadClient, attempts, try + 1);
        Run(rest.result, RetryRound(cs.value) + rest.calls)
      else
        FinalAttempt(cs.value, hadClient, v, try)
  }

  /** The whole of `register`: the executor first, then the attempt block with `try = 0`. */
  function RegisterRun(cs: Option<string>, retryCount: int, threads: int, hadClient: bool, attempts: nat -> Attempt): (run: Run)
  {
    var loop := ConnectLoop(cs, retryCount, hadClient, attempts, 0);
    Run(loop.result, [NewScheduledThreadPool(threads)] + loop.calls)
  }

  /** The counter value of the first attempt from `try` on that does not retry. */
  ghost function StopIndex(retryCount: int, attempts: nat -> Attempt, try: nat): (j: nat)
    ensures try <= j
    ensures try < j ==> j <= retryCount
    ensures forall i :: try <= i < j ==> Classify(attempts(i), i, retryCount) == Retry
    ensures Classify(attempts(j), j, retryCount) != Retry
    decreases if try < retryCount then retryCount - try else 0
  {
    if Classify(attempts(try), try, retryCount) == Retry then StopIndex(retryCount, attempts, try + 1) else try
  }

  /** Any counter value with every earlier attempt retried and itself not is the stop index. */
  lemma StopIndexUnique(retryCount: int, attempts: nat -> Attempt, j: nat)
    requires forall i :: 0 <= i < j ==> Classify(attempts(i), i, retryCount) == Retry
    requires Classify(attempts(j), j, retryCount) != Retry
    ensures StopIndex(retryCount, attempts, 0) == j
  {
  }

  /**
   * With an endpoint, the block from `try` is j - try retried rounds followed
   * by the final attempt j, the first one that does not retry.
   */
  lemma {:induction false} LoopShape(cs: Option<string>, retryCount: int, hadClient: bool, attempts: nat -> Attempt, try: nat)
    requires !IsAbsent(cs)
    ensures var j := StopIndex(retryCount, attempts, try);
      var last := FinalAttempt(cs.value, hadClient, Classify(attempts(j), j, retryCount), j);
      ConnectLoop(cs, retryCount, hadClient, attempts, try) == Run(last.result, RetryPrefix(cs.value, j - try) + last.calls)
    decreases if try < retryCount then retryCount - try else 0
  {
    var j := StopIndex(retryCount, attempts, try);
    if Classify(attempts(try), try, retryCount) == Retry {
      LoopShape(cs, retryCount, hadClient, attempts, try + 1);
      assert j == StopIndex(retryCount, attempts, try + 1);
      var rest := ConnectLoop(cs, retryCount, hadClient, attempts, try + 1);
      assert ConnectLoop(cs, retryCount, hadClient, attempts, try) == Run(rest.result, RetryRound(cs.value) + rest.calls);
      assert RetryPrefix(cs.value, j - try) == RetryRound(cs.value) + RetryPrefix(cs.value, j - (try + 1));
    } else {
      assert j == try;
      assert RetryPrefix(cs.value, 0) == [];
    }
  }

  /**
   * `register` with an endpoint: the executor, then one retried round per
   * sleep, then the final attempt, whose counter value is the number of sleeps.
   */
  lemma RegisterShape(cs: Option<string>, retryCount: int, threads: int, hadClient: bool, attempts: nat -> Attempt)
    requires !IsAbsent(cs)
    ensures var j := StopIndex(retryCount, attempts, 0);
      var last := FinalAttempt(cs.value, hadClient, Classify(attempts(j), j, retryCount), j);
      RegisterRun(cs, retryCount, threads, hadClient, attempts)
        == Run(last.result, [NewScheduledThreadPool(threads)] + RetryPrefix(cs.value, j) + last.calls)
  {
    LoopShape(cs, retryCount, hadClient, attempts, 0);
  }

  /**
   * The run of `register` when attempt j is the first that does not retry:
   * the executor, j retried rounds, then the final attempt j. Stated for a
   * trace `calls` that extends `before` by exactly those calls.
   */
  lemma RegisterStopsAt(cs: Option<string>, retryCount: int, threads: int, hadClient: bool, attempts: nat -> Attempt,
                        j: nat, before: seq<Call>, calls: seq<Call>, result: RegisterResult)
    requires !IsAbsent(cs)
    requires forall i :: 0 <= i < j ==> Classify(attempts(i), i, retryCount) == Retry
    requires Classify(attempts(j), j, retryCount) != Retry
    requires var last := FinalAttempt(cs.value, hadClient, Classify(attempts(j), j, retryCount), j);
      calls == before + [NewScheduledThreadPool(threads)] + RetryPrefix(cs.value, j) + last.calls
      && result == last.result
    ensures var run := RegisterRun(cs, retryCount, threads, hadClient, attempts);
      result == run.result && calls == before + run.calls
  {
    StopIndexUnique(retryCount, attempts, j);
    RegisterShape(cs, retryCount, threads, hadClient, attempts);
    var last := FinalAttempt(cs.value, hadClient, Classify(attempts(j), j, retryCount), j);
    assert calls == before + ([NewScheduledThreadPool(threads)] + RetryPrefix(cs.value, j) + last.calls);
  }

  /** Every call of `register` with an endpoint, counted. */
  lemma RegisterCount(cs: Option<string>, retryCount: int, threads: int, hadClient: bool, attempts: nat -> Attempt, c: Call)
    requires !IsAbsent(cs)
    ensures var run := RegisterRun(cs, retryCount, threads, hadClient, attempts);
      var j := StopIndex(retryCount, attempts, 0);
      var v := Classify(attempts(j), j, retryCount);
      && run.result == FinalAttempt(cs.value, hadClient, v, j).result
      && Waits(run.result) == j
      && Count(run.calls, c)
         == (if c == NewScheduledThreadPool(threads) then 1 else 0)
          + (if c == CreateSync(cs.value) || c == Log(ConnectRetry) || c == Sleep(RetryInterval) then j else 0)
          + Count(FinalAttempt(cs.value, hadClient, v, j).calls, c)
  {
    RegisterShape(cs, retryCount, threads, hadClient, attempts);
    var j := StopIndex(retryCount, attempts, 0);
    var last := FinalAttempt(cs.value, hadClient, Classify(attempts(j), j, retryCount), j);
    CountAppend([NewScheduledThreadPool(threads)] + RetryPrefix(cs.value, j), last.calls, c);
    CountAppend([NewScheduledThreadPool(threads)], RetryPrefix(cs.value, j), c);
    RetryPrefixCount(cs.value, j, c);
  }

  /** A nil, empty or whitespace-only connection string: no client, no sleep, the no-op callback. */
  lemma AbsentConnectionStringIgnored(cs: Option<string>, retryCount: int, threads: int, hadClient: bool, attempts: nat -> Attempt)
    requires IsAbsent(cs)
    ensures RegisterRun(cs, retryCount, threads, hadClient, attempts)
      == Run(Ignored, [NewScheduledThreadPool(threads), Log(ConnectionStringEmpty), OnEvent(LogNoMsgSent)])
  {
  }

  /**
   * With an endpoint: at most max(retryCount, 0) sleeps, all of RetryInterval
   * seconds, and one `createSync` more than sleeps.
   */
  lemma RegisterBounds(cs: Option<string>, retryCount: int, threads: int, hadClient: bool, attempts: nat -> Attempt)
    requires !IsAbsent(cs)
    ensures var run := RegisterRun(cs, retryCount, threads, hadClient, attempts);
      var sleeps := Waits(run.result);
      && !run.result.Ignored?
      && sleeps <= (if retryCount > 0 then retryCount else 0)
      && Count(run.calls, Sleep(RetryInterval)) == sleeps
      && (forall t :: t != RetryInterval ==> Sleep(t) !in run.calls)
      && Count(run.calls, CreateSync(cs.value)) == sleeps + 1
  {
    RegisterCount(cs, retryCount, threads, hadClient, attempts, Sleep(RetryInterval));
    RegisterCount(cs, retryCount, threads, hadClient, attempts, CreateSync(cs.value));
    var j := StopIndex(retryCount, attempts, 0);
    var v := Classify(attempts(j), j, retryCount);
    FinalAttemptCount(cs.value, hadClient, v, j, Sleep(RetryInterval));
    AbortCallsCount(hadClient, Sleep(RetryInterval));
    FinalAttemptCount(cs.value, hadClient, v, j, CreateSync(cs.value));
    AbortCallsCount(hadClient, CreateSync(cs.value));
    forall t | t != RetryInterval
      ensures Sleep(t) !in RegisterRun(cs, retryCount, threads, hadClient, attempts).calls
    {
      RegisterCount(cs, retryCount, threads, hadClient, attempts, Sleep(t));
      FinalAttemptCount(cs.value, hadClient, v, j, Sleep(t));
      AbortCallsCount(hadClient, Sleep(t));
    }
  }

  /** The executor is created exactly once, as the first call, before any attempt. */
  lemma ExecutorCreatedOnce(cs: Option<string>, retryCount: int, threads: int, hadClient: bool, attempts: nat -> Attempt)
    ensures var run := RegisterRun(cs, retryCount, threads, hadClient, attempts);
      run.calls[0] == NewScheduledThreadPool(threads) && Count(run.calls, NewScheduledThreadPool(threads)) == 1
  {
    var c := NewScheduledThreadPool(threads);
    if IsAbsent(cs) {
      assert RegisterRun(cs, retryCount, threads, hadClient, attempts).calls == [c] + [Log(ConnectionStringEmpty), OnEvent(LogNoMsgSent)];
      CountAppend([c], [Log(ConnectionStringEmpty), OnEvent(LogNoMsgSent)], c);
    } else {
      RegisterCount(cs, retryCount, threads, hadClient, attempts, c);
      var j := StopIndex(retryCount, attempts, 0);
      FinalAttemptCount(cs.value, hadClient, Classify(attempts(j), j, retryCount), j, c);
      AbortCallsCount(hadClient, c);
    }
  }

  /**
   * `register` connects after exactly k sleeps if and only if there is an
   * endpoint, k <= max(retryCount, 0), the first k attempts failed in a
   * retryable way and attempt k succeeded.
   */
  lemma ConnectedIff(cs: Option<string>, retryCount: int, threads: int, hadClient: bool, attempts: nat -> Attempt, k: nat)
    ensures RegisterRun(cs, retryCount, threads, hadClient, attempts).result == Connected(k)
      <==> && !IsAbsent(cs)
           && k <= (if retryCount > 0 then retryCount else 0)
           && (forall i :: 0 <= i < k ==> IsRetryable(attempts(i)))
           && attempts(k) == Success
  {
    if !IsAbsent(cs) {
      RegisterShape(cs, retryCount, threads, hadClient, attempts);
      if k <= (if retryCount > 0 then retryCount else 0) && (forall i :: 0 <= i < k ==> IsRetryable(attempts(i))) && attempts(k) == Success {
        forall i | 0 <= i < k
          ensures Classify(attempts(i), i, retryCount) == Retry
        {
        }
        StopIndexUnique(retryCount, attempts, k);
      }
    }
  }

  /** retryCount + 1 retryable failures in a row end in exit status 1 after retryCount sleeps. */
  lemma ExhaustedRetriesExit(cs: Option<string>, retryCount: int, threads: int, hadClient: bool, attempts: nat -> Attempt)
    requires !IsAbsent(cs) && retryCount >= 0
    requires forall i :: 0 <= i <= retryCount ==> IsRetryable(attempts(i))
    ensures RegisterRun(cs, retryCount, threads, hadClient, attempts).result == Exited(1, retryCount)
  {
    RegisterShape(cs, retryCount, threads, hadClient, attempts);
    StopIndexUnique(retryCount, attempts, retryCount);
  }

  /** With a retry count of 0 (or less) the first retryable failure already exits, without a sleep. */
  lemma NoRetryCountExitsOnFirstFailure(cs: Option<string>, retryCount: int, threads: int, hadClient: bool, attempts: nat -> Attempt)
    requires !IsAbsent(cs) && retryCount <= 0 && IsRetryable(attempts(0))
    ensures RegisterRun(cs, retryCount, threads, hadClient, attempts)
      == Run(Exited(1, 0), [NewScheduledThreadPool(threads), CreateSync(cs.value)] + AbortCalls(hadClient))
  {
  }

  /**
   * A malformed string, an I/O error or a non-transient EventHubException ends
   * the block at that attempt, whatever the counter: close, then exit 1.
   */
  lemma FatalAttemptExits(cs: Option<string>, retryCount: int, hadClient: bool, attempts: nat -> Attempt, try: nat)
    requires !IsAbsent(cs) && IsFatal(attempts(try))
    ensures ConnectLoop(cs, retryCount, hadClient, attempts, try)
      == Run(Exited(1, try), [CreateSync(cs.value)] + AbortCalls(hadClient))
  {
  }

  /**
   * A transient EventHubException or an ExecutionException below the retry
   * count: one sleep of RetryInterval, then the whole block again with try + 1.
   */
  lemma RetryableAttemptSleepsOnce(cs: Option<string>, retryCount: int, hadClient: bool, attempts: nat -> Attempt, try: nat)
    requires !IsAbsent(cs) && IsRetryable(attempts(try)) && try < retryCount
    ensures var rest := ConnectLoop(cs, retryCount, hadClient, attempts, try + 1);
      ConnectLoop(cs, retryCount, hadClient, attempts, try)
        == Run(rest.result, [CreateSync(cs.value), Log(ConnectRetry), Sleep(RetryInterval)] + rest.calls)
  {
  }

  /**
   * An exit is the last call, with status 1, and comes right after the calls
   * of `close`: the executor is always shut down, after `closeSync` when a
   * client existed.
   */
  lemma ExitFollowsClose(cs: Option<string>, retryCount: int, threads: int, hadClient: bool, attempts: nat -> Attempt)
    ensures var run := RegisterRun(cs, retryCount, threads, hadClient, attempts);
      var tail := AbortCalls(hadClient);
      run.result.Exited? ==> run.result.status == 1 && |run.calls| >= |tail| && run.calls[|run.calls| - |tail|..] == tail
  {
    if !IsAbsent(cs) {
      RegisterShape(cs, retryCount, threads, hadClient, attempts);
      var j := StopIndex(retryCount, attempts, 0);
      var run := RegisterRun(cs, retryCount, threads, hadClient, attempts);
      if Classify(attempts(j), j, retryCount) == GiveUp {
        var tail := AbortCalls(hadClient);
        var pre := [NewScheduledThreadPool(threads)] + RetryPrefix(cs.value, j) + [CreateSync(cs.value)];
        assert run.calls == pre + tail;
        assert run.calls[|pre|..] == tail;
      }
    }
  }

  /** `register` exits, and shuts the executor down, once when it gives up and never otherwise. */
  lemma OnlyGivingUpExits(cs: Option<string>, retryCount: int, threads: int, hadClient: bool, attempts: nat -> Attempt)
    ensures var run := RegisterRun(cs, retryCount, threads, hadClient, attempts);
      && Count(run.calls, Exit(1)) == (if run.result.Exited? then 1 else 0)
      && Count(run.calls, Shutdown) == (if run.result.Exited? then 1 else 0)
  {
    if !IsAbsent(cs) {
      RegisterCount(cs, retryCount, threads, hadClient, attempts, Exit(1));
      RegisterCount(cs, retryCount, threads, hadClient, attempts, Shutdown);
      var j := StopIndex(retryCount, attempts, 0);
      var v := Classify(attempts(j), j, retryCount);
      FinalAttemptCount(cs.value, hadClient, v, j, Exit(1));
      AbortCallsCount(hadClient, Exit(1));
      FinalAttemptCount(cs.value, hadClient, v, j, Shutdown);
      AbortCallsCount(hadClient, Shutdown);
    } else {
      var calls := RegisterRun(cs, retryCount, threads, hadClient, attempts).calls;
      assert Exit(1) !in calls && Shutdown !in calls;
    }
  }

  /**
   * Exactly one callback reaches the codec when `register` returns: `send_record`
   * after a connection, `log_no_msg_sent` without an endpoint; none otherwise.
   */
  lemma OneCallbackRegistered(cs: Option<string>, retryCount: int, threads: int, hadClient: bool, attempts: nat -> Attempt)
    ensures var run := RegisterRun(cs, retryCount, threads, hadClient, attempts);
      && Count(run.calls, OnEvent(SendRecord)) == (if run.result.Connected? then 1 else 0)
      && Count(run.calls, OnEvent(LogNoMsgSent)) == (if run.result.Ignored? then 1 else 0)
  {
    var run := RegisterRun(cs, retryCount, threads, hadClient, attempts);
    if !IsAbsent(cs) {
      RegisterCount(cs, retryCount, threads, hadClient, attempts, OnEvent(SendRecord));
      RegisterCount(cs, retryCount, threads, hadClient, attempts, OnEvent(LogNoMsgSent));
      var j := StopIndex(retryCount, attempts, 0);
      var v := Classify(attempts(j), j, retryCount);
      FinalAttemptCount(cs.value, hadClient, v, j, OnEvent(SendRecord));
      AbortCallsCount(hadClient, OnEvent(SendRecord));
      FinalAttemptCount(cs.value, hadClient, v, j, OnEvent(LogNoMsgSent));
      AbortCallsCount(hadClient, OnEvent(LogNoMsgSent));
    } else {
      assert run.calls == [NewScheduledThreadPool(threads), Log(ConnectionStringEmpty)] + [OnEvent(LogNoMsgSent)];
      CountAppend([NewScheduledThreadPool(threads), Log(ConnectionStringEmpty)], [OnEvent(LogNoMsgSent)], OnEvent(LogNoMsgSent));
    }
  }

  /** Under the default retry count: at most four `createSync` calls and six seconds asleep. */
  lemma DefaultRetryCountBound(cs: Option<string>, threads: int, hadClient: bool, attempts: nat -> Attempt)
    requires !IsAbsent(cs)
    ensures var run := RegisterRun(cs, DefaultConnectionRetryCount, threads, hadClient, attempts);
      && Count(run.calls, CreateSync(cs.value)) <= 4
      && Count(run.calls, Sleep(RetryInterval)) * RetryInterval <= 6
  {
    RegisterBounds(cs, DefaultConnectionRetryCount, threads, hadClient, attempts);
  }

}
