/**
 * The output adapter: `register` wires a client and a codec callback,
 * `receive` hands each event to the codec, whose callback sends it
 * (`send_record`) or only warns (`log_no_msg_sent`), and `close` releases the
 * client and the executor. Every external call is appended to `calls`.
 */
module AzureEventHub {

  import opened Wrappers
  import opened ConnectionString
  import opened EventMessage
  import opened Trace
  import opened ConnectRetry

  /** The executor from `Executors.newScheduledThreadPool(client_threads)`. */
  datatype ThreadPool = ThreadPool(threads: int)

  /** The client from `EventHubClient.createSync`, bound to one connection string. */
  datatype EventHubClient = EventHubClient(connectionString: string)

  /**
   * The calls of `send_record`: one `sendSync` of the payload with the
   * property map, and a warning when it raises. `built` says whether building
   * the message returns: turning the payload into bytes and every `sprintf`
   * of the bag. When it raises, or when the client is nil and the call on it
   * raises, the rescue only warns.
   */
  function SendRecordCalls(hasClient: bool, bag: Option<seq<Template>>, payload: seq<byte>,
                           interpolate: string -> string, built: bool, sendSucceeds: bool): (calls: seq<Call>)
  {
    if built && hasClient then
      [SendSync(Message(payload, PropertyMap(bag, interpolate)))] + (if sendSucceeds then [] else [Log(SendFailed)])
    else
      [Log(SendFailed)]
  }

  /**
   * The calls of `receive`. `encoded` is the codec's payload, None when
   * encoding raises; the codec calls the registered callback, and a codec
   * with none registered raises. Both errors are rescued by `receive`.
   */
  function ReceiveCalls(onEvent: Option<Callback>, hasClient: bool, bag: Option<seq<Template>>,
                        encoded: Option<seq<byte>>, interpolate: string -> string, built: bool, sendSucceeds: bool): (calls: seq<Call>)
  {
    match encoded
    case None => [Log(EncodeFailed)]
    case Some(payload) =>
      match onEvent
      case None => [Log(EncodeFailed)]
      case Some(SendRecord) => SendRecordCalls(hasClient, bag, payload, interpolate, built, sendSucceeds)
      case Some(LogNoMsgSent) => [Log(EventIgnored)]
  }

  /**
   * The per-event path only ever sends or gives one of its three warnings: it
   * never connects, sleeps, closes, shuts the executor down, re-registers a
   * callback or exits, and it warns at most once per event.
   */
  lemma PerEventPathNeverEscalates(onEvent: Option<Callback>, hasClient: bool, bag: Option<seq<Template>>,
                                   encoded: Option<seq<byte>>, interpolate: string -> string, built: bool, sendSucceeds: bool)
    ensures var calls := ReceiveCalls(onEvent, hasClient, bag, encoded, interpolate, built, sendSucceeds);
      forall c :: c in calls ==> c.SendSync? || c in {Log(EncodeFailed), Log(SendFailed), Log(EventIgnored)}
    ensures var calls := ReceiveCalls(onEvent, hasClient, bag, encoded, interpolate, built, sendSucceeds);
      Count(calls, Log(SendFailed)) + Count(calls, Log(EncodeFailed)) + Count(calls, Log(EventIgnored)) <= 1
  {
  }

  /** Without an endpoint no event is ever sent: each one only produces a warning. */
  lemma UnconfiguredNeverSends(hasClient: bool, bag: Option<seq<Template>>,
                               encoded: Option<seq<byte>>, interpolate: string -> string, built: bool, sendSucceeds: bool)
    ensures var calls := ReceiveCalls(Some(LogNoMsgSent), hasClient, bag, encoded, interpolate, built, sendSucceeds);
      && |calls| == 1 && calls[0].Log?
      && forall c :: c in calls ==> !c.SendSync?
  {
  }

  /**
   * With `send_record` registered and a client, an encoded event is sent
   * exactly once when its message could be built, with the payload as its
   * body and the interpolated bag as its properties, and not at all
   * otherwise; a warning is given exactly when building or sending raised.
   */
  lemma ConnectedSendsOnce(bag: Option<seq<Template>>, payload: seq<byte>, interpolate: string -> string,
                           built: bool, sendSucceeds: bool)
    ensures var calls := ReceiveCalls(Some(SendRecord), true, bag, Some(payload), interpolate, built, sendSucceeds);
      var m := Message(payload, PropertyMap(bag, interpolate));
      && Count(calls, SendSync(m)) == (if built then 1 else 0)
      && (forall c :: c in calls && c.SendSync? ==> c == SendSync(m))
      && (Log(SendFailed) in calls <==> !built || !sendSucceeds)
  {
  }

  class AzureEventHubOutput {
    // Configuration, fixed once loaded.
    const connectionString: Option<string>
    const connectionRetryCount: int
    const propertiesBag: Option<seq<Template>>
    const clientThreads: int

    // `@executor_service`, `@eventhub_client` and the callback held by `@codec`.
    var executorService: Option<ThreadPool>
    var eventhubClient: Option<EventHubClient>
    var onEvent: Option<Callback>

    /** Every call made on the collaborators so far, in order. */
    var calls: seq<Call>

    /** `send_record` is only ever wired with a client, and a client only ever exists with an executor. */
    predicate Valid()
      reads this
    {
      && (onEvent == Some(Callback.SendRecord) ==> eventhubClient.Some?)
      && (eventhubClient.Some? ==> executorService.Some?)
    }

    constructor (connectionString: Option<string>, connectionRetryCount: int,
                 propertiesBag: Option<seq<Template>>, clientThreads: int)
      ensures this.connectionString == connectionString && this.connectionRetryCount == connectionRetryCount
      ensures this.propertiesBag == propertiesBag && this.clientThreads == clientThreads
      ensures executorService == None && eventhubClient == None && onEvent == None && calls == []
      ensures Valid()
    {
      this.connectionString := connectionString;
      this.connectionRetryCount := connectionRetryCount;
      this.propertiesBag := propertiesBag;
      this.clientThreads := clientThreads;
      executorService := None;
      eventhubClient := None;
      onEvent := None;
      calls := [];
    }

    /**
     * `close`: `closeSync` when the client is non-nil, then `shutdown` on the
     * executor; `raised` when the executor is nil, as before `register`. The
     * client is not cleared, so a second `close` calls `closeSync` again.
     */
    method Close() returns (raised: bool)
      modifies this
      ensures calls == old(calls) + CloseCalls(eventhubClient.Some?, executorService.Some?)
      ensures raised <==> executorService.None?
      ensures executorService == old(executorService) && eventhubClient == old(eventhubClient) && onEvent == old(onEvent)
    {
      if eventhubClient.Some? {
        calls := calls + [CloseSync];
      }
      raised := executorService.None?;
      if !raised {
        calls := calls + [Shutdown];
      }
    }

    /**
     * The error branch of the attempt block: log, `close`, then `exit(1)`,
     * which ends the process.
     */
    method Abort()
      requires executorService.Some?
      modifies this
      ensures calls == old(calls) + AbortCalls(eventhubClient.Some?)
      ensures executorService == old(executorService) && eventhubClient == old(eventhubClient) && onEvent == old(onEvent)
    {
      calls := calls + [Log(ConnectFailed)];
      var _ := Close();
      calls := calls + [Exit(1)];
    }

    /**
     * One pass through the attempt block of `register` with counter value
     * `try`, where `attempt` is what `createSync` does. `step` is None when
     * the block retries, otherwise how `register` ends.
     */
    method ConnectOnce(attempt: Attempt, try: nat) returns (step: Option<RegisterResult>)
      requires executorService.Some?
      modifies this
      ensures executorService == old(executorService)
      ensures IsAbsent(connectionString) ==>
        && step == Some(Ignored)
        && calls == old(calls) + [Log(ConnectionStringEmpty), OnEvent(Callback.LogNoMsgSent)]
        && eventhubClient == old(eventhubClient) && onEvent == Some(Callback.LogNoMsgSent)
      ensures !IsAbsent(connectionString) && Classify(attempt, try, connectionRetryCount) == Retry ==>
        && step == None
        && calls == old(calls) + RetryRound(connectionString.value)
        && eventhubClient == old(eventhubClient) && onEvent == old(onEvent)
      ensures !IsAbsent(connectionString) && Classify(attempt, try, connectionRetryCount) != Retry ==>
        var last := FinalAttempt(connectionString.value, old(eventhubClient).Some?, Classify(attempt, try, connectionRetryCount), try);
        && step == Some(last.result)
        && calls == old(calls) + last.calls
        && (if attempt == Success
            then eventhubClient == Some(EventHubClient(connectionString.value)) && onEvent == Some(Callback.SendRecord)
            else eventhubClient == old(eventhubClient) && onEvent == old(onEvent))
    {
      if !IsAbsent(connectionString) {
        calls := calls + [CreateSync(connectionString.value)];
        if attempt == Success {
          eventhubClient := Some(EventHubClient(connectionString.value));
          onEvent := Some(Callback.SendRecord);
          calls := calls + [OnEvent(Callback.SendRecord)];
          step := Some(Connected(try));
          assert calls == old(calls) + [CreateSync(connectionString.value), OnEvent(Callback.SendRecord)];
        } else if attempt == IllegalFormat || attempt == IOErr {
          Abort();
          step := Some(Exited(1, try));
          assert Classify(attempt, try, connectionRetryCount) == GiveUp;
          assert calls == old(calls) + ([CreateSync(connectionString.value)] + AbortCalls(old(eventhubClient).Some?));
        } else if attempt.EventHubEx? || attempt == ExecutionEx {
          if (attempt.EventHubEx? && attempt.isTransient != true) || try >= connectionRetryCount {
            Abort();
            step := Some(Exited(1, try));
            assert Classify(attempt, try, connectionRetryCount) == GiveUp;
            assert calls == old(calls) + ([CreateSync(connectionString.value)] + AbortCalls(old(eventhubClient).Some?));
          } else {
            calls := calls + [Log(ConnectRetry), Sleep(RetryInterval)];
            step := None;
            assert Classify(attempt, try, connectionRetryCount) == Retry;
          }
        } else {
          step := Some(Raised(try));
          assert Classify(attempt, try, connectionRetryCount) == Escape;
        }
      } else {
        calls := calls + [Log(ConnectionStringEmpty)];
        onEvent := Some(Callback.LogNoMsgSent);
        calls := calls + [OnEvent(Callback.LogNoMsgSent)];
        step := Some(Ignored);
      }
    }

    /**
     * `register`: creates the executor, then runs the attempt block until it
     * does not retry, as `ConnectRetry.RegisterRun` describes. `attempts(i)`
     * is what `createSync` does on the attempt with `try == i`.
     */
    method Register(attempts: nat -> Attempt) returns (result: RegisterResult)
      modifies this
      ensures var run := RegisterRun(connectionString, connectionRetryCount, clientThreads, old(eventhubClient).Some?, attempts);
        result == run.result && calls == old(calls) + run.calls
      ensures executorService == Some(ThreadPool(clientThreads))
      ensures result.Connected? ==> connectionString.Some? && eventhubClient == Some(EventHubClient(connectionString.value))
      ensures !result.Connected? ==> eventhubClient == old(eventhubClient)
      ensures onEvent == (if result.Connected? then Some(Callback.SendRecord)
                          else if result.Ignored? then Some(Callback.LogNoMsgSent)
                          else old(onEvent))
      ensures old(Valid()) ==> Valid()
    {
      ghost var before := calls;
      ghost var hadClient := eventhubClient.Some?;
      executorService := Some(ThreadPool(clientThreads));
      calls := calls + [NewScheduledThreadPool(clientThreads)];
      var try: nat := 0;
      while true
        invariant executorService == Some(ThreadPool(clientThreads))
        invariant eventhubClient == old(eventhubClient) && onEvent == old(onEvent)
        invariant IsAbsent(connectionString) ==> try == 0
        invariant calls == before + [NewScheduledThreadPool(clientThreads)]
                           + (if IsAbsent(connectionString) then [] else RetryPrefix(connectionString.value, try))
        invariant forall i :: 0 <= i < try ==> Classify(attempts(i), i, connectionRetryCount) == Retry
        decreases connectionRetryCount - try
      {
        var step := ConnectOnce(attempts(try), try);
        if step.Some? {
          result := step.value;
          if IsAbsent(connectionString) {
            AbsentConnectionStringIgnored(connectionString, connectionRetryCount, clientThreads, hadClient, attempts);
          } else {
            RegisterStopsAt(connectionString, connectionRetryCount, clientThreads, hadClient, attempts, try, before, calls, result);
          }
          return;
        }
        RetryPrefixSnoc(connectionString.value, try);
        try := try + 1;
      }
    }

    /** `log_no_msg_sent`: a warning and nothing else. */
    method LogNoMsgSent()
      modifies this
      ensures calls == old(calls) + [Log(EventIgnored)]
      ensures executorService == old(executorService) && eventhubClient == old(eventhubClient) && onEvent == old(onEvent)
    {
      calls := calls + [Log(EventIgnored)];
    }

    /**
     * `send_record`: wraps the payload in an EventData, puts the interpolated
     * property bag into it and sends it; every error is rescued and logged.
     * `interpolate` is `event.sprintf`; `built` says whether building the
     * message returns, `sendSucceeds` whether `sendSync` returns.
     */
    method SendRecord(payload: seq<byte>, interpolate: string -> string, built: bool, sendSucceeds: bool)
      modifies this
      ensures calls == old(calls) + SendRecordCalls(eventhubClient.Some?, propertiesBag, payload, interpolate, built, sendSucceeds)
      ensures executorService == old(executorService) && eventhubClient == old(eventhubClient) && onEvent == old(onEvent)
    {
      var eh := new EventData.Create(payload);
      if propertiesBag.Some? {
        AddPropertyBag(eh, propertiesBag.value, interpolate);
      }
      if !built {
        // The conversion or a `sprintf` raised: the partly built event is dropped.
        calls := calls + [Log(SendFailed)];
      } else if eventhubClient.Some? {
        calls := calls + [SendSync(eh.Snapshot())];
        if !sendSucceeds {
          calls := calls + [Log(SendFailed)];
        }
      } else {
        calls := calls + [Log(SendFailed)];
      }
    }

    /**
     * `receive`: the codec encodes the event and calls the registered
     * callback; any error is rescued, so no event changes the adapter's state.
     */
    method Receive(encoded: Option<seq<byte>>, interpolate: string -> string, built: bool, sendSucceeds: bool)
      modifies this
      ensures calls == old(calls) + ReceiveCalls(onEvent, eventhubClient.Some?, propertiesBag, encoded, interpolate, built, sendSucceeds)
      ensures executorService == old(executorService) && eventhubClient == old(eventhubClient) && onEvent == old(onEvent)
    {
      if encoded.None? || onEvent.None? {
        calls := calls + [Log(EncodeFailed)];
      } else if onEvent == Some(Callback.SendRecord) {
        SendRecord(encoded.value, interpolate, built, sendSucceeds);
      } else {
        LogNoMsgSent();
      }
    }
  }

  /** A second `close` repeats both calls: `close` is not idempotent. */
  method CloseIsNotIdempotent(output: AzureEventHubOutput)
    requires output.eventhubClient.Some? && output.executorService.Some?
    modifies output
    ensures output.calls == old(output.calls) + [CloseSync, Shutdown, CloseSync, Shutdown]
  {
    var _ := output.Close();
    var _ := output.Close();
  }

  /** An event whose send fails leaves nothing behind that stops the next event from being sent. */
  method FailedSendDoesNotBlockNext(output: AzureEventHubOutput, first: seq<byte>, second: seq<byte>, interpolate: string -> string)
    requires output.onEvent == Some(Callback.SendRecord) && output.eventhubClient.Some?
    modifies output
    ensures var props := PropertyMap(output.propertiesBag, interpolate);
      output.calls == old(output.calls) + [SendSync(Message(first, props)), Log(SendFailed), SendSync(Message(second, props))]
  {
    output.Receive(Some(first), interpolate, true, false);
    output.Receive(Some(second), interpolate, true, true);
  }

  /**
   * One event through a configured adapter with no property bag: the executor,
   * one connection, the callback, one send with the payload and no properties,
   * then one `closeSync` and one `shutdown`.
   */
  method EndToEnd(payload: seq<byte>, interpolate: string -> string) returns (trace: seq<Call>)
    ensures trace == [NewScheduledThreadPool(4), CreateSync("Endpoint=sb://x"), OnEvent(Callback.SendRecord),
                      SendSync(Message(payload, map[])), CloseSync, Shutdown]
  {
    var output := new AzureEventHubOutput(Some("Endpoint=sb://x"), DefaultConnectionRetryCount, None, DefaultClientThreads);
    assert !IsBlank("Endpoint=sb://x");
    var result := output.Register(i => Success);
    output.Receive(Some(payload), interpolate, true, true);
    var _ := output.Close();
    trace := output.calls;
  }

}
