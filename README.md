# Azure Event Hub output for Logstash, modelled in Dafny

The model covers the core of the Logstash output `azure_event_hub`
(`lib/logstash/outputs/azure_event_hub.rb`). The adapter takes pipeline
events, encodes them with its codec and sends each one to an Azure Event Hub
through the Event Hubs Java client.

What is modelled:

- **Connection setup in `register`.** The executor is created first. Then
  comes the endpoint test on the connection string (nil, or matching
  `/\A\s*\Z/`). Then the attempt block runs, with its two rescue clauses, its
  `try` counter, the fixed two-second `retry_interval`, and `close()` followed
  by `exit(1)` on giving up.
- **Callback selection.** `register` wires either `send_record` or
  `log_no_msg_sent` into the codec.
- **The per-event paths.** `receive`, `send_record` with its property-bag loop,
  and `log_no_msg_sent`.
- **`close`.**

Everything the adapter does to the outside world is recorded as an ordered
trace of calls (`Trace.Call`). The outside world is the thread-pool factory,
`createSync`, `on_event`, `sleep`, `closeSync`, `shutdown`, `sendSync`,
`exit` and the logger.

What `createSync` does on the attempt with `try == i` is the parameter
`attempts(i)`. Its values are:

- a success;
- `IllegalConnectionStringFormatException`;
- `IOException`;
- `EventHubException` with its transient flag;
- `ExecutionException`;
- any other exception.

Files:

- `connection_string.dfy` — the endpoint test. It proves that the
  character-by-character scan matches Ruby's reading of `/\A\s*\Z/`, including
  `\Z` before a final newline.
- `event_message.dfy` — the SDK's `EventData` as a class whose property map is
  filled in place. It also holds the property-bag loop and the fold
  (`PutAll`) that specifies it.
- `trace.dfy` — the calls and how to count them.
- `connect_retry.dfy` — the attempt block as pure functions (`Classify`,
  `ConnectLoop`, `RegisterRun`) and the properties of `register` proved about
  them.
- `azure_event_hub.dfy` — the adapter as a class with the source's fields.
  Its methods `Register` (a loop over `ConnectOnce`), `Close`, `Receive`,
  `SendRecord` and `LogNoMsgSent` are proved against those functions.

Behaviours of the code the model keeps:

- `close` is not idempotent. `@eventhub_client` is never cleared, so a second
  `close` calls `closeSync` again, and `shutdown` is called every time.
- `close` before `register` raises, because `@executor_service` is nil.
- `connection_retry_count` is only checked to be a number. A negative value
  behaves like 0.
- `client_threads ≥ 2` is a comment, not a check.
- An exception that neither rescue clause names leaves `register` without
  `close` and without `exit`.

## Model

| member | source | states |
|---|---|---|
| ConnectionString.IsBlank | lib/logstash/outputs/azure_event_hub.rb:79 | the scan of the string for `\s` characters, one character at a time; its meaning is stated by the two lemmas below |
| ConnectionString.IsAbsent | lib/logstash/outputs/azure_event_hub.rb:79 | the negation of the guard `!nil? and !~ /\A\s*\Z/`; its meaning is stated by `AbsentIffPatternMatches` |
| ConnectionString.BlankIffAllSpace | lib/logstash/outputs/azure_event_hub.rb:79 | the scan accepts a string exactly when every character is one of Ruby's six `\s` characters |
| ConnectionString.BlankIffPatternMatches | lib/logstash/outputs/azure_event_hub.rb:79 | the scan accepts exactly the strings `/\A\s*\Z/` matches, both directions, with `\Z` allowed before a final newline |
| ConnectionString.AbsentIffPatternMatches | lib/logstash/outputs/azure_event_hub.rb:79 | no endpoint exactly when the string is nil or the pattern matches it |
| EventMessage.PutAll | lib/logstash/outputs/azure_event_hub.rb:149-150 | the in-order fold of `put(sprintf(key), sprintf(value))` over the bag; what it yields is stated by `PutAllLastWins` and `PutAllKeys` |
| EventMessage.PropertyMap | lib/logstash/outputs/azure_event_hub.rb:148-152 | the property map of a fresh event: empty for a nil bag, otherwise the fold; stated by `PropertyMapKeys` and `TwoPairBag` |
| EventMessage.EventData.Create | lib/logstash/outputs/azure_event_hub.rb:145 | a new EventData carries the payload bytes and no properties |
| EventMessage.EventData.Put | lib/logstash/outputs/azure_event_hub.rb:150 | a put sets one key to its value and leaves every other key alone |
| EventMessage.AddPropertyBag | lib/logstash/outputs/azure_event_hub.rb:148-152 | after the loop, the event's properties are the in-order fold of puts of interpolated pairs over the old properties |
| EventMessage.PutAllLastWins | lib/logstash/outputs/azure_event_hub.rb:149-150 | each key holds the interpolated value of the last pair whose key interpolates to it; keys no pair touches keep their old value |
| EventMessage.PutAllKeys | lib/logstash/outputs/azure_event_hub.rb:149-150 | the keys after the loop are the old keys plus every interpolated key of the bag |
| EventMessage.PropertyMapKeys | lib/logstash/outputs/azure_event_hub.rb:148-152 | a nil bag leaves the map empty; a bag yields exactly its interpolated keys |
| EventMessage.TwoPairBag | lib/logstash/outputs/azure_event_hub.rb:148-152 | the bag `k1 => v1, k2 => %{[field]}` with field `X` gives the map `k1 => v1, k2 => X` |
| Trace.CloseCalls | lib/logstash/outputs/azure_event_hub.rb:125-130 | `closeSync` occurs exactly when there is a client, `shutdown` exactly when there is an executor, `closeSync` first |
| Trace.CloseCallsCount | lib/logstash/outputs/azure_event_hub.rb:125-130 | `close` makes each of its two calls at most once |
| ConnectRetry.Classify | lib/logstash/outputs/azure_event_hub.rb:87-105 | an attempt connects exactly on success; it retries exactly on a retryable failure with `try < connection_retry_count`; it gives up exactly on a fatal failure or a retryable one with `try >= connection_retry_count`; an unnamed exception escapes |
| ConnectRetry.FinalAttempt | lib/logstash/outputs/azure_event_hub.rb:79-105 | the attempt that does not retry ends after `try` sleeps: connected exactly when it succeeded, exited exactly when it gave up |
| ConnectRetry.AbortCallsCount | lib/logstash/outputs/azure_event_hub.rb:88-94 | giving up logs once, closes the client if any, shuts the executor down once and exits once |
| ConnectRetry.RetryPrefixCount | lib/logstash/outputs/azure_event_hub.rb:107-120 | k retried attempts make k `createSync` calls, k retry log lines and k two-second sleeps, and no other call |
| ConnectRetry.LoopShape | lib/logstash/outputs/azure_event_hub.rb:76-121 | from any counter value, the block is the retried rounds up to the first attempt that does not retry, then that attempt |
| ConnectRetry.ConnectLoop | lib/logstash/outputs/azure_event_hub.rb:76-121 | the attempt block re-run by `retry` from a counter value on; its shape is stated by `LoopShape` |
| ConnectRetry.RegisterRun | lib/logstash/outputs/azure_event_hub.rb:66-122 | the executor, then the attempt block from `try = 0`; its properties are the `Register*` lemmas and those that follow |
| ConnectRetry.RegisterShape | lib/logstash/outputs/azure_event_hub.rb:66-122 | with an endpoint, `register` is the executor, then one retried round per sleep, then the final attempt |
| ConnectRetry.RegisterCount | lib/logstash/outputs/azure_event_hub.rb:66-122 | every call of `register` counted: one executor, one `createSync`/retry log/sleep per retried round, then the final attempt's calls |
| ConnectRetry.AbsentConnectionStringIgnored | lib/logstash/outputs/azure_event_hub.rb:79-85 | without an endpoint there is no client, no sleep and no retry, only the warning and the `log_no_msg_sent` callback |
| ConnectRetry.RegisterBounds | lib/logstash/outputs/azure_event_hub.rb:74-120 | at most max(N, 0) sleeps, all of two seconds, and exactly one more `createSync` than sleeps |
| ConnectRetry.ExecutorCreatedOnce | lib/logstash/outputs/azure_event_hub.rb:71 | the executor is created exactly once, as the very first call, and never again on retry |
| ConnectRetry.ConnectedIff | lib/logstash/outputs/azure_event_hub.rb:76-121 | `register` connects after exactly k sleeps if and only if there is an endpoint, k ≤ max(N, 0), the first k attempts failed retryably, and attempt k succeeded |
| ConnectRetry.ExhaustedRetriesExit | lib/logstash/outputs/azure_event_hub.rb:95-105 | N + 1 retryable failures in a row end in exit status 1 after N sleeps |
| ConnectRetry.NoRetryCountExitsOnFirstFailure | lib/logstash/outputs/azure_event_hub.rb:97-104 | with N ≤ 0, the first retryable failure closes and exits without sleeping |
| ConnectRetry.FatalAttemptExits | lib/logstash/outputs/azure_event_hub.rb:87-94 | a malformed string, an I/O error or a non-transient EventHubException closes and exits at that attempt, whatever `try` is |
| ConnectRetry.RetryableAttemptSleepsOnce | lib/logstash/outputs/azure_event_hub.rb:107-120 | a retryable failure below the retry count logs, sleeps once for two seconds, and re-runs the whole block with `try + 1` |
| ConnectRetry.ExitFollowsClose | lib/logstash/outputs/azure_event_hub.rb:87-105 | an exit has status 1 and comes last, right after the calls of `close` |
| ConnectRetry.OnlyGivingUpExits | lib/logstash/outputs/azure_event_hub.rb:87-105 | `exit(1)` and `shutdown` occur once when `register` gives up and never otherwise |
| ConnectRetry.OneCallbackRegistered | lib/logstash/outputs/azure_event_hub.rb:79-85 | `send_record` is wired once exactly when connected; `log_no_msg_sent` once exactly when there is no endpoint |
| ConnectRetry.DefaultRetryCountBound | lib/logstash/outputs/azure_event_hub.rb:48 | with the default retry count 3: at most four `createSync` calls and at most six seconds asleep |
| AzureEventHub.AzureEventHubOutput.constructor | lib/logstash/outputs/azure_event_hub.rb:44-60 | the configured settings; no executor, no client, no callback, no calls yet |
| AzureEventHub.AzureEventHubOutput.Close | lib/logstash/outputs/azure_event_hub.rb:125-130 | appends the calls of `close`, raises exactly when there is no executor, and clears nothing |
| AzureEventHub.AzureEventHubOutput.Abort | lib/logstash/outputs/azure_event_hub.rb:88-94 | the give-up path appends the error log, the calls of `close` and `exit(1)`, and changes no field |
| AzureEventHub.AzureEventHubOutput.ConnectOnce | lib/logstash/outputs/azure_event_hub.rb:78-120 | one pass through the attempt block: the calls and field updates of the verdict `Classify` gives, and whether to retry |
| AzureEventHub.AzureEventHubOutput.Register | lib/logstash/outputs/azure_event_hub.rb:66-122 | the result and the calls are those of `RegisterRun`; the executor is set; the client and callback are set exactly as the result says; the field invariant is kept |
| AzureEventHub.AzureEventHubOutput.LogNoMsgSent | lib/logstash/outputs/azure_event_hub.rb:162-166 | one warning and no other call or change |
| AzureEventHub.AzureEventHubOutput.SendRecord | lib/logstash/outputs/azure_event_hub.rb:142-159 | one `sendSync` of the payload with the bag's property map, a warning if it raises; a warning alone if building the message raised; no field change |
| AzureEventHub.AzureEventHubOutput.Receive | lib/logstash/outputs/azure_event_hub.rb:133-139 | dispatches to the wired callback, logs encoding errors, and no event changes the executor, the client or the callback |
| AzureEventHub.SendRecordCalls | lib/logstash/outputs/azure_event_hub.rb:142-159 | the calls of `send_record`: a send, then a warning if it raised; a warning alone if building the message raised or there is no client; stated by `ConnectedSendsOnce` |
| AzureEventHub.ReceiveCalls | lib/logstash/outputs/azure_event_hub.rb:133-139 | the calls of `receive`: a warning if encoding raised or no callback is wired, otherwise the wired callback's calls; stated by the three lemmas below |
| AzureEventHub.PerEventPathNeverEscalates | lib/logstash/outputs/azure_event_hub.rb:133-166 | per event, only sends and the three per-event warnings (encoding, sending, ignored) happen, never a connect, sleep, close, shutdown or exit; at most one warning in total |
| AzureEventHub.UnconfiguredNeverSends | lib/logstash/outputs/azure_event_hub.rb:162-166 | with `log_no_msg_sent` wired, an event produces a single warning and no send |
| AzureEventHub.ConnectedSendsOnce | lib/logstash/outputs/azure_event_hub.rb:142-159 | with `send_record` wired and a client, an event whose message could be built is sent exactly once, with its payload and the bag's property map, and one that could not is never sent; a warning is given exactly when building or sending raised |
| AzureEventHub.CloseIsNotIdempotent | lib/logstash/outputs/azure_event_hub.rb:125-130 | two `close` calls on a connected adapter make `closeSync` and `shutdown` twice each |
| AzureEventHub.FailedSendDoesNotBlockNext | lib/logstash/outputs/azure_event_hub.rb:133-159 | after a send that raised, the next event is still sent |
| AzureEventHub.EndToEnd | lib/logstash/outputs/azure_event_hub.rb:66-159 | register, one event and close with the defaults and no bag: executor, `createSync`, `send_record`, one send with an empty property map, `closeSync`, `shutdown` |

## Left out

- The Event Hubs client calls (`createSync`, `sendSync`, `closeSync`) are Java SDK calls through JRuby. They appear only as trace entries and as given outcomes: `attempts(i)` for `createSync`, and a flag saying whether `sendSync` returns or raises. `closeSync` and `shutdown` are taken never to raise.
- `EventData.create(ByteBuffer::wrap(payload.to_java_bytes))` becomes an `EventData` holding the payload as bytes; the conversion from a Ruby string to bytes is not modelled.
- The scheduled thread pool and its threads are not modelled, and neither is concurrency between `receive` calls on the shared client. The `client_threads ≥ 2` minimum is a comment in the source and is not enforced.
- `sleep` is a trace entry carrying its seconds; no time passes.
- `exit(1)` is a terminal result (`Exited`) plus a trace entry; the process does not end.
- Logger calls are recorded only by which message they are, not their text or attached fields.
- The JSON codec is a given payload, or `None` when encoding raises. `event.sprintf` is a given function `interpolate` from template to string.
- AzureEventHub.AzureEventHubOutput.SendRecord: a failure while building the message (the payload's byte conversion or a `sprintf` of the bag) is the flag `built`; at which pair the bag loop stopped is not modelled, since the partly built event is dropped and nothing of it is observable.
- The config DSL and base class are not modelled, beyond the settings as constructor arguments and the defaults 3 and 4 as constants. A fractional `connection_retry_count` is not modelled: it is an integer here.
- `properties_bag` is a Ruby hash. It is modelled as a sequence of pairs in the hash's order, which also admits repeated keys.
- `sendSync` with a nil client raises `NoMethodError`, which `send_record` rescues. It is modelled as a warning without a `sendSync` entry.
- Calling a codec that has no callback makes `receive` rescue the error. It is modelled as the same warning as an encoding failure.
