/**
 * The adapter's observable behaviour, as the ordered list of calls it makes
 * on its collaborators: the thread-pool factory, the Event Hubs client, the
 * codec, `sleep`, `exit` and the logger (the kind of message only).
 */
module Trace {

  import EventMessage

  /** The two methods `register` can hand to `@codec.on_event`. */
  datatype Callback = SendRecord | LogNoMsgSent

  /** Which message the logger is given; the text and the attached fields are not modelled. */
  datatype LogEntry =
    | ConnectionStringEmpty  // warn, register found no endpoint
    | ConnectFailed          // error, giving up on the connection
    | ConnectRetry           // error, connection failed and will be attempted again
    | EncodeFailed           // warn, `receive` rescued an error
    | SendFailed             // warn, `send_record` rescued an error
    | EventIgnored           // warn, `log_no_msg_sent`

  datatype Call =
    | NewScheduledThreadPool(threads: int)
    | CreateSync(connectionString: string)
    | OnEvent(callback: Callback)
    | Sleep(seconds: int)
    | CloseSync
    | Shutdown
    | SendSync(message: EventMessage.Message)
    | Exit(status: int)
    | Log(entry: LogEntry)

  /**
   * The calls of `close`: `closeSync` only when the client is non-nil, then
   * `shutdown` on the executor (on a nil executor that call raises instead).
   */
  function CloseCalls(hasClient: bool, hasExecutor: bool): (calls: seq<Call>)
    ensures CloseSync in calls <==> hasClient
    ensures Shutdown in calls <==> hasExecutor
    ensures hasClient && hasExecutor ==> calls == [CloseSync, Shutdown]
  {
    (if hasClient then [CloseSync] else []) + (if hasExecutor then [Shutdown] else [])
  }

  /** How many times the call c occurs in a trace. */
  function Count(calls: seq<Call>, c: Call): (n: nat)
    ensures n > 0 <==> c in calls
    ensures n <= |calls|
  {
    if calls == [] then 0 else (if calls[0] == c then 1 else 0) + Count(calls[1..], c)
  }

  lemma {:induction false} CountAppend(a: seq<Call>, b: seq<Call>, c: Call)
    ensures Count(a + b, c) == Count(a, c) + Count(b, c)
  {
    if a == [] {
      assert a + b == b;
    } else {
      assert (a + b)[1..] == a[1..] + b;
      CountAppend(a[1..], b, c);
    }
  }

  /** `close` makes `closeSync` once when there is a client and `shutdown` once when there is an executor. */
  lemma CloseCallsCount(hasClient: bool, hasExecutor: bool, c: Call)
    ensures Count(CloseCalls(hasClient, hasExecutor), c)
      == (if hasClient && c == CloseSync then 1 else 0) + (if hasExecutor && c == Shutdown then 1 else 0)
  {
  }

}
