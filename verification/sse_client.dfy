/** The dashboard's lower-level stream client
    (client/src/services/sse-client.ts): one event source, at most five
    reconnect attempts, and a back-off that doubles with random jitter up
    to 30 s. The jitter (`Math.random() * 1000`) is a parameter in
    [0, 1000); delays are reals. */
module SseClient {
  import opened Wrappers

  const MaxAttempts: nat := 5
  const InitialDelay: real := 1000.0
  const MaxDelay: real := 30000.0

  /** `EventSource.readyState`. */
  datatype ReadyState = RsConnecting | RsOpen | RsClosed

  /** What `getConnectionState` reports. */
  datatype ConnectionState = StateConnecting | StateOpen | StateClosed

  /** `timer` holds the delay of the pending reconnect; `target` is the
      agent filter the current connection (and its reconnects) use. */
  datatype Client = Client(
    source: Option<ReadyState>,
    attempts: nat,
    delay: real,
    manual: bool,
    timer: Option<real>,
    target: Option<string>)

  const Initial: Client := Client(None, 0, InitialDelay, false, None, None)

  /** `cleanup`: close the source and cancel the pending reconnect. */
  function Cleanup(c: Client): (r: Client)
    ensures r.source.None? && r.timer.None?
    ensures r.attempts == c.attempts && r.delay == c.delay && r.manual == c.manual && r.target == c.target
  {
    c.(source := None, timer := None)
  }

  /** `createConnection`: a fresh source for `agentId`. */
  function CreateConnection(c: Client, agentId: Option<string>): (r: Client)
    ensures r.source == Some(RsConnecting) && r.timer.None? && r.target == agentId
    ensures r.attempts == c.attempts && r.delay == c.delay && r.manual == c.manual
  {
    Cleanup(c).(source := Some(RsConnecting), target := agentId)
  }

  /** `connect`: clears the manual-disconnect flag and connects. */
  function Connect(c: Client, agentId: Option<string>): (r: Client)
    ensures !r.manual && r.source == Some(RsConnecting) && r.target == agentId
    ensures r.attempts == c.attempts && r.delay == c.delay
  {
    CreateConnection(c.(manual := false), agentId)
  }

  /** `disconnect`: sets the manual flag and cleans up. */
  function Disconnect(c: Client): (r: Client)
    ensures r.manual && r.source.None? && r.timer.None?
    ensures r.attempts == c.attempts && r.delay == c.delay
  {
    Cleanup(c.(manual := true))
  }

  /** The source's `onopen`: attempts and delay reset. */
  function OnOpen(c: Client): (r: Client)
    ensures c.source.Some? ==> r.attempts == 0 && r.delay == InitialDelay && r.source == Some(RsOpen)
    ensures c.source.None? ==> r == c
  {
    if c.source.None? then c else c.(source := Some(RsOpen), attempts := 0, delay := InitialDelay)
  }

  function Min(a: real, b: real): real {
    if a < b then a else b
  }

  /** `scheduleReconnect`: nothing once five attempts were made or after a
      manual disconnect; otherwise clean up, count an attempt, arm the
      timer with the current delay, and grow the delay. */
  function ScheduleReconnect(c: Client, jitter: real): (r: Client)
    requires 0.0 <= jitter < 1000.0
    ensures c.attempts >= MaxAttempts || c.manual ==> r == c
    ensures c.attempts < MaxAttempts && !c.manual ==>
      && r.attempts == c.attempts + 1
      && r.timer == Some(c.delay)
      && r.source.None?
      && r.delay == Min(c.delay * 2.0 + jitter, MaxDelay)
  {
    if c.attempts >= MaxAttempts || c.manual then c
    else Cleanup(c).(attempts := c.attempts + 1, timer := Some(c.delay), delay := Min(c.delay * 2.0 + jitter, MaxDelay))
  }

  /** The source's `onerror`; `closed` says whether the browser gave the
      source up (`CLOSED`) or is retrying it (`CONNECTING`). */
  function OnError(c: Client, closed: bool, jitter: real): (r: Client)
    requires 0.0 <= jitter < 1000.0
    ensures c.manual || c.source.None? ==> r.attempts == c.attempts && r.timer == c.timer
  {
    if c.source.None? then c
    else
      var c1 := c.(source := Some(if closed then RsClosed else RsConnecting));
      if !c1.manual then ScheduleReconnect(c1, jitter) else c1
  }

  /** The reconnect timer firing: reconnect unless manually disconnected. */
  function OnTimer(c: Client): (r: Client)
    ensures c.timer.Some? && !c.manual ==> r.source == Some(RsConnecting) && r.target == c.target
    ensures c.timer.None? || c.manual ==> r.source == c.source && r.timer.None?
  {
    if c.timer.None? then c
    else if c.manual then c.(timer := None)
    else CreateConnection(c.(timer := None), c.target)
  }

  /** `getConnectionState`. */
  function GetConnectionState(c: Client): (s: ConnectionState)
    ensures c.source.None? ==> s == StateClosed
    ensures s == StateOpen <==> c.source == Some(RsOpen)
    ensures s == StateConnecting <==> c.source == Some(RsConnecting)
  {
    match c.source
    case None => StateClosed
    case Some(RsConnecting) => StateConnecting
    case Some(RsOpen) => StateOpen
    case Some(RsClosed) => StateClosed
  }

  datatype Event =
    | ConnectCall(agentId: Option<string>)
    | DisconnectCall
    | Open
    | Error(closed: bool, jitter: real)
    | TimerFires

  predicate Allowed(e: Event) {
    e.Error? ==> 0.0 <= e.jitter < 1000.0
  }

  function Step(c: Client, e: Event): Client
    requires Allowed(e)
  {
    match e
    case ConnectCall(a) => Connect(c, a)
    case DisconnectCall => Disconnect(c)
    case Open => OnOpen(c)
    case Error(closed, j) => OnError(c, closed, j)
    case TimerFires => OnTimer(c)
  }

  /** The reachable states: at most five attempts, a delay between 1 s and
      30 s, and a pending timer only when no source is open. */
  predicate Valid(c: Client) {
    && c.attempts <= MaxAttempts
    && InitialDelay <= c.delay <= MaxDelay
    && (c.timer.Some? ==> InitialDelay <= c.timer.value <= MaxDelay && c.source.None?)
  }

  /** Every event keeps the attempt bound and the delay range, and the delay
      never decreases except when a connection opens. */
  lemma StepPreservesValid(c: Client, e: Event)
    requires Valid(c) && Allowed(e)
    ensures Valid(Step(c, e))
    ensures !e.Open? ==> Step(c, e).delay >= c.delay
    ensures Step(c, e).attempts <= c.attempts + 1
  {
  }

  function Run(c: Client, es: seq<Event>): Client
    requires forall i :: 0 <= i < |es| ==> Allowed(es[i])
    decreases |es|
  {
    if |es| == 0 then c else Run(Step(c, es[0]), es[1..])
  }

  predicate NoOpen(es: seq<Event>) {
    forall i :: 0 <= i < |es| ==> !es[i].Open?
  }

  /** Between opens the delay only grows, and attempts never pass five. */
  lemma {:induction false} RunKeepsBounds(c: Client, es: seq<Event>)
    requires Valid(c) && forall i :: 0 <= i < |es| ==> Allowed(es[i])
    ensures Valid(Run(c, es))
    ensures NoOpen(es) ==> Run(c, es).delay >= c.delay
    decreases |es|
  {
    if |es| > 0 {
      StepPreservesValid(c, es[0]);
      RunKeepsBounds(Step(c, es[0]), es[1..]);
    }
  }

  /** After `disconnect`, errors and timers never reconnect and no attempt
      is counted, until `connect` is called again. */
  lemma {:induction false} StaysDisconnected(c: Client, es: seq<Event>)
    requires c.manual && c.source.None?
    requires forall i :: 0 <= i < |es| ==> Allowed(es[i]) && !es[i].ConnectCall?
    ensures Run(c, es).source.None? && Run(c, es).attempts == c.attempts && Run(c, es).manual
    decreases |es|
  {
    if |es| > 0 {
      StaysDisconnected(Step(c, es[0]), es[1..]);
    }
  }

  /** Five errors without an open exhaust the attempts: the sixth error
      schedules nothing. */
  lemma AttemptsExhausted(c: Client, jitter: real, closed: bool)
    requires c.attempts == MaxAttempts && c.source.Some? && 0.0 <= jitter < 1000.0
    ensures OnError(c, closed, jitter).timer == c.timer
    ensures OnError(c, closed, jitter).attempts == MaxAttempts
  {
  }
}
