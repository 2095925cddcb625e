/** The dashboard's event-stream connection manager
    (client/src/services/eventStreamManager.ts): a connection state machine
    with exponential back-off between reconnects. The event source is
    abstract: the model records whether one is open, and its `open` and
    `error` callbacks are operations. Status listeners are represented by
    the log of notifications they all receive. */
module StreamManager {
  import opened Wrappers

  datatype ConnectionStatus = Connected | Connecting | Disconnected | Reconnecting

  const MaxReconnectDelay: nat := 30000
  const BaseDelay: nat := 1000

  /** `timer` is the delay of the pending reconnect, if any. */
  datatype Manager = Manager(
    status: ConnectionStatus,
    hasSource: bool,
    attempts: nat,
    timer: Option<nat>,
    notified: seq<ConnectionStatus>)

  const Initial: Manager := Manager(Disconnected, false, 0, None, [])

  function Pow2(n: nat): (r: nat)
    ensures r >= 1
  {
    if n == 0 then 1 else 2 * Pow2(n - 1)
  }

  /** `Math.min(1000 * 2 ** attempts, 30000)`. */
  function ReconnectDelay(attempts: nat): (d: nat)
    ensures BaseDelay <= d <= MaxReconnectDelay
    ensures d == MaxReconnectDelay || d == BaseDelay * Pow2(attempts)
    ensures d <= BaseDelay * Pow2(attempts)
  {
    var raw := BaseDelay * Pow2(attempts);
    if raw < MaxReconnectDelay then raw else MaxReconnectDelay
  }

  lemma {:induction false} Pow2Monotone(a: nat, b: nat)
    requires a <= b
    ensures Pow2(a) <= Pow2(b)
    decreases b
  {
    if a < b {
      Pow2Monotone(a, b - 1);
    }
  }

  /** The back-off never shrinks as attempts grow, and reaches the cap
      from the sixth attempt on (1 s, 2 s, 4 s, 8 s, 16 s, 30 s). */
  lemma DelayMonotone(a: nat, b: nat)
    requires a <= b
    ensures ReconnectDelay(a) <= ReconnectDelay(b)
    ensures b >= 5 ==> ReconnectDelay(b) == MaxReconnectDelay
  {
    Pow2Monotone(a, b);
    if b >= 5 {
      Pow2Monotone(5, b);
      assert Pow2(5) == 32;
    }
  }

  /** `updateStatus`: listeners hear only of actual changes. */
  function UpdateStatus(m: Manager, s: ConnectionStatus): (r: Manager)
    ensures r.status == s
    ensures r.notified == if m.status == s then m.notified else m.notified + [s]
    ensures r.hasSource == m.hasSource && r.attempts == m.attempts && r.timer == m.timer
  {
    if m.status != s then m.(status := s, notified := m.notified + [s]) else m
  }

  /** `connect`: a no-op while connected or connecting; otherwise open a
      new event source. */
  function Connect(m: Manager): (r: Manager)
    ensures m.status == Connected || m.status == Connecting ==> r == m
    ensures m.status != Connected && m.status != Connecting ==>
      r.status == Connecting && r.hasSource && r.attempts == m.attempts && r.timer == m.timer
  {
    if m.status == Connected || m.status == Connecting then m
    else UpdateStatus(m, Connecting).(hasSource := true)
  }

  /** The source's `onopen`: attempts reset, connected, pending reconnect cancelled. */
  function OnOpen(m: Manager): (r: Manager)
    ensures m.hasSource ==> r.status == Connected && r.attempts == 0 && r.timer.None? && r.hasSource
    ensures !m.hasSource ==> r == m
  {
    if !m.hasSource then m
    else UpdateStatus(m.(attempts := 0), Connected).(timer := None)
  }

  /** `scheduleReconnect`: a no-op if a reconnect is already pending. */
  function ScheduleReconnect(m: Manager): (r: Manager)
    ensures m.timer.Some? ==> r == m
    ensures m.timer.None? ==> r.status == Reconnecting && r.timer == Some(ReconnectDelay(m.attempts)) && r.attempts == m.attempts
  {
    if m.timer.Some? then m
    else UpdateStatus(m, Reconnecting).(timer := Some(ReconnectDelay(m.attempts)))
  }

  /** `handleConnectionError`, the source's `onerror`: close the source,
      report the disconnection, schedule a reconnect. */
  function OnError(m: Manager): (r: Manager)
    ensures m.hasSource ==> !r.hasSource && r.timer.Some? && r.attempts == m.attempts
    ensures m.hasSource && m.timer.None? ==> r.status == Reconnecting && r.timer == Some(ReconnectDelay(m.attempts))
    ensures m.hasSource && m.timer.Some? ==> r.status == Disconnected && r.timer == m.timer
    ensures m.hasSource ==> (r.notified ==
      m.notified + (if m.status != Disconnected then [Disconnected] else []) + (if m.timer.None? then [Reconnecting] else []))
    ensures !m.hasSource ==> r == m
  {
    if !m.hasSource then m
    else ScheduleReconnect(UpdateStatus(m.(hasSource := false), Disconnected))
  }

  /** The reconnect timer firing: one more attempt, then `connect`. */
  function OnTimer(m: Manager): (r: Manager)
    ensures m.timer.None? ==> r == m
    ensures m.timer.Some? ==> r.attempts == m.attempts + 1 && r.timer.None?
    ensures m.timer.Some? && m.status != Connected && m.status != Connecting ==> r.status == Connecting && r.hasSource
  {
    if m.timer.None? then m
    else Connect(m.(attempts := m.attempts + 1, timer := None))
  }

  /** `disconnect`: cancel any reconnect, close the source, reset attempts. */
  function Disconnect(m: Manager): (r: Manager)
    ensures r.status == Disconnected && !r.hasSource && r.timer.None? && r.attempts == 0
  {
    UpdateStatus(m.(timer := None, hasSource := false), Disconnected).(attempts := 0)
  }

  /** `onStatusChange`: a new listener is told the current status at once. */
  function OnStatusChange(m: Manager): (first: ConnectionStatus)
    ensures first == m.status
  {
    m.status
  }

  /** Successive notifications always differ. */
  predicate ChangesOnly(s: seq<ConnectionStatus>) {
    forall i :: 0 < i < |s| ==> s[i] != s[i - 1]
  }

  /** The reachable states: a source is open exactly while connecting or
      connected; a pending reconnect rules out being connected;
      reconnecting means a reconnect is pending; and the notifications,
      after the initial `disconnected`, are a change-only history ending in
      the current status. */
  predicate Valid(m: Manager) {
    && (m.hasSource <==> m.status == Connecting || m.status == Connected)
    && (m.status == Connected ==> m.timer.None?)
    && (m.status == Reconnecting ==> m.timer.Some?)
    && ChangesOnly([Disconnected] + m.notified)
    && ([Disconnected] + m.notified)[|m.notified|] == m.status
  }

  datatype Event = ConnectCall | Open | Error | TimerFires | DisconnectCall

  function Step(m: Manager, e: Event): Manager {
    match e
    case ConnectCall => Connect(m)
    case Open => OnOpen(m)
    case Error => OnError(m)
    case TimerFires => OnTimer(m)
    case DisconnectCall => Disconnect(m)
  }

  lemma UpdateStatusValidLog(m: Manager, s: ConnectionStatus)
    requires ChangesOnly([Disconnected] + m.notified) && ([Disconnected] + m.notified)[|m.notified|] == m.status
    ensures var r := UpdateStatus(m, s);
      ChangesOnly([Disconnected] + r.notified) && ([Disconnected] + r.notified)[|r.notified|] == r.status
  {
    if m.status != s {
      assert [Disconnected] + (m.notified + [s]) == ([Disconnected] + m.notified) + [s];
    }
  }

  /** Every operation keeps the manager in a reachable state. */
  lemma StepPreservesValid(m: Manager, e: Event)
    requires Valid(m)
    ensures Valid(Step(m, e))
  {
    match e
    case ConnectCall =>
      UpdateStatusValidLog(m, Connecting);
    case Open =>
      UpdateStatusValidLog(m.(attempts := 0), Connected);
    case Error =>
      var m1 := UpdateStatus(m.(hasSource := false), Disconnected);
      UpdateStatusValidLog(m.(hasSource := false), Disconnected);
      UpdateStatusValidLog(m1, Reconnecting);
    case TimerFires =>
      UpdateStatusValidLog(m.(attempts := m.attempts + 1, timer := None), Connecting);
    case DisconnectCall =>
      UpdateStatusValidLog(m.(timer := None, hasSource := false), Disconnected);
  }

  function Run(m: Manager, es: seq<Event>): Manager
    decreases |es|
  {
    if |es| == 0 then m else Run(Step(m, es[0]), es[1..])
  }

  /** From the initial state every sequence of operations stays valid, so
      listeners never hear the same status twice in a row. */
  lemma {:induction false} RunPreservesValid(m: Manager, es: seq<Event>)
    requires Valid(m)
    ensures Valid(Run(m, es))
    decreases |es|
  {
    if |es| > 0 {
      StepPreservesValid(m, es[0]);
      RunPreservesValid(Step(m, es[0]), es[1..]);
    }
  }

  lemma InitialValid()
    ensures Valid(Initial)
  {
  }
}
