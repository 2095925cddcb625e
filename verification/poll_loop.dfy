/** The poll loop shared by the pre-tool-use hook
    (`processWithCommandChecking`) and the stop hook
    (`processSessionControl`): poll the broker, claim and run the first
    command that targets this session and that the hook accepts, otherwise
    sleep 500 ms and poll again until `maxWaitTime` has elapsed. The clock
    is explicit: a poll costs its latency, cut off at the 1 s abort, plus
    the time to read its body, which no abort covers; claiming and
    completing a command cost their own latencies, which are not cut off
    either. The deadline is checked only before each poll. */
module PollLoop {
  import opened Wrappers
  import opened Domain
  import opened HookUtils

  const SleepMs: nat := 500

  /** One poll: how long the list request took to answer, how long reading
      its body took, how it ended, and how long the claim and the completion
      of a command found in it take. */
  datatype PollStep = PollStep(latency: nat, readLatency: nat, reply: HttpResult<CommandListBody>,
                               claimLatency: nat, completeLatency: nat)

  /** A poll made after the scripted ones: an immediate empty list. */
  const QuietPoll: PollStep := PollStep(0, 0, Ok(JArray([])), 0, 0)

  /** The body is read only from a 2xx reply that beat the abort, and the
      abort timer is already cleared by then. */
  function ReadTime(step: PollStep): nat {
    if step.latency < PollTimeout && step.reply.Ok? then step.readLatency else 0
  }

  /** What one poll costs: the answer, cut off at the abort, then the read. */
  function PollTime(step: PollStep): (r: nat)
    ensures ReadTime(step) <= r <= PollTimeout + ReadTime(step)
  {
    (if step.latency < PollTimeout then step.latency else PollTimeout) + ReadTime(step)
  }

  /** The waits of a poll that nothing bounds: its body read and, when it
      yields the chosen command, the claim and the completion. */
  function Untimed(step: PollStep, found: bool): nat {
    ReadTime(step) + (if found then step.claimLatency + step.completeLatency else 0)
  }

  /** The `i`th poll of a run. */
  function StepAt(script: seq<PollStep>, i: int): PollStep {
    if 0 <= i < |script| then script[i] else QuietPoll
  }

  /** What differs between the two hooks. */
  datatype PollConfig = PollConfig(
    accept: CommandType -> bool,
    execute: RemoteCommand -> HookResponse,
    resultText: string,
    fallback: HookResponse)

  /** `command.sessionId === sessionId || !command.sessionId`. */
  predicate SessionMatches(c: RemoteCommand, sessionId: string) {
    c.sessionId == sessionId || c.sessionId == ""
  }

  predicate Wanted(c: RemoteCommand, sessionId: string, accept: CommandType -> bool) {
    SessionMatches(c, sessionId) && accept(c.kind)
  }

  /** The result of scanning one reply: the first wanted command, no
      wanted command, or a `null` element, whose property access throws. */
  datatype Scan = Found(cmd: RemoteCommand) | NoMatch | Fault

  function ScanFor(items: seq<WireItem>, sessionId: string, accept: CommandType -> bool): (r: Scan)
    ensures r.Found? ==> Wanted(r.cmd, sessionId, accept) && Item(r.cmd) in items
    decreases |items|
  {
    if |items| == 0 then NoMatch
    else match items[0]
      case NullItem => Fault
      case Item(c) => if Wanted(c, sessionId, accept) then Found(c) else ScanFor(items[1..], sessionId, accept)
  }

  /** The scan takes the first wanted command, and no `null` comes before it. */
  lemma {:induction false} ScanForFirst(items: seq<WireItem>, sessionId: string, accept: CommandType -> bool)
    ensures var r := ScanFor(items, sessionId, accept);
      r.Found? ==> exists i :: (0 <= i < |items| && items[i] == Item(r.cmd)
        && forall j :: 0 <= j < i ==> items[j].Item? && !Wanted(items[j].cmd, sessionId, accept))
    decreases |items|
  {
    if |items| > 0 && items[0].Item? && !Wanted(items[0].cmd, sessionId, accept) {
      ScanForFirst(items[1..], sessionId, accept);
      var r := ScanFor(items, sessionId, accept);
      if r.Found? {
        var i :| 0 <= i < |items[1..]| && items[1..][i] == Item(r.cmd)
          && forall j :: 0 <= j < i ==> items[1..][j].Item? && !Wanted(items[1..][j].cmd, sessionId, accept);
        assert items[i + 1] == Item(r.cmd);
      }
    }
  }

  /** The scan finds nothing exactly when every element is a command and
      none is wanted, and it faults only on a `null` element. */
  lemma {:induction false} ScanForNone(items: seq<WireItem>, sessionId: string, accept: CommandType -> bool)
    ensures ScanFor(items, sessionId, accept).NoMatch? <==>
      forall j :: 0 <= j < |items| ==> items[j].Item? && !Wanted(items[j].cmd, sessionId, accept)
    ensures ScanFor(items, sessionId, accept).Fault? ==> exists i :: 0 <= i < |items| && items[i].NullItem?
    decreases |items|
  {
    if |items| > 0 && items[0].Item? && !Wanted(items[0].cmd, sessionId, accept) {
      ScanForNone(items[1..], sessionId, accept);
      if ScanFor(items, sessionId, accept).Fault? {
        var i :| 0 <= i < |items[1..]| && items[1..][i].NullItem?;
        assert items[i + 1].NullItem?;
      }
    }
  }

  /** How a loop ended: its response, the command it claimed, its calls,
      how many polls it made, the time it ended, and whether it left
      through its `catch` arm after a faulting poll. */
  datatype LoopResult = LoopResult(
    response: HookResponse,
    chosen: Option<RemoteCommand>,
    calls: seq<Call>,
    polls: nat,
    elapsed: nat,
    faulted: bool)

  function ItemsOf(step: PollStep): seq<WireItem> {
    CheckForPendingCommands(step.reply, step.latency)
  }

  function Head(script: seq<PollStep>): PollStep {
    if |script| > 0 then script[0] else QuietPoll
  }

  function Tail(script: seq<PollStep>): seq<PollStep> {
    if |script| > 0 then script[1..] else []
  }

  /** The polls are the only calls before a claim. */
  predicate OnlyPolls(calls: seq<Call>, agentId: string) {
    forall i :: 0 <= i < |calls| ==> calls[i] == ListPendingCall(agentId)
  }

  /** The loop from `elapsed` ms after its start. */
  function Loop(cfg: PollConfig, agentId: string, sessionId: string, script: seq<PollStep>,
                elapsed: nat, maxWait: nat): (r: LoopResult)
    ensures elapsed >= maxWait ==> r.polls == 0 && r.elapsed == elapsed && r.chosen.None?
    ensures r.chosen.None? ==> r.response == cfg.fallback
    ensures r.chosen.Some? ==> r.response == cfg.execute(r.chosen.value) && Wanted(r.chosen.value, sessionId, cfg.accept)
    ensures r.faulted ==> r.chosen.None? && r.polls > 0
    decreases if elapsed < maxWait then maxWait - elapsed else 0
  {
    if elapsed >= maxWait then LoopResult(cfg.fallback, None, [], 0, elapsed, false)
    else
      var step := Head(script);
      var t := elapsed + PollTime(step);
      match ScanFor(ItemsOf(step), sessionId, cfg.accept)
      case Found(c) =>
        LoopResult(cfg.execute(c), Some(c),
                   [ListPendingCall(agentId), ClaimCall(c.id), CompleteCall(c.id, cfg.resultText)], 1,
                   t + step.claimLatency + step.completeLatency, false)
      case Fault => LoopResult(cfg.fallback, None, [ListPendingCall(agentId)], 1, t, true)
      case NoMatch =>
        var rest := Loop(cfg, agentId, sessionId, Tail(script), t + SleepMs, maxWait);
        rest.(calls := [ListPendingCall(agentId)] + rest.calls, polls := rest.polls + 1)
  }

  /** The timing of a run `r` started at `elapsed`: it polls at least
      once, no poll starts at or after the deadline and polls start at least
      500 ms apart; it ends within one poll deadline plus one sleep after the
      deadline, plus the waits of its last poll that nothing bounds (the body
      read, and the claim and completion of a chosen command), and those
      waits are charged in full. */
  predicate Timed(r: LoopResult, script: seq<PollStep>, elapsed: int, maxWait: int) {
    var last := Untimed(StepAt(script, r.polls - 1), r.chosen.Some?);
    && 0 < r.polls && (r.polls - 1) * SleepMs < maxWait - elapsed
    && elapsed + last <= r.elapsed < maxWait + PollTimeout + SleepMs + last
  }

  /** Every run started before the deadline is timed as `Timed` says. */
  lemma {:induction false} LoopTiming(cfg: PollConfig, agentId: string, sessionId: string, script: seq<PollStep>,
                                      elapsed: nat, maxWait: nat)
    requires elapsed < maxWait
    ensures Timed(Loop(cfg, agentId, sessionId, script, elapsed, maxWait), script, elapsed, maxWait)
    decreases maxWait - elapsed
  {
    var step := Head(script);
    var t := elapsed + PollTime(step);
    if ScanFor(ItemsOf(step), sessionId, cfg.accept).NoMatch? && t + SleepMs < maxWait {
      LoopContinues(cfg, agentId, sessionId, script, elapsed, maxWait);
      LoopTiming(cfg, agentId, sessionId, Tail(script), t + SleepMs, maxWait);
      TimedStep(Loop(cfg, agentId, sessionId, script, elapsed, maxWait),
                Loop(cfg, agentId, sessionId, Tail(script), t + SleepMs, maxWait), script, elapsed, t, maxWait);
    } else {
      FirstPollTiming(cfg, agentId, sessionId, script, elapsed, maxWait);
    }
  }

  /** `LoopTiming` for a run whose first poll is its last. */
  lemma FirstPollTiming(cfg: PollConfig, agentId: string, sessionId: string, script: seq<PollStep>,
                        elapsed: nat, maxWait: nat)
    requires elapsed < maxWait
    requires var t := elapsed + PollTime(Head(script));
      !ScanFor(ItemsOf(Head(script)), sessionId, cfg.accept).NoMatch? || t + SleepMs >= maxWait
    ensures Loop(cfg, agentId, sessionId, script, elapsed, maxWait).polls == 1
    ensures Timed(Loop(cfg, agentId, sessionId, script, elapsed, maxWait), script, elapsed, maxWait)
  {
    var step := Head(script);
    var t := elapsed + PollTime(step);
    LoopStep(cfg, agentId, sessionId, script, elapsed, maxWait);
    assert StepAt(script, 0) == step;
    if ScanFor(ItemsOf(step), sessionId, cfg.accept).NoMatch? {
      var rest := Loop(cfg, agentId, sessionId, Tail(script), t + SleepMs, maxWait);
      assert rest.polls == 0 && rest.elapsed == t + SleepMs && rest.chosen.None?;
    }
  }

  /** The timing of the rest of a run, started `SleepMs` after a first poll
      that ended at `t`, gives that of the whole run. */
  lemma TimedStep(r: LoopResult, rest: LoopResult, script: seq<PollStep>, elapsed: int, t: int, maxWait: int)
    requires Timed(rest, Tail(script), t + SleepMs, maxWait) && elapsed <= t
    requires r.polls == rest.polls + 1 && r.chosen == rest.chosen && r.elapsed == rest.elapsed
    ensures Timed(r, script, elapsed, maxWait)
  {
    assert StepAt(script, r.polls - 1) == StepAt(Tail(script), rest.polls - 1);
  }

  /** A first poll that finds nothing before the deadline adds one poll to
      the rest of the run and changes nothing else about its outcome. */
  lemma LoopContinues(cfg: PollConfig, agentId: string, sessionId: string, script: seq<PollStep>,
                      elapsed: nat, maxWait: nat)
    requires elapsed < maxWait && ScanFor(ItemsOf(Head(script)), sessionId, cfg.accept).NoMatch?
    ensures var r := Loop(cfg, agentId, sessionId, script, elapsed, maxWait);
      var rest := Loop(cfg, agentId, sessionId, Tail(script), elapsed + PollTime(Head(script)) + SleepMs, maxWait);
      r.polls == rest.polls + 1 && r.chosen == rest.chosen && r.elapsed == rest.elapsed
  {
  }

  /** One turn of the loop: what a first poll that ends it leaves, and
      what a first poll that finds nothing adds to the rest of the run. */
  lemma LoopStep(cfg: PollConfig, agentId: string, sessionId: string, script: seq<PollStep>,
                 elapsed: nat, maxWait: nat)
    requires elapsed < maxWait
    ensures var r := Loop(cfg, agentId, sessionId, script, elapsed, maxWait);
      var step := Head(script); var t := elapsed + PollTime(step);
      var rest := Loop(cfg, agentId, sessionId, Tail(script), t + SleepMs, maxWait);
      match ScanFor(ItemsOf(step), sessionId, cfg.accept)
      case Found(c) => r.polls == 1 && r.chosen == Some(c) && r.elapsed == t + step.claimLatency + step.completeLatency
      case Fault => r.polls == 1 && r.chosen.None? && r.elapsed == t
      case NoMatch => r.polls == rest.polls + 1 && r.chosen == rest.chosen && r.elapsed == rest.elapsed
  {
  }

  /** `n` list requests. */
  function ListCalls(agentId: string, n: nat): (r: seq<Call>)
    ensures |r| == n && OnlyPolls(r, agentId)
  {
    if n == 0 then [] else [ListPendingCall(agentId)] + ListCalls(agentId, n - 1)
  }

  lemma ListCallsPrepend(agentId: string, n: nat, last: seq<Call>)
    ensures [ListPendingCall(agentId)] + (ListCalls(agentId, n) + last) == ListCalls(agentId, n + 1) + last
  {
    assert ListCalls(agentId, n + 1) == [ListPendingCall(agentId)] + ListCalls(agentId, n);
  }

  /** A poll that finds nothing wanted is followed by the rest of the loop. */
  lemma LoopAgain(cfg: PollConfig, agentId: string, sessionId: string, script: seq<PollStep>,
                  elapsed: nat, maxWait: nat)
    requires elapsed < maxWait
    requires ScanFor(ItemsOf(Head(script)), sessionId, cfg.accept).NoMatch?
    ensures var t := elapsed + PollTime(Head(script));
      var rest := Loop(cfg, agentId, sessionId, Tail(script), t + SleepMs, maxWait);
      Loop(cfg, agentId, sessionId, script, elapsed, maxWait)
        == rest.(calls := [ListPendingCall(agentId)] + rest.calls, polls := rest.polls + 1)
  {
  }

  /** A poll that finds a wanted command, or faults, ends the loop after
      that one list request. */
  lemma LoopStops(cfg: PollConfig, agentId: string, sessionId: string, script: seq<PollStep>,
                  elapsed: nat, maxWait: nat)
    requires elapsed < maxWait
    requires !ScanFor(ItemsOf(Head(script)), sessionId, cfg.accept).NoMatch?
    ensures var r := Loop(cfg, agentId, sessionId, script, elapsed, maxWait);
      && r.polls == 1
      && r.calls == [ListPendingCall(agentId)]
           + (if r.chosen.Some? then [ClaimCall(r.chosen.value.id), CompleteCall(r.chosen.value.id, cfg.resultText)] else [])
  {
  }

  /** The call log of a run: one list request per poll, then, if a command
      was chosen, its claim and its completion. */
  lemma {:induction false} LoopCalls(cfg: PollConfig, agentId: string, sessionId: string, script: seq<PollStep>,
                                     elapsed: nat, maxWait: nat)
    ensures var r := Loop(cfg, agentId, sessionId, script, elapsed, maxWait);
      r.calls == ListCalls(agentId, r.polls)
        + (if r.chosen.Some? then [ClaimCall(r.chosen.value.id), CompleteCall(r.chosen.value.id, cfg.resultText)] else [])
    decreases if elapsed < maxWait then maxWait - elapsed else 0
  {
    if elapsed < maxWait {
      var step := Head(script);
      var t := elapsed + PollTime(step);
      if ScanFor(ItemsOf(step), sessionId, cfg.accept).NoMatch? {
        LoopCalls(cfg, agentId, sessionId, Tail(script), t + SleepMs, maxWait);
        var rest := Loop(cfg, agentId, sessionId, Tail(script), t + SleepMs, maxWait);
        LoopAgain(cfg, agentId, sessionId, script, elapsed, maxWait);
        var last := if rest.chosen.Some? then [ClaimCall(rest.chosen.value.id), CompleteCall(rest.chosen.value.id, cfg.resultText)] else [];
        ListCallsPrepend(agentId, rest.polls, last);
      } else {
        LoopStops(cfg, agentId, sessionId, script, elapsed, maxWait);
        assert ListCalls(agentId, 1) == [ListPendingCall(agentId)];
      }
    }
  }

  /** The chosen command is the first wanted entry of the last poll's reply,
      so the loop never claims a command addressed to another non-empty
      session, nor one the hook does not accept; and the loop takes its
      `catch` arm exactly when its last poll's reply faulted. */
  lemma {:induction false} LoopChoice(cfg: PollConfig, agentId: string, sessionId: string, script: seq<PollStep>,
                                      elapsed: nat, maxWait: nat)
    ensures var r := Loop(cfg, agentId, sessionId, script, elapsed, maxWait);
      r.chosen.Some? ==>
        && 0 < r.polls <= |script|
        && ScanFor(ItemsOf(script[r.polls - 1]), sessionId, cfg.accept) == Found(r.chosen.value)
    ensures var r := Loop(cfg, agentId, sessionId, script, elapsed, maxWait);
      r.faulted <==> 0 < r.polls <= |script| && ScanFor(ItemsOf(script[r.polls - 1]), sessionId, cfg.accept).Fault?
    decreases if elapsed < maxWait then maxWait - elapsed else 0
  {
    if elapsed < maxWait {
      var step := Head(script);
      var t := elapsed + PollTime(step);
      assert ScanFor(ItemsOf(QuietPoll), sessionId, cfg.accept) == NoMatch;
      if ScanFor(ItemsOf(step), sessionId, cfg.accept).NoMatch? {
        LoopChoice(cfg, agentId, sessionId, Tail(script), t + SleepMs, maxWait);
        LoopAgain(cfg, agentId, sessionId, script, elapsed, maxWait);
      }
    }
  }

  /** Replies that never hold a command: the broker down, failing, or
      answering with an empty list. */
  predicate Silent(script: seq<PollStep>) {
    forall i :: 0 <= i < |script| ==> ItemsOf(script[i]) == []
  }

  /** If the broker offers nothing for the whole window, the loop returns
      the fallback without claiming anything, within `maxWait` plus one poll
      deadline plus one sleep plus the body read of its last poll. */
  lemma {:induction false} SilentBrokerFallsBack(cfg: PollConfig, agentId: string, sessionId: string,
                                                script: seq<PollStep>, elapsed: nat, maxWait: nat)
    requires Silent(script)
    ensures Loop(cfg, agentId, sessionId, script, elapsed, maxWait).chosen.None?
    ensures Loop(cfg, agentId, sessionId, script, elapsed, maxWait).response == cfg.fallback
    ensures !Loop(cfg, agentId, sessionId, script, elapsed, maxWait).faulted
    ensures var r := Loop(cfg, agentId, sessionId, script, elapsed, maxWait);
      r.elapsed < if elapsed < maxWait then maxWait + PollTimeout + SleepMs + ReadTime(StepAt(script, r.polls - 1))
                  else elapsed + 1
    decreases if elapsed < maxWait then maxWait - elapsed else 0
  {
    if elapsed < maxWait {
      var step := Head(script);
      assert ItemsOf(step) == [];
      var t := elapsed + PollTime(step);
      assert Silent(Tail(script));
      SilentBrokerFallsBack(cfg, agentId, sessionId, Tail(script), t + SleepMs, maxWait);
      LoopTiming(cfg, agentId, sessionId, script, elapsed, maxWait);
    }
  }
}
