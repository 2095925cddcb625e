/** The stop hook (agent/src/hooks/stop.ts): when the agent is about to
    stop, report it and give the operator five seconds to ask for the
    session to continue. Only `continue` and `stop` commands are taken;
    anything else leaves the agent free to stop. */
module StopHook {
  import opened Wrappers
  import opened Text
  import opened Domain
  import opened HookUtils
  import opened PollLoop

  /** `processSessionControl`'s default `maxWaitTime`. */
  const MaxWait: nat := 5000

  const NoCommandsResponse: HookResponse :=
    HookResponse(true, Some("No session control commands, proceeding with stop"), None)

  /** The command types the stop hook takes. */
  predicate SessionControl(k: CommandType) {
    k == Continue || k == Stop
  }

  /** `executeSessionCommand`: `approved` false keeps the session running. */
  function ExecuteSessionCommand(c: RemoteCommand): (r: HookResponse)
    ensures !r.approved <==> c.kind == Continue
    ensures Truthy(r.reason)
    ensures SessionControl(c.kind) && Truthy(c.payload.reason) ==> r.reason == c.payload.reason
    ensures c.kind == Continue ==> r.reason == Some(Or(c.payload.reason, "Continue session requested"))
    ensures c.kind == Stop ==> r.reason == Some(Or(c.payload.reason, "Stop session confirmed"))
    ensures c.kind == Continue ==> r.feedback == (if Truthy(c.payload.instructions) then c.payload.instructions else c.payload.feedback)
    ensures c.kind == Stop ==> r.feedback == c.payload.feedback
    ensures !SessionControl(c.kind) ==> r == HookResponse(true, Some("Unknown command type, proceeding with stop"), None)
  {
    match c.kind
    case Continue =>
      HookResponse(false, Some(Or(c.payload.reason, "Continue session requested")), OrElse(c.payload.instructions, c.payload.feedback))
    case Stop => HookResponse(true, Some(Or(c.payload.reason, "Stop session confirmed")), c.payload.feedback)
    case _ => HookResponse(true, Some("Unknown command type, proceeding with stop"), None)
  }

  /** `processSessionControl`: only session-control commands are taken. */
  const Config: PollConfig := PollConfig(SessionControl, ExecuteSessionCommand, "Executed by stop hook", NoCommandsResponse)

  /** Everything a run depends on besides the code. */
  datatype Env = Env(
    argv: seq<string>,
    stdin: Option<string>,
    parse: string -> Option<Json>,
    envSessionId: Option<string>,
    generatedSessionId: string,
    now: int,
    sendReply: HttpResult<HookResponse>,
    sendLatency: nat,
    polls: seq<PollStep>)

  function SessionId(env: Env): string {
    Or(env.envSessionId, env.generatedSessionId)
  }

  /** The event reported to the server, under the argument's agent id,
      carrying the whole parsed stdin. */
  function StopEvent(env: Env): (e: HookEvent)
    ensures e.agentId == Arg(env.argv, 1) && e.hookType == StopPoint && e.sessionId == SessionId(env)
    ensures e.data.rawInput == Some(ParseStdinData(env.stdin, env.parse))
    ensures e.data.message == Some("Claude session stopping") && e.data.toolName.None? && e.data.computerId.None?
  {
    HookEvent(Arg(env.argv, 1), SessionId(env), StopPoint, env.now,
              NoData.(message := Some("Claude session stopping"), rawInput := Some(ParseStdinData(env.stdin, env.parse))))
  }

  /** The poll loop of a run. */
  function RunLoop(env: Env): LoopResult {
    Loop(Config, Arg(env.argv, 1), SessionId(env), env.polls, 0, MaxWait)
  }

  /** `main`. None of the steps inside its `try` can throw once the helpers
      have absorbed their own failures, so its catch arm is never taken. */
  function Run(env: Env): (r: HookRun)
    ensures r.output.Exit? <==> !UsageOk(env.argv)
    ensures r.output.Exit? ==> r.output.code == 1 && r.calls == []
    ensures UsageOk(env.argv) ==> r.output.Printed?
    ensures r.output.Printed? ==> |r.calls| >= 2 && r.calls[..2] == [ReadStdin, Emit(StopEvent(env))]
    ensures r.output.Printed? && !r.output.response.approved ==> r.claimed.Some? && r.claimed.value.kind == Continue
    ensures r.claimed.Some? ==> SessionControl(r.claimed.value.kind) && SessionMatches(r.claimed.value, SessionId(env))
  {
    if !UsageOk(env.argv) then HookRun(Exit(1), [], None)
    else
      var loop := RunLoop(env);
      HookRun(Printed(loop.response), [ReadStdin, Emit(StopEvent(env))] + loop.calls, loop.chosen)
  }

  /** A run polls only for the argument's agent and claims at most one
      command, which it then completes. */
  lemma {:induction false} RunCalls(env: Env)
    requires UsageOk(env.argv)
    ensures var r := Run(env); var loop := RunLoop(env);
      && r.calls == [ReadStdin, Emit(StopEvent(env))] + ListCalls(Arg(env.argv, 1), loop.polls)
           + (if r.claimed.Some? then [ClaimCall(r.claimed.value.id), CompleteCall(r.claimed.value.id, "Executed by stop hook")] else [])
  {
    LoopCalls(Config, Arg(env.argv, 1), SessionId(env), env.polls, 0, MaxWait);
  }

  /** A command of another type is passed over even when it is listed
      first: the run takes the first session-control command for this
      session from the same reply. */
  lemma {:induction false} SkipsOtherTypes(env: Env, other: RemoteCommand, wanted: RemoteCommand)
    requires UsageOk(env.argv)
    requires !SessionControl(other.kind) && SessionControl(wanted.kind) && SessionMatches(wanted, SessionId(env))
    requires |env.polls| > 0 && env.polls[0].latency < PollTimeout && env.polls[0].reply == Ok(JArray([Item(other), Item(wanted)]))
    ensures Run(env).claimed == Some(wanted)
    ensures Run(env).output == Printed(ExecuteSessionCommand(wanted))
  {
    var items := [Item(other), Item(wanted)];
    assert ItemsOf(env.polls[0]) == items;
    assert items[1..] == [Item(wanted)];
    assert ScanFor(items, SessionId(env), SessionControl) == Found(wanted);
  }

  /** With no session-control command on offer for five seconds the agent
      is let stop, with the no-commands reason. */
  lemma QuietBrokerLetsStop(env: Env)
    requires UsageOk(env.argv) && Silent(env.polls)
    ensures Run(env).output == Printed(NoCommandsResponse) && Run(env).claimed.None?
  {
    SilentBrokerFallsBack(Config, Arg(env.argv, 1), SessionId(env), env.polls, 0, MaxWait);
  }

  /** A failing first poll ends the loop at once: no further poll, and the
      agent is let stop. */
  lemma FailedPollLetsStop(env: Env)
    requires UsageOk(env.argv)
    requires |env.polls| > 0 && env.polls[0].latency < PollTimeout && env.polls[0].reply == Ok(JArray([NullItem]))
    ensures Run(env).output == Printed(NoCommandsResponse)
    ensures Run(env).calls == [ReadStdin, Emit(StopEvent(env)), ListPendingCall(Arg(env.argv, 1))]
  {
    assert ScanFor(ItemsOf(env.polls[0]), SessionId(env), SessionControl) == Fault;
  }
}
