/** The pre-tool-use hook (agent/src/hooks/pre-tool-use.ts): before the
    agent runs a tool, look for an interrupt, report the tool call to the
    server, then poll the broker for an operator decision. Every failure
    collapses to "approve and proceed", so the hook never blocks the agent
    unless an operator's command says so. */
module PreToolUse {
  import opened Wrappers
  import opened Text
  import opened Domain
  import opened HookUtils
  import opened PollLoop
  import Storage
  import HookIngest
  import Seqs

  /** `processWithCommandChecking`'s default `maxWaitTime`. */
  const MaxWait: nat := 30000

  const NoCommandsResponse: HookResponse := HookResponse(true, Some("No remote commands, proceeding"), None)
  const ErrorResponse: HookResponse := HookResponse(true, Some("Hook execution error, proceeding"), None)
  const InterruptFeedback: string := "Claude execution was interrupted by user request"

  /** The command types whose decision keeps the tool from running. */
  predicate StopsTool(k: CommandType) {
    k == Deny || k == Interrupt
  }

  /** `executeCommand`: the decision an operator's command stands for. */
  function ExecuteCommand(c: RemoteCommand): (r: HookResponse)
    ensures r.approved <==> !StopsTool(c.kind)
    ensures Truthy(r.reason)
    ensures c.kind in {Approve, Deny, Interrupt} && Truthy(c.payload.reason) ==> r.reason == c.payload.reason
    ensures c.kind == Approve ==> r.reason == Some(Or(c.payload.reason, "Approved remotely"))
    ensures c.kind == Deny ==> r.reason == Some(Or(c.payload.reason, "Denied remotely"))
    ensures c.kind == Interrupt ==> r.reason == Some(Or(c.payload.reason, "Execution interrupted"))
    ensures c.kind == Context ==> r.reason == Some("Context provided remotely")
    ensures c.kind in {Approve, Deny} ==> r.feedback == c.payload.feedback
    ensures c.kind == Context ==> r.feedback == (if Truthy(c.payload.instructions) then c.payload.instructions else c.payload.feedback)
    ensures c.kind in {Continue, Stop} ==> r == HookResponse(true, Some("Unknown command type, proceeding"), None)
  {
    match c.kind
    case Approve => HookResponse(true, Some(Or(c.payload.reason, "Approved remotely")), c.payload.feedback)
    case Deny => HookResponse(false, Some(Or(c.payload.reason, "Denied remotely")), c.payload.feedback)
    case Context => HookResponse(true, Some("Context provided remotely"), OrElse(c.payload.instructions, c.payload.feedback))
    case Interrupt => HookResponse(false, Some(Or(c.payload.reason, "Execution interrupted")), Some(InterruptFeedback))
    case _ => HookResponse(true, Some("Unknown command type, proceeding"), None)
  }

  function AcceptAll(k: CommandType): bool {
    true
  }

  /** `processWithCommandChecking`: every command type is taken. */
  const Config: PollConfig := PollConfig(AcceptAll, ExecuteCommand, "Executed by hook", NoCommandsResponse)

  /** What `getAgentContext` reports about the machine and the project. */
  datatype AgentContext = AgentContext(agentId: string, computerId: string, computerName: string, hostname: string,
                                       platform: string, agentName: string, workingDirectory: string)

  /** The writes to the debug log `/tmp/claude-companion-debug.log`, in the
      order a run can make them; each is made at most once. A write throws
      when the file cannot be written: the first four and the poll loop's
      own are inside `main`'s `try`, the last is in its `catch`. */
  datatype LogPoint = HookCalled | ToolDataParsed | EventSending | PollCaught | ResponseReady | MainCaught

  /** Everything a run depends on besides the code: arguments, the
      interrupt lookup (None when it throws), the debug-log writes that
      throw, stdin, the
      agent context (None when it throws), the environment's session id,
      the clock, and the server's replies. */
  datatype Env = Env(
    argv: seq<string>,
    interrupts: Option<seq<RemoteCommand>>,
    logFails: set<LogPoint>,
    stdin: Option<string>,
    parse: string -> Option<Json>,
    context: Option<AgentContext>,
    envSessionId: Option<string>,
    generatedSessionId: string,
    now: int,
    sendReply: HttpResult<HookResponse>,
    sendLatency: nat,
    polls: seq<PollStep>)

  /** The session id the hook uses: `CLAUDE_SESSION_ID`, else a generated one. */
  function SessionId(env: Env): string {
    Or(env.envSessionId, env.generatedSessionId)
  }

  /** The event reported to the server: the tool call as stdin described
      it, the whole parsed input, and the agent's context. */
  function ToolEvent(env: Env, ctx: AgentContext): (e: HookEvent)
    ensures e.agentId == ctx.agentId && e.sessionId == SessionId(env) && e.hookType == PreToolUse && e.timestamp == env.now
    ensures var d := ParseStdinData(env.stdin, env.parse);
      && e.data.rawInput == Some(d)
      && (d.Parsed? ==> e.data.toolName == d.value.toolName && e.data.toolArgs == d.value.toolInput
                        && e.data.sessionId == d.value.sessionId && e.data.transcriptPath == d.value.transcriptPath
                        && e.data.cwd == d.value.cwd)
      && (!d.Parsed? ==> e.data.toolName.None? && e.data.toolArgs.None? && e.data.sessionId.None?
                         && e.data.transcriptPath.None? && e.data.cwd.None?)
    ensures e.data.computerId == Some(ctx.computerId) && e.data.computerName == Some(ctx.computerName)
      && e.data.hostname == Some(ctx.hostname) && e.data.platform == Some(ctx.platform)
      && e.data.agentName == Some(ctx.agentName) && e.data.workingDirectory == Some(ctx.workingDirectory)
    ensures e.data.message.None? && e.data.riskLevel.None? && e.data.requiresApproval.None?
  {
    var input := ParseStdinData(env.stdin, env.parse);
    var tool := ToolFields(input);
    HookEvent(ctx.agentId, SessionId(env), PreToolUse, env.now,
      NoData.(toolName := tool.toolName, toolArgs := tool.toolInput, sessionId := tool.sessionId,
              transcriptPath := tool.transcriptPath, cwd := tool.cwd, rawInput := Some(input),
              computerId := Some(ctx.computerId), computerName := Some(ctx.computerName),
              hostname := Some(ctx.hostname), platform := Some(ctx.platform),
              agentName := Some(ctx.agentName), workingDirectory := Some(ctx.workingDirectory)))
  }

  /** A computer first seen through this hook's report is registered under
      the context's machine name, host name and platform, not under its id. */
  lemma ReportedComputerNamed(st: Storage.Store, env: Env, ctx: AgentContext, now: int)
    requires ctx.computerId != "" && ctx.computerName != "" && ctx.computerId !in st.computers
    ensures var c := HookIngest.RecordComputer(st, ToolEvent(env, ctx).data, now).computers[ctx.computerId];
      c.name == ctx.computerName && c.hostname == Or(Some(ctx.hostname), "unknown")
      && c.platform == Or(Some(ctx.platform), "unknown")
  {
  }

  /** The response to an interrupt found before anything else. */
  function InterruptResponse(cmd: RemoteCommand): HookResponse {
    HookResponse(false, Some(Or(cmd.payload.reason, "Execution interrupted from dashboard")), Some(InterruptFeedback))
  }

  /** The poll loop of the monitoring path, for the context's agent. */
  function MonitorLoop(env: Env, ctx: AgentContext): LoopResult {
    Loop(Config, ctx.agentId, SessionId(env), env.polls, 0, MaxWait)
  }

  /** Whether stdin parsed to `null`: reading `tool_name` off it throws. */
  predicate NullStdin(env: Env) {
    ParseStdinData(env.stdin, env.parse).ParsedNull?
  }

  /** Whether a step of the monitoring path throws into `main`'s `catch`:
      a debug-log write, reading a tool field off a `null` stdin, the
      context lookup, or the poll loop's own log write after a faulting
      poll. */
  predicate MonitorThrows(env: Env) {
    || HookCalled in env.logFails || NullStdin(env) || ToolDataParsed in env.logFails || env.context.None?
    || EventSending in env.logFails
    || (MonitorLoop(env, env.context.value).faulted && PollCaught in env.logFails)
    || ResponseReady in env.logFails
  }

  /** Whether `main`'s `try` throws. */
  predicate TryThrows(env: Env) {
    env.interrupts.None? || (env.interrupts == Some([]) && MonitorThrows(env))
  }

  /** `main`'s `catch`: log the error, then approve with the error reason.
      When that log write throws as well, the rejection escapes `main`. */
  function Caught(env: Env, calls: seq<Call>, claimed: Option<RemoteCommand>): HookRun {
    HookRun(if MainCaught in env.logFails then Unhandled else Printed(ErrorResponse), calls, claimed)
  }

  /** `main`. */
  function Run(env: Env): (r: HookRun)
    ensures r.output.Exit? <==> !UsageOk(env.argv)
    ensures r.output.Exit? ==> r.output.code == 1 && r.calls == []
    ensures r.output.Unhandled? <==> UsageOk(env.argv) && TryThrows(env) && MainCaught in env.logFails
    ensures !r.output.Exit? ==> |r.calls| > 0 && r.calls[0] == InterruptCheck(Arg(env.argv, 1))
    ensures r.output.Printed? && !r.output.response.approved ==> r.claimed.Some?
  {
    var agentId := Arg(env.argv, 1);
    if !UsageOk(env.argv) then HookRun(Exit(1), [], None)
    else match env.interrupts
      case None => Caught(env, [InterruptCheck(agentId)], None)
      case Some(list) =>
        if |list| > 0 then
          HookRun(Printed(InterruptResponse(list[0])),
                  [InterruptCheck(agentId), ClaimCall(list[0].id), CompleteCall(list[0].id, "Interrupted execution")],
                  Some(list[0]))
        else Monitor(env, [InterruptCheck(agentId)])
  }

  /** The rest of `main` once no interrupt is pending. */
  function Monitor(env: Env, before: seq<Call>): (r: HookRun)
    ensures !r.output.Exit? && |r.calls| >= |before| && r.calls[..|before|] == before
    ensures r.output.Unhandled? <==> MonitorThrows(env) && MainCaught in env.logFails
    ensures MonitorThrows(env) && MainCaught !in env.logFails ==> r.output == Printed(ErrorResponse)
    ensures !MonitorThrows(env) ==> r.output == Printed(MonitorLoop(env, env.context.value).response)
    ensures r.output.Printed? && !r.output.response.approved ==> r.claimed.Some?
  {
    if HookCalled in env.logFails then Caught(env, before, None)
    else
      var read := before + [ReadStdin];
      if NullStdin(env) || ToolDataParsed in env.logFails then Caught(env, read, None)
      else match env.context
        case None => Caught(env, read, None)
        case Some(ctx) =>
          if EventSending in env.logFails then Caught(env, read, None)
          else
            // `sendHookEvent`'s answer is not used: the decision comes
            // from the broker alone.
            var loop := MonitorLoop(env, ctx);
            var calls := read + [Emit(ToolEvent(env, ctx))] + loop.calls;
            assert calls[..|before|] == before;
            // A faulting poll is logged in the loop's `catch`; when that
            // write throws, the error leaves the loop before any response.
            if loop.faulted && PollCaught in env.logFails then Caught(env, calls, None)
            else if ResponseReady in env.logFails then Caught(env, calls, loop.chosen)
            else HookRun(Printed(loop.response), calls, loop.chosen)
  }

  /** A pending interrupt wins before stdin is read or any event is sent:
      its first entry is claimed and completed and the tool is stopped. */
  lemma InterruptFirst(env: Env)
    requires UsageOk(env.argv) && env.interrupts.Some? && |env.interrupts.value| > 0
    ensures var r := Run(env); var cmd := env.interrupts.value[0];
      && r.output.Printed? && !r.output.response.approved
      && r.output.response.reason == Some(Or(cmd.payload.reason, "Execution interrupted from dashboard"))
      && r.claimed == Some(cmd)
      && r.calls == [InterruptCheck(Arg(env.argv, 1)), ClaimCall(cmd.id), CompleteCall(cmd.id, "Interrupted execution")]
      && forall i :: 0 <= i < |r.calls| ==> r.calls[i] != ReadStdin && !r.calls[i].Emit?
  {
  }

  /** A failed interrupt lookup, a failed debug-log write inside the `try`
      or a failed context lookup approves the tool with the error reason,
      unless the `catch`'s own log write fails too: then nothing is
      printed and Node exits with status 1. */
  lemma FailuresProceed(env: Env)
    requires UsageOk(env.argv) && TryThrows(env)
    ensures Run(env).output == if MainCaught in env.logFails then Unhandled else Printed(ErrorResponse)
  {
    if env.interrupts == Some([]) {
      assert Run(env) == Monitor(env, [InterruptCheck(Arg(env.argv, 1))]);
    }
  }

  /** A poll whose reply faults ends the loop with the no-commands reason
      when the debug log can be written; when the loop's log write throws,
      the run ends as any other failure does. */
  lemma PollFaultEscapes(env: Env)
    requires UsageOk(env.argv) && env.interrupts == Some([]) && env.context.Some?
    requires env.logFails !! {HookCalled, ToolDataParsed, EventSending, ResponseReady} && !NullStdin(env)
    requires MonitorLoop(env, env.context.value).faulted
    ensures Run(env).output == if PollCaught !in env.logFails then Printed(NoCommandsResponse)
                               else if MainCaught in env.logFails then Unhandled else Printed(ErrorResponse)
  {
    assert Run(env) == Monitor(env, [InterruptCheck(Arg(env.argv, 1))]);
  }

  /** On the normal path the hook reports the tool call under the
      context's agent id, then makes only list requests for that agent
      until it claims, and the argument's agent id is used for the
      interrupt lookup alone. */
  lemma {:induction false} PollsWithContextAgent(env: Env)
    requires UsageOk(env.argv) && env.interrupts == Some([]) && env.logFails <= {MainCaught} && env.context.Some?
    requires !NullStdin(env)
    ensures var r := Run(env); var ctx := env.context.value;
      var loop := Loop(Config, ctx.agentId, SessionId(env), env.polls, 0, MaxWait);
      && |r.calls| >= 3 + loop.polls
      && r.calls[..3] == [InterruptCheck(Arg(env.argv, 1)), ReadStdin, Emit(ToolEvent(env, ctx))]
      && r.calls[3..3 + loop.polls] == ListCalls(ctx.agentId, loop.polls)
      && r.output == Printed(loop.response)
  {
    var r := Run(env);
    var ctx := env.context.value;
    var loop := Loop(Config, ctx.agentId, SessionId(env), env.polls, 0, MaxWait);
    var before := [InterruptCheck(Arg(env.argv, 1)), ReadStdin, Emit(ToolEvent(env, ctx))];
    var polls := ListCalls(ctx.agentId, loop.polls);
    var last := if loop.chosen.Some? then [ClaimCall(loop.chosen.value.id), CompleteCall(loop.chosen.value.id, Config.resultText)] else [];
    LoopCalls(Config, ctx.agentId, SessionId(env), env.polls, 0, MaxWait);
    NormalPath(env);
    assert [InterruptCheck(Arg(env.argv, 1))] + [ReadStdin] + [Emit(ToolEvent(env, ctx))] == before;
    Seqs.AppendAssoc(before, polls, last);
    assert r.calls == before + polls + last;
    Seqs.SlicesOfConcat(before, polls, last);
  }

  /** The run when nothing fails: the interrupt lookup, the stdin read,
      the report, then the poll loop, whose decision is printed. (Only the
      loop's own log write may fail, and only if no poll faults.) */
  lemma NormalPath(env: Env)
    requires UsageOk(env.argv) && env.interrupts == Some([]) && env.logFails <= {PollCaught, MainCaught} && env.context.Some?
    requires !NullStdin(env) && (PollCaught in env.logFails ==> !MonitorLoop(env, env.context.value).faulted)
    ensures var ctx := env.context.value; var loop := MonitorLoop(env, ctx);
      Run(env) == HookRun(Printed(loop.response), [InterruptCheck(Arg(env.argv, 1))] + [ReadStdin] + [Emit(ToolEvent(env, ctx))] + loop.calls, loop.chosen)
  {
    assert Run(env) == Monitor(env, [InterruptCheck(Arg(env.argv, 1))]);
  }

  /** Stdin reading `null` fails right after it is read: no event is
      reported, the broker is never asked, nothing is claimed, and the
      tool is approved with the error reason. */
  lemma NullStdinFails(env: Env)
    requires UsageOk(env.argv) && env.interrupts == Some([]) && NullStdin(env) && HookCalled !in env.logFails
    ensures var r := Run(env);
      && r.calls == [InterruptCheck(Arg(env.argv, 1)), ReadStdin] && r.claimed.None?
      && r.output == if MainCaught in env.logFails then Unhandled else Printed(ErrorResponse)
  {
    assert Run(env) == Monitor(env, [InterruptCheck(Arg(env.argv, 1))]);
  }

  /** With no interrupt pending, the run is the monitoring path. */
  lemma RunIsMonitor(env: Env)
    requires UsageOk(env.argv) && env.interrupts == Some([])
    ensures Run(env) == Monitor(env, [InterruptCheck(Arg(env.argv, 1))])
  {
  }

  /** The monitoring path blocks only from the poll loop's decision. */
  lemma MonitorBlocks(env: Env, before: seq<Call>)
    requires Monitor(env, before).output.Printed? && !Monitor(env, before).output.response.approved
    ensures env.context.Some? && !MonitorThrows(env)
    ensures var ctx := env.context.value;
      var loop := Loop(Config, ctx.agentId, SessionId(env), env.polls, 0, MaxWait);
      Monitor(env, before) == HookRun(Printed(loop.response), before + [ReadStdin] + [Emit(ToolEvent(env, ctx))] + loop.calls, loop.chosen)
  {
  }

  /** When the hook blocks a tool it is because of a command it claimed
      and completed: an interrupt, or a deny or interrupt command that
      targets this session or no session. */
  lemma {:induction false} BlockedOnlyByClaimedCommand(env: Env)
    requires Run(env).output.Printed? && !Run(env).output.response.approved
    ensures var r := Run(env); var cmd := r.claimed.value;
      && ClaimCall(cmd.id) in r.calls
      && r.calls[|r.calls| - 1] == CompleteCall(cmd.id, if env.interrupts == Some([]) then "Executed by hook" else "Interrupted execution")
      && (env.interrupts == Some([]) ==> StopsTool(cmd.kind) && SessionMatches(cmd, SessionId(env)))
  {
    if env.interrupts == Some([]) {
      var first := [InterruptCheck(Arg(env.argv, 1))];
      RunIsMonitor(env);
      MonitorBlocks(env, first);
      var ctx := env.context.value;
      var loop := Loop(Config, ctx.agentId, SessionId(env), env.polls, 0, MaxWait);
      LoopCalls(Config, ctx.agentId, SessionId(env), env.polls, 0, MaxWait);
      var before := first + [ReadStdin] + [Emit(ToolEvent(env, ctx))];
      var cmd := loop.chosen.value;
      var calls := before + (ListCalls(ctx.agentId, loop.polls) + [ClaimCall(cmd.id), CompleteCall(cmd.id, "Executed by hook")]);
      assert Run(env).calls == calls;
      assert calls[|before| + loop.polls] == ClaimCall(cmd.id);
    }
  }

  /** With no command on offer for the whole window, the hook approves
      with the no-commands reason and claims nothing. */
  lemma QuietBrokerApproves(env: Env)
    requires UsageOk(env.argv) && env.interrupts == Some([]) && env.logFails <= {PollCaught, MainCaught} && env.context.Some?
    requires !NullStdin(env)
    requires Silent(env.polls)
    ensures Run(env).output == Printed(NoCommandsResponse) && Run(env).claimed.None?
  {
    SilentBrokerFallsBack(Config, env.context.value.agentId, SessionId(env), env.polls, 0, MaxWait);
    NormalPath(env);
  }

  /** The server's answer to the reported event never changes the outcome. */
  lemma ServerAnswerIgnored(env: Env, reply: HttpResult<HookResponse>, latency: nat)
    ensures Run(env.(sendReply := reply, sendLatency := latency)) == Run(env)
  {
  }
}
