/** The dashboard's command client (client/src/services/commands-api.ts):
    the quick actions an operator triggers, each a create request with a
    fixed command type and a payload that fills in a default reason, and the
    reply handling of every endpoint. A call's outcome is an abstract
    `HttpResult`; the URLs and the JSON encoding are not modelled. */
module CommandsApi {
  import opened Wrappers
  import opened Text
  import opened Domain
  import opened HookUtils
  import Broker
  import PreToolUse
  import StopHook

  /** What a rejected promise carries: the endpoint's error message for a
      non-2xx reply, or the failure of `fetch` itself. */
  datatype ApiError = RequestFailed(message: string) | NetworkError

  /** The endpoints whose non-2xx reply rejects: `createCommand`,
      `getCommandsForAgent`, `getAllCommands`, `markCommandAsProcessing`
      and `completeCommand`. */
  datatype Endpoint = CreateEndpoint | AgentCommandsEndpoint | AllCommandsEndpoint | ProcessingEndpoint | CompleteEndpoint

  /** The lead of each endpoint's error message. */
  function FailurePrefix(ep: Endpoint): string {
    match ep
    case CreateEndpoint => "Failed to create command"
    case AgentCommandsEndpoint => "Failed to get commands"
    case AllCommandsEndpoint => "Failed to get all commands"
    case ProcessingEndpoint => "Failed to mark command as processing"
    case CompleteEndpoint => "Failed to complete command"
  }

  /** The reply handling those endpoints share: a 2xx reply yields its
      body, any other reply rejects with the endpoint's message followed by
      the reply's status text, and a failing `fetch` rejects too. */
  function Checked<T>(ep: Endpoint, reply: HttpResult<T>): (r: Result<T, ApiError>)
    ensures r.Success? <==> reply.Ok?
    ensures reply.Ok? ==> r.value == reply.body
    ensures reply.NotOk? ==> r == Failure(RequestFailed(FailurePrefix(ep) + ": " + reply.statusText))
    ensures reply.Throw? ==> r == Failure(NetworkError)
  {
    match reply
    case Ok(body) => Success(body)
    case NotOk(statusText) => Failure(RequestFailed(FailurePrefix(ep) + ": " + statusText))
    case Throw => Failure(NetworkError)
  }

  /** A rejection message tells which endpoint failed and with what status
      text: no endpoint's lead, with its colon, begins another's. */
  lemma MessageNamesEndpoint(ep1: Endpoint, ep2: Endpoint, status1: string, status2: string)
    requires FailurePrefix(ep1) + ": " + status1 == FailurePrefix(ep2) + ": " + status2
    ensures ep1 == ep2 && status1 == status2
  {
    var p1, p2 := FailurePrefix(ep1), FailurePrefix(ep2);
    var m := p1 + ": " + status1;
    assert p1[10] == m[10] == p2[10] && p1[11] == m[11] == p2[11] && p1[14] == m[14] == p2[14];
    LeadsDiffer(ep1, ep2);
    assert m[|p1| + 2..] == status1;
    assert m[|p2| + 2..] == status2;
  }

  /** Two endpoints' leads already differ at one of characters 10, 11 and 14. */
  lemma LeadsDiffer(ep1: Endpoint, ep2: Endpoint)
    requires FailurePrefix(ep1)[10] == FailurePrefix(ep2)[10] && FailurePrefix(ep1)[11] == FailurePrefix(ep2)[11]
    requires FailurePrefix(ep1)[14] == FailurePrefix(ep2)[14]
    ensures ep1 == ep2
  {
  }

  /** `getInterruptCommands`: the high-priority poll reads a non-2xx reply
      as "no interrupts" instead of failing; only a failing `fetch` rejects. */
  function GetInterruptCommands(reply: HttpResult<seq<RemoteCommand>>): (r: Result<seq<RemoteCommand>, ApiError>)
    ensures reply.NotOk? ==> r == Success([])
    ensures reply.Ok? ==> r == Success(reply.body)
    ensures r.Failure? <==> reply.Throw?
  {
    match reply
    case Ok(body) => Success(body)
    case NotOk(_) => Success([])
    case Throw => Failure(NetworkError)
  }

  // ---- Quick actions: the create request each one sends ------------------

  const ApprovedDefault: string := "Approved from dashboard"
  const DeniedDefault: string := "Denied from dashboard"
  const InterruptedDefault: string := "Interrupted from dashboard"

  /** `approveAction`: the operator's reason, or the dashboard's default. */
  function ApproveRequest(agentId: string, sessionId: string, reason: Option<string>, relatedEventId: Option<string>): (r: CommandRequest)
    ensures r.agentId == agentId && r.sessionId == sessionId && r.kind == Approve && r.relatedEventId == relatedEventId
    ensures r.payload.Some? && Truthy(r.payload.value.reason)
    ensures r.payload.value.feedback.None? && r.payload.value.instructions.None?
  {
    CommandRequest(agentId, sessionId, Approve, Some(Payload(Some(Or(reason, ApprovedDefault)), None, None)), relatedEventId)
  }

  /** `denyAction`: a reason (defaulted) and the operator's feedback. */
  function DenyRequest(agentId: string, sessionId: string, reason: Option<string>, feedback: Option<string>,
                       relatedEventId: Option<string>): (r: CommandRequest)
    ensures r.agentId == agentId && r.sessionId == sessionId && r.kind == Deny && r.relatedEventId == relatedEventId
    ensures r.payload.Some? && Truthy(r.payload.value.reason)
    ensures r.payload.value.feedback == feedback && r.payload.value.instructions.None?
  {
    CommandRequest(agentId, sessionId, Deny, Some(Payload(Some(Or(reason, DeniedDefault)), feedback, None)), relatedEventId)
  }

  /** `injectContext`: instructions only, no default reason. */
  function ContextRequest(agentId: string, sessionId: string, instructions: string, relatedEventId: Option<string>): (r: CommandRequest)
    ensures r.agentId == agentId && r.sessionId == sessionId && r.kind == Context && r.relatedEventId == relatedEventId
    ensures r.payload == Some(Payload(None, None, Some(instructions)))
  {
    CommandRequest(agentId, sessionId, Context, Some(Payload(None, None, Some(instructions))), relatedEventId)
  }

  /** `continueSession`: optional instructions, tied to no event. */
  function ContinueRequest(agentId: string, sessionId: string, instructions: Option<string>): (r: CommandRequest)
    ensures r.agentId == agentId && r.sessionId == sessionId && r.kind == Continue && r.relatedEventId.None?
    ensures r.payload == Some(Payload(None, None, instructions))
  {
    CommandRequest(agentId, sessionId, Continue, Some(Payload(None, None, instructions)), None)
  }

  /** `stopSession`: the operator's reason as given, tied to no event. */
  function StopRequest(agentId: string, sessionId: string, reason: Option<string>): (r: CommandRequest)
    ensures r.agentId == agentId && r.sessionId == sessionId && r.kind == Stop && r.relatedEventId.None?
    ensures r.payload == Some(Payload(reason, None, None))
  {
    CommandRequest(agentId, sessionId, Stop, Some(Payload(reason, None, None)), None)
  }

  /** `interruptSession`: a reason (defaulted), tied to no event. */
  function InterruptRequest(agentId: string, sessionId: string, reason: Option<string>): (r: CommandRequest)
    ensures r.agentId == agentId && r.sessionId == sessionId && r.kind == Interrupt && r.relatedEventId.None?
    ensures r.payload.Some? && Truthy(r.payload.value.reason)
    ensures r.payload.value.feedback.None? && r.payload.value.instructions.None?
  {
    CommandRequest(agentId, sessionId, Interrupt, Some(Payload(Some(Or(reason, InterruptedDefault)), None, None)), None)
  }

  // ---- From the dashboard button to the agent's hook ---------------------

  /** The command the broker stores for a request. */
  function Stored(b: Broker.Broker, id: string, req: CommandRequest, now: int): RemoteCommand {
    Broker.Create(b, id, req, now).1
  }

  /** An approval from the dashboard lets the tool run with the operator's
      reason, or "Approved from dashboard": the hook's own default reason
      never shows. */
  lemma ApproveReachesHook(b: Broker.Broker, id: string, agentId: string, sessionId: string,
                           reason: Option<string>, related: Option<string>, now: int)
    ensures PreToolUse.ExecuteCommand(Stored(b, id, ApproveRequest(agentId, sessionId, reason, related), now))
      == HookResponse(true, Some(Or(reason, ApprovedDefault)), None)
  {
  }

  /** A denial blocks the tool and passes the operator's feedback to the agent. */
  lemma DenyReachesHook(b: Broker.Broker, id: string, agentId: string, sessionId: string,
                        reason: Option<string>, feedback: Option<string>, related: Option<string>, now: int)
    ensures PreToolUse.ExecuteCommand(Stored(b, id, DenyRequest(agentId, sessionId, reason, feedback, related), now))
      == HookResponse(false, Some(Or(reason, DeniedDefault)), feedback)
  {
  }

  /** Injected context lets the tool run and hands non-empty instructions
      to the agent as feedback. */
  lemma ContextReachesHook(b: Broker.Broker, id: string, agentId: string, sessionId: string,
                           instructions: string, related: Option<string>, now: int)
    ensures PreToolUse.ExecuteCommand(Stored(b, id, ContextRequest(agentId, sessionId, instructions, related), now))
      == HookResponse(true, Some("Context provided remotely"), if instructions != "" then Some(instructions) else None)
  {
  }

  /** An interrupt blocks the tool with the operator's reason and the fixed
      interruption feedback. */
  lemma InterruptReachesHook(b: Broker.Broker, id: string, agentId: string, sessionId: string,
                             reason: Option<string>, now: int)
    ensures PreToolUse.ExecuteCommand(Stored(b, id, InterruptRequest(agentId, sessionId, reason), now))
      == HookResponse(false, Some(Or(reason, InterruptedDefault)), Some(PreToolUse.InterruptFeedback))
  {
  }

  /** At the stop point, continuing keeps the session alive with the
      operator's instructions, and stopping lets it end. */
  lemma SessionControlReachesHook(b: Broker.Broker, id: string, agentId: string, sessionId: string,
                                  instructions: Option<string>, reason: Option<string>, now: int)
    ensures StopHook.ExecuteSessionCommand(Stored(b, id, ContinueRequest(agentId, sessionId, instructions), now))
      == HookResponse(false, Some("Continue session requested"), if Truthy(instructions) then instructions else None)
    ensures StopHook.ExecuteSessionCommand(Stored(b, id, StopRequest(agentId, sessionId, reason), now))
      == HookResponse(true, Some(Or(reason, "Stop session confirmed")), None)
  {
  }
}
