/** The agent-side HTTP helpers (agent/src/utils/hook-utils.ts). Every
    network failure is turned into a harmless default here, so a hook never
    sees a broker or server error. Network calls are abstract outcomes. */
module HookUtils {
  import opened Wrappers
  import opened Domain
  import opened Text

  /** One HTTP exchange: a 2xx reply with its body, a non-2xx reply with
      its status text, or a thrown `fetch` (connection refused, unreadable
      body). */
  datatype HttpResult<T> = Ok(body: T) | NotOk(statusText: string) | Throw

  /** The abort deadline of `sendHookEvent`. */
  const EventTimeout: nat := 1500
  /** The abort deadline of `checkForPendingCommands`. */
  const PollTimeout: nat := 1000

  /** The JSON body of a pending-commands reply. */
  datatype CommandListBody = JArray(items: seq<WireItem>) | JNotArray

  /** One element of that array: a command, or `null`. */
  datatype WireItem = Item(cmd: RemoteCommand) | NullItem

  /** The side effects a hook performs, in order, as a log. */
  datatype Call =
    | InterruptCheck(agentId: string)
    | ReadStdin
    | Emit(event: HookEvent)
    | ListPendingCall(agentId: string)
    | ClaimCall(commandId: string)
    | CompleteCall(commandId: string, result: string)

  const ServerUnavailable: HookResponse := HookResponse(true, Some("Server unavailable, proceeding"), None)
  const HookError: HookResponse := HookResponse(true, Some("Hook error, proceeding"), None)

  /** `sendHookEvent`: a fetch taking `latency` ms is aborted once it
      reaches the deadline, which reads as a thrown fetch. */
  function SendHookEvent(reply: HttpResult<HookResponse>, latency: nat): (r: HookResponse)
    ensures latency >= EventTimeout || reply.Throw? ==> r == HookError
    ensures latency < EventTimeout && reply.NotOk? ==> r == ServerUnavailable
    ensures !r.approved ==> latency < EventTimeout && reply.Ok? && r == reply.body
  {
    if latency >= EventTimeout then HookError
    else match reply
      case Ok(body) => body
      case NotOk(_) => ServerUnavailable
      case Throw => HookError
  }

  /** `checkForPendingCommands`: the array the server sent, or `[]` for a
      non-2xx reply, a non-array body, a thrown fetch or an abort. */
  function CheckForPendingCommands(reply: HttpResult<CommandListBody>, latency: nat): (r: seq<WireItem>)
    ensures |r| > 0 ==> latency < PollTimeout && reply == Ok(JArray(r))
    ensures latency < PollTimeout && reply.Ok? && reply.body.JArray? ==> r == reply.body.items
  {
    if latency >= PollTimeout then []
    else match reply
      case Ok(JArray(items)) => items
      case Ok(JNotArray) => []
      case NotOk(_) => []
      case Throw => []
  }

  /** `markCommandAsProcessing`: the request is made and its outcome ignored. */
  function MarkCommandAsProcessing(commandId: string, reply: HttpResult<RemoteCommand>): Call {
    ClaimCall(commandId)
  }

  /** `completeCommand` with status `completed`: the outcome is ignored. */
  function CompleteCommand(commandId: string, result: string, reply: HttpResult<RemoteCommand>): Call {
    CompleteCall(commandId, result)
  }

  /** Neither bookkeeping call can fail: what the hook records is the same
      whatever the server answered. */
  lemma BookkeepingNeverFails(id: string, result: string, r1: HttpResult<RemoteCommand>, r2: HttpResult<RemoteCommand>)
    ensures MarkCommandAsProcessing(id, r1) == MarkCommandAsProcessing(id, r2) == ClaimCall(id)
    ensures CompleteCommand(id, result, r1) == CompleteCommand(id, result, r2) == CompleteCall(id, result)
  {
  }

  /** `parseStdinData`: `stdin` is None when reading fails; `parse` is
      `JSON.parse`, None when it throws. */
  function ParseStdinData(stdin: Option<string>, parse: string -> Option<Json>): (r: StdinData)
    ensures stdin.None? || stdin == Some("") ==> r == EmptyObject
    ensures stdin.Some? && stdin.value != "" && parse(stdin.value).None? ==> r == RawData(stdin.value)
    ensures r.Parsed? <==> stdin.Some? && stdin.value != "" && parse(stdin.value).Some? && parse(stdin.value).value.JsonValue?
    ensures r.Parsed? ==> parse(stdin.value) == Some(JsonValue(r.value))
    ensures r.ParsedNull? <==> stdin.Some? && stdin.value != "" && parse(stdin.value) == Some(JsonNull)
  {
    match stdin
    case None => EmptyObject
    case Some(input) =>
      if input == "" then EmptyObject
      else match parse(input)
        case Some(JsonValue(v)) => Parsed(v)
        case Some(JsonNull) => ParsedNull
        case None => RawData(input)
  }

  /** The tool fields of whatever `parseStdinData` produced; an empty or
      raw object has none (and reading them off `null` throws, which the
      callers model themselves). */
  function ToolFields(d: StdinData): ToolInput {
    match d
    case Parsed(v) => v
    case _ => ToolInput(None, None, None, None, None)
  }

  // ---- What a hook run produces ------------------------------------------

  /** `process.argv.slice(2)[i]`, where a missing argument reads as the
      falsy empty string. */
  function Arg(argv: seq<string>, i: nat): string {
    if i < |argv| then argv[i] else ""
  }

  /** Both hooks exit with status 1 unless a server URL and an agent id are given. */
  predicate UsageOk(argv: seq<string>) {
    Arg(argv, 0) != "" && Arg(argv, 1) != ""
  }

  /** A hook exits early, prints one response on stdout, or lets `main`'s
      promise reject with nothing to catch it, so that Node prints nothing
      on stdout and exits with status 1. */
  datatype Output = Exit(code: int) | Printed(response: HookResponse) | Unhandled

  /** One hook run: its output, the calls it made in order, and the
      command it claimed, if any. */
  datatype HookRun = HookRun(output: Output, calls: seq<Call>, claimed: Option<RemoteCommand>)
}
