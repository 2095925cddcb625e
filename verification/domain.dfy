/** The records exchanged between the agent hooks, the server and the
    dashboard: remote commands, hook events and hook responses. */
module Domain {
  import opened Wrappers

  // ---- Remote commands --------------------------------------------------

  datatype CommandType = Approve | Deny | Context | Continue | Stop | Interrupt

  datatype CommandStatus = Pending | Processing | Completed | Expired

  /** The optional texts an operator attaches to a command. */
  datatype Payload = Payload(reason: Option<string>, feedback: Option<string>, instructions: Option<string>)

  const NoPayload: Payload := Payload(None, None, None)

  /** A command as the broker stores it; an empty `sessionId` targets any
      session of the agent. Times are milliseconds. */
  datatype RemoteCommand = RemoteCommand(
    id: string,
    agentId: string,
    sessionId: string,
    kind: CommandType,
    payload: Payload,
    status: CommandStatus,
    createdAt: int,
    expiresAt: int,
    relatedEventId: Option<string>)

  /** The body of a create request (the creation fields of a command). */
  datatype CommandRequest = CommandRequest(
    agentId: string,
    sessionId: string,
    kind: CommandType,
    payload: Option<Payload>,
    relatedEventId: Option<string>)

  // ---- Hook responses ---------------------------------------------------

  /** What a hook prints for the agent: `approved` lets the tool run (or,
      at the stop point, lets the session stop). */
  datatype HookResponse = HookResponse(approved: bool, reason: Option<string>, feedback: Option<string>)

  // ---- Hook events ------------------------------------------------------

  datatype HookType = PreToolUse | PostToolUse | StopPoint | Notification

  /** The wire name of a hook type. */
  function HookTypeName(h: HookType): string {
    match h
    case PreToolUse => "pre_tool_use"
    case PostToolUse => "post_tool_use"
    case StopPoint => "stop"
    case Notification => "notification"
  }

  datatype RiskLevel = Low | Medium | High

  datatype Todo = Todo(status: string, content: Option<string>)

  /** The `todos` argument of a task-list tool: an array, or a truthy JSON
      value that is not an array (a falsy one reads as absent). */
  datatype TodoField = TodoArray(items: seq<Todo>) | TodoNonArray

  /** The tool arguments the source reads by name; `json` is their
      `JSON.stringify` text, which the model takes as given. `edits` is the
      length of the `edits` array when there is one. */
  datatype ToolArgs = ToolArgs(
    command: Option<string>,
    filePath: Option<string>,
    notebookPath: Option<string>,
    url: Option<string>,
    query: Option<string>,
    pattern: Option<string>,
    path: Option<string>,
    description: Option<string>,
    prompt: Option<string>,
    uri: Option<string>,
    edits: Option<nat>,
    todos: Option<TodoField>,
    json: string)

  const NoArgs: ToolArgs := ToolArgs(None, None, None, None, None, None, None, None, None, None, None, None, "{}")

  /** The fields of the hook's stdin JSON that the hooks read. */
  datatype ToolInput = ToolInput(
    toolName: Option<string>,
    toolInput: Option<ToolArgs>,
    sessionId: Option<string>,
    transcriptPath: Option<string>,
    cwd: Option<string>)

  /** What `JSON.parse` makes of stdin: `null`, or a value whose tool
      fields are read (a value that is not an object has none). */
  datatype Json = JsonNull | JsonValue(fields: ToolInput)

  /** What `parseStdinData` returns; `ParsedNull` is stdin reading `null`. */
  datatype StdinData = EmptyObject | RawData(input: string) | Parsed(value: ToolInput) | ParsedNull

  /** The `data` object of a hook event; `sessionId`, `transcriptPath`,
      `cwd` and `rawInput` are what the agent's stdin said. */
  datatype EventData = EventData(
    toolName: Option<string>,
    toolArgs: Option<ToolArgs>,
    sessionId: Option<string>,
    transcriptPath: Option<string>,
    cwd: Option<string>,
    rawInput: Option<StdinData>,
    message: Option<string>,
    description: Option<string>,
    workingDirectory: Option<string>,
    agentName: Option<string>,
    computerId: Option<string>,
    computerName: Option<string>,
    hostname: Option<string>,
    platform: Option<string>,
    riskLevel: Option<RiskLevel>,
    requiresApproval: Option<bool>,
    suggestedAction: Option<string>)

  const NoData: EventData := EventData(None, None, None, None, None, None, None, None, None, None, None, None, None, None, None, None, None)

  /** A lifecycle event; `timestamp` is the parsed ISO time in milliseconds. */
  datatype HookEvent = HookEvent(
    agentId: string,
    sessionId: string,
    hookType: HookType,
    timestamp: int,
    data: EventData)

  /** `event.data.requiresApproval`, where absence reads as false. */
  predicate RequiresApproval(e: HookEvent) {
    e.data.requiresApproval == Some(true)
  }
}
