/** The server's handling of one hook event (server/src/hooks/hooks.service.ts):
    register the computer and agent, choose or open the session, store the
    event, broadcast it, answer, and for a pre-tool-use event attach a risk
    assessment. The process's working directory is the `cwd` parameter
    (`None` when `process.cwd()` throws) and the session name, which the
    source derives from the clock, is a parameter too. */
module HookIngest {
  import opened Wrappers
  import opened Text
  import opened Domain
  import Storage
  import Hub
  import Seqs

  const DecisionReason: string := "Phase 2 - monitoring with decision logic ready"
  const ServerErrorReason: string := "Server error, proceeding"

  /** `processDecisionLogic`: every event is approved. */
  function DecisionLogic(e: HookEvent): (r: HookResponse)
    ensures r.approved && r.reason == Some(DecisionReason) && r.feedback.None?
  {
    HookResponse(true, Some(DecisionReason), None)
  }

  const ServerErrorResponse: HookResponse := HookResponse(true, Some(ServerErrorReason), None)

  // ---- Risk assessment ---------------------------------------------------

  datatype Assessment = Assessment(level: RiskLevel, requiresApproval: bool, suggestedAction: string)

  const RecursiveDeletion: string := "Recursive file deletion - verify target directory"
  const SystemChanges: string := "System-level changes - verify permissions"
  const GitPermanent: string := "Git operation with permanent effects"
  const ConfigFile: string := "Modifying configuration file"

  /** The lower-cased tool name, empty when absent. */
  function ToolNameOf(d: EventData): string {
    ToLower(Or(d.toolName, ""))
  }

  /** The lower-cased JSON text of the tool arguments, `{}` when absent. */
  function ArgsTextOf(d: EventData): string {
    ToLower(if d.toolArgs.Some? then d.toolArgs.value.json else "{}")
  }

  predicate IsShell(tool: string) {
    tool == "bash" || tool == "shell"
  }

  predicate IsFileWrite(tool: string) {
    tool == "edit" || tool == "write"
  }

  predicate Deletes(args: string) {
    Contains(args, "rm -rf") || Contains(args, "rm -r")
  }

  predicate ChangesSystem(args: string) {
    Contains(args, "sudo") || Contains(args, "chmod") || Contains(args, "chown")
  }

  predicate RewritesGit(args: string) {
    Contains(args, "git push") || Contains(args, "git reset --hard")
  }

  predicate TouchesConfig(args: string) {
    Contains(args, ".env") || Contains(args, "config") || Contains(args, ".json")
  }

  /** `assessToolRisk`'s classification of a tool name and argument text. */
  function Classify(tool: string, args: string): (r: Assessment)
    ensures r.requiresApproval <==> IsShell(tool) && (Deletes(args) || ChangesSystem(args) || RewritesGit(args))
    ensures r.level == High <==> IsShell(tool) && (Deletes(args) || ChangesSystem(args))
    ensures r.level == Medium <==>
      (IsShell(tool) && !Deletes(args) && !ChangesSystem(args) && RewritesGit(args))
      || (IsFileWrite(tool) && TouchesConfig(args))
    ensures r.level == Low <==> r.suggestedAction == ""
  {
    var shell :=
      if IsShell(tool) then
        if Deletes(args) then Assessment(High, true, RecursiveDeletion)
        else if ChangesSystem(args) then Assessment(High, true, SystemChanges)
        else if RewritesGit(args) then Assessment(Medium, true, GitPermanent)
        else Assessment(Low, false, "")
      else Assessment(Low, false, "");
    if IsFileWrite(tool) && TouchesConfig(args) then shell.(level := Medium, suggestedAction := ConfigFile)
    else shell
  }

  /** The event data after `assessToolRisk`: the three risk fields set,
      nothing else touched. */
  function AssessToolRisk(d: EventData): (r: EventData)
    ensures var a := Classify(ToolNameOf(d), ArgsTextOf(d));
      r == d.(riskLevel := Some(a.level), requiresApproval := Some(a.requiresApproval), suggestedAction := Some(a.suggestedAction))
  {
    var a := Classify(ToolNameOf(d), ArgsTextOf(d));
    d.(riskLevel := Some(a.level), requiresApproval := Some(a.requiresApproval), suggestedAction := Some(a.suggestedAction))
  }

  /** Tool-name matching ignores case: `Bash` with `rm -rf` is high risk. */
  lemma ShellDeletionIsHigh(d: EventData)
    requires d.toolName.Some? && ToLower(d.toolName.value) == "bash"
    requires Contains(ArgsTextOf(d), "rm -rf")
    ensures AssessToolRisk(d).riskLevel == Some(High) && AssessToolRisk(d).requiresApproval == Some(true)
    ensures AssessToolRisk(d).suggestedAction == Some(RecursiveDeletion)
  {
  }

  // ---- Processing --------------------------------------------------------

  /** The steps of one event's processing, in order. */
  datatype Step = ComputerRecorded | AgentRecorded | SessionOpened(id: string) | EventStored(sessionId: string)
                | EventBroadcast | RiskAssessed

  /** The outcome: the new store and hub, the answer, the steps taken, and
      the session the event went to when it got that far. */
  datatype Outcome = Outcome(
    store: Storage.Store,
    hub: Hub.Hub,
    response: HookResponse,
    steps: seq<Step>,
    session: Option<string>)

  /** Replace the last element of a non-empty list: the stored or recorded
      event object that `assessToolRisk` later mutates. */
  function ReplaceLast<T>(s: seq<T>, x: T): (r: seq<T>)
    requires |s| > 0
    ensures |r| == |s| && r[..|s| - 1] == s[..|s| - 1] && r[|s| - 1] == x
  {
    s[..|s| - 1] + [x]
  }

  /** Whether `processHookEvent` opens a new session: none is active, or a
      working directory is given that differs from the active session's. */
  predicate NeedsNewSession(active: Option<Storage.Session>, d: EventData) {
    active.None? || (Truthy(d.workingDirectory) && active.value.workingDirectory != d.workingDirectory.value)
  }

  /** The computer step: only when the event names a computer. */
  function RecordComputer(st: Storage.Store, d: EventData, now: int): (r: Storage.Store)
    ensures r.agents == st.agents && r.sessions == st.sessions && r.events == st.events && r.sessionOrder == st.sessionOrder
    ensures Truthy(d.computerId) ==> d.computerId.value in r.computers
    ensures !Truthy(d.computerId) ==> r == st
    ensures Truthy(d.computerId) && d.computerId.value !in st.computers ==>
      var c := r.computers[d.computerId.value];
      c.name == Or(OrElse(d.computerName, d.hostname), d.computerId.value)
      && c.hostname == Or(d.hostname, "unknown") && c.platform == Or(d.platform, "unknown") && c.lastSeen == now
  {
    if Truthy(d.computerId) then
      Storage.FindOrCreateComputer(st, d.computerId.value, Or(OrElse(d.computerName, d.hostname), d.computerId.value),
                                   Or(d.hostname, "unknown"), Or(d.platform, "unknown"), now).0
    else st
  }

  /** The agent step, with the working directory already resolved. It does
      not change which session is the agent's active one. */
  function RecordAgent(st: Storage.Store, e: HookEvent, wd: string, now: int): (r: Storage.Store)
    ensures e.agentId in r.agents && r.agents[e.agentId].status == Storage.AgentActive
    ensures r.sessions == st.sessions && r.events == st.events && r.sessionOrder == st.sessionOrder
    ensures Storage.GetActiveSessionForAgent(r, e.agentId) == Storage.GetActiveSessionForAgent(st, e.agentId)
  {
    Storage.FindOrCreateAgent(st, Or(e.data.computerId, "default"), e.agentId, Or(e.data.agentName, e.agentId), wd, now).0
  }

  /** The session step: keep the active session, or open one under the
      event's session id. Returns the store and the chosen session id. */
  function ChooseSession(st: Storage.Store, e: HookEvent, wd: string, sessionName: string, now: int): (r: (Storage.Store, string))
    requires e.agentId in st.agents
    ensures var active := Storage.GetActiveSessionForAgent(st, e.agentId);
      && r.1 == (if NeedsNewSession(active, e.data) then e.sessionId else active.value.id)
      && (!NeedsNewSession(active, e.data) ==> r.0 == st)
      && (NeedsNewSession(active, e.data) ==>
            && Storage.EventsBySession(r.0, e.sessionId) == []
            && e.sessionId in r.0.sessions && e.agentId in r.0.agents
            && r.0.sessions[e.sessionId].agentId == e.agentId
            && r.0.sessions[e.sessionId].workingDirectory == wd
            && r.0.agents[e.agentId].currentSessionId == Some(e.sessionId))
  {
    var active := Storage.GetActiveSessionForAgent(st, e.agentId);
    if NeedsNewSession(active, e.data) then
      var c := Storage.CreateSession(st, Storage.Session(e.sessionId, e.agentId, sessionName, now, None,
                                                         Storage.SessionActive, wd, 0), now);
      (c.0, e.sessionId)
    else (st, active.value.id)
  }

  /** The event object as storage and the history end up holding it: the
      risk fields are filled in for a pre-tool-use event. */
  function StoredForm(e: HookEvent): (r: HookEvent)
    ensures r.agentId == e.agentId && r.sessionId == e.sessionId && r.hookType == e.hookType && r.timestamp == e.timestamp
    ensures e.hookType != PreToolUse ==> r == e
    ensures e.hookType == PreToolUse ==> r.data.riskLevel.Some? && r.data.requiresApproval.Some? && r.data.suggestedAction.Some?
  {
    if e.hookType == PreToolUse then e.(data := AssessToolRisk(e.data)) else e
  }

  /** What happens once the session is chosen, in order. */
  function DeliverySteps(e: HookEvent, sid: string): seq<Step> {
    [EventStored(sid), EventBroadcast] + (if e.hookType == PreToolUse then [RiskAssessed] else [])
  }

  /** The steps after the session is chosen: store, broadcast, answer, and
      for a pre-tool-use event assess the risk on the stored object. */
  function Deliver(st: Storage.Store, h: Hub.Hub, e: HookEvent, sid: string, prior: seq<Step>, now: int,
                   failed: set<string>): (r: Outcome)
    ensures r.session == Some(sid) && r.response == DecisionLogic(e)
    ensures Storage.EventsBySession(r.store, sid) == Storage.EventsBySession(st, sid) + [StoredForm(e)]
    ensures r.store.sessions.Keys == st.sessions.Keys && r.store.agents.Keys == st.agents.Keys
    ensures forall k :: k in st.sessions ==> r.store.sessions[k].agentId == st.sessions[k].agentId
    ensures forall k :: k in st.agents ==> r.store.agents[k].currentSessionId == st.agents[k].currentSessionId
    ensures r.hub.clients == Hub.BroadcastHookEvent(h, e, now, failed).clients
    ensures |r.hub.history| > 0 && r.hub.history[|r.hub.history| - 1] == Hub.StreamItem(Hub.HookEventData(StoredForm(e)), now)
    ensures r.steps == prior + DeliverySteps(e, sid)
  {
    var st1 := Storage.AddEvent(st, sid, e, now);
    var h1 := Hub.BroadcastHookEvent(h, e, now, failed);
    var steps := prior + DeliverySteps(e, sid);
    if e.hookType == PreToolUse then
      var assessed := StoredForm(e);
      var st2 := st1.(events := st1.events[sid := ReplaceLast(st1.events[sid], assessed)]);
      var h2 := h1.(history := ReplaceLast(h1.history, Hub.StreamItem(Hub.HookEventData(assessed), now)));
      assert st1.events[sid][..|st1.events[sid]| - 1] == Storage.EventsBySession(st, sid);
      Outcome(st2, h2, DecisionLogic(e), steps, Some(sid))
    else
      Outcome(st1, h1, DecisionLogic(e), steps, Some(sid))
  }

  /** The processing once the working directory is known: the agent step,
      the session rule, and delivery. */
  function Proceed(st: Storage.Store, h: Hub.Hub, e: HookEvent, wd: string, prior: seq<Step>, sessionName: string,
                   now: int, failed: set<string>): (r: Outcome)
    ensures var active := Storage.GetActiveSessionForAgent(st, e.agentId);
      r.session == Some(if NeedsNewSession(active, e.data) then e.sessionId else active.value.id)
    ensures r.response == DecisionLogic(e)
  {
    var st2 := RecordAgent(st, e, wd, now);
    var chosen := ChooseSession(st2, e, wd, sessionName, now);
    Deliver(chosen.0, h, e, chosen.1, StepsBefore(st2, e, prior), now, failed)
  }

  /** The steps before delivery: the agent, and the session when one is opened. */
  function StepsBefore(st2: Storage.Store, e: HookEvent, prior: seq<Step>): (r: seq<Step>)
    ensures RiskAssessed in r <==> RiskAssessed in prior
  {
    var opening := if NeedsNewSession(Storage.GetActiveSessionForAgent(st2, e.agentId), e.data) then [SessionOpened(e.sessionId)] else [];
    assert RiskAssessed !in opening;
    prior + [AgentRecorded] + opening
  }

  /** `Proceed` is delivery after the agent step and the session rule. */
  lemma ProceedIsDeliver(st: Storage.Store, h: Hub.Hub, e: HookEvent, wd: string, prior: seq<Step>, sessionName: string,
                         now: int, failed: set<string>)
    ensures var st2 := RecordAgent(st, e, wd, now);
      var chosen := ChooseSession(st2, e, wd, sessionName, now);
      Proceed(st, h, e, wd, prior, sessionName, now, failed) == Deliver(chosen.0, h, e, chosen.1, StepsBefore(st2, e, prior), now, failed)
  {
  }

  lemma ProceedStore(st: Storage.Store, h: Hub.Hub, e: HookEvent, wd: string, prior: seq<Step>, sessionName: string,
                     now: int, failed: set<string>)
    ensures var r := Proceed(st, h, e, wd, prior, sessionName, now, failed);
      var active := Storage.GetActiveSessionForAgent(st, e.agentId);
      && (NeedsNewSession(active, e.data) ==>
            && Storage.EventsBySession(r.store, e.sessionId) == [StoredForm(e)]
            && e.sessionId in r.store.sessions && r.store.sessions[e.sessionId].agentId == e.agentId
            && e.agentId in r.store.agents && r.store.agents[e.agentId].currentSessionId == Some(e.sessionId))
      && (!NeedsNewSession(active, e.data) ==>
            Storage.EventsBySession(r.store, active.value.id) == Storage.EventsBySession(st, active.value.id) + [StoredForm(e)])
  {
    ProceedIsDeliver(st, h, e, wd, prior, sessionName, now, failed);
  }

  /** Delivery appends its steps, the risk assessment last for a
      pre-tool-use event and never otherwise. */
  lemma DeliverOrder(st: Storage.Store, h: Hub.Hub, e: HookEvent, sid: string, prior: seq<Step>, now: int,
                     failed: set<string>)
    requires RiskAssessed !in prior
    ensures Seqs.Suffix(DeliverySteps(e, sid), Deliver(st, h, e, sid, prior, now, failed).steps)
    ensures RiskAssessed in Deliver(st, h, e, sid, prior, now, failed).steps <==> e.hookType == PreToolUse
  {
    Seqs.SuffixOfAppend(prior, DeliverySteps(e, sid));
  }

  lemma ProceedBroadcast(st: Storage.Store, h: Hub.Hub, e: HookEvent, wd: string, prior: seq<Step>, sessionName: string,
                         now: int, failed: set<string>)
    ensures var r := Proceed(st, h, e, wd, prior, sessionName, now, failed);
      && r.hub.clients == Hub.BroadcastHookEvent(h, e, now, failed).clients
      && |r.hub.history| > 0 && r.hub.history[|r.hub.history| - 1] == Hub.StreamItem(Hub.HookEventData(StoredForm(e)), now)
  {
    var st2 := RecordAgent(st, e, wd, now);
    var chosen := ChooseSession(st2, e, wd, sessionName, now);
    var d := Deliver(chosen.0, h, e, chosen.1, StepsBefore(st2, e, prior), now, failed);
    ProceedIsDeliver(st, h, e, wd, prior, sessionName, now, failed);
    assert d.hub.clients == Hub.BroadcastHookEvent(h, e, now, failed).clients;
  }

  lemma ProceedOrder(st: Storage.Store, h: Hub.Hub, e: HookEvent, wd: string, prior: seq<Step>, sessionName: string,
                     now: int, failed: set<string>)
    requires RiskAssessed !in prior
    ensures var r := Proceed(st, h, e, wd, prior, sessionName, now, failed);
      && r.session.Some? && Seqs.Suffix(DeliverySteps(e, r.session.value), r.steps)
      && (RiskAssessed in r.steps <==> e.hookType == PreToolUse)
  {
    var st2 := RecordAgent(st, e, wd, now);
    var chosen := ChooseSession(st2, e, wd, sessionName, now);
    var before := StepsBefore(st2, e, prior);
    ProceedIsDeliver(st, h, e, wd, prior, sessionName, now, failed);
    DeliverOrder(chosen.0, h, e, chosen.1, before, now, failed);
  }

  /** `processHookEvent`. `failed` are the stream clients whose write fails
      during the broadcast. Only `process.cwd()` can throw here; the
      computer recorded before it stays recorded. */
  function ProcessHookEvent(st: Storage.Store, h: Hub.Hub, e: HookEvent, cwd: Option<string>, sessionName: string,
                            now: int, failed: set<string>): (r: Outcome)
    ensures r.response.approved
    ensures r.response == ServerErrorResponse <==> !Truthy(e.data.workingDirectory) && cwd.None?
    ensures r.response != ServerErrorResponse ==> r.response == DecisionLogic(e) && r.session.Some?
    ensures r.response == ServerErrorResponse ==> r.hub == h && r.session.None? && RecordComputer(st, e.data, now) == r.store
  {
    var d := e.data;
    var st1 := RecordComputer(st, d, now);
    if !Truthy(d.workingDirectory) && cwd.None? then
      Outcome(st1, h, ServerErrorResponse, ComputerSteps(d), None)
    else
      Proceed(st1, h, e, Or(d.workingDirectory, cwd.GetOr("")), ComputerSteps(d), sessionName, now, failed)
  }

  /** The first step, taken only when the event names its computer. */
  function ComputerSteps(d: EventData): (r: seq<Step>)
    ensures RiskAssessed !in r
    ensures r == [] || r == [ComputerRecorded]
  {
    if Truthy(d.computerId) then [ComputerRecorded] else []
  }

  /** With a working directory at hand, processing is `Proceed` after the
      computer step. */
  lemma ProcessIsProceed(st: Storage.Store, h: Hub.Hub, e: HookEvent, cwd: Option<string>, sessionName: string,
                         now: int, failed: set<string>)
    requires Truthy(e.data.workingDirectory) || cwd.Some?
    ensures ProcessHookEvent(st, h, e, cwd, sessionName, now, failed)
         == Proceed(RecordComputer(st, e.data, now), h, e, Or(e.data.workingDirectory, cwd.GetOr("")), ComputerSteps(e.data),
                    sessionName, now, failed)
  {
  }

  /** The session rule: the event goes to the agent's active session unless
      there is none or the event names a different working directory, in
      which case a session with the event's id is opened for it and becomes
      the agent's current one; a new session holds just this event, an
      existing one gains it at the end. */
  lemma IngestSession(st: Storage.Store, h: Hub.Hub, e: HookEvent, cwd: Option<string>, sessionName: string,
                      now: int, failed: set<string>)
    requires Truthy(e.data.workingDirectory) || cwd.Some?
    ensures var r := ProcessHookEvent(st, h, e, cwd, sessionName, now, failed);
      var active := Storage.GetActiveSessionForAgent(st, e.agentId);
      && r.session == Some(if NeedsNewSession(active, e.data) then e.sessionId else active.value.id)
      && (NeedsNewSession(active, e.data) ==>
            && Storage.EventsBySession(r.store, e.sessionId) == [StoredForm(e)]
            && e.sessionId in r.store.sessions && r.store.sessions[e.sessionId].agentId == e.agentId
            && e.agentId in r.store.agents && r.store.agents[e.agentId].currentSessionId == Some(e.sessionId))
      && (!NeedsNewSession(active, e.data) ==>
            Storage.EventsBySession(r.store, active.value.id) == Storage.EventsBySession(st, active.value.id) + [StoredForm(e)])
  {
    var st1 := RecordComputer(st, e.data, now);
    var s1 := ComputerSteps(e.data);
    ProcessIsProceed(st, h, e, cwd, sessionName, now, failed);
    assert Storage.GetActiveSessionForAgent(st1, e.agentId) == Storage.GetActiveSessionForAgent(st, e.agentId);
    ProceedStore(st1, h, e, Or(e.data.workingDirectory, cwd.GetOr("")), s1, sessionName, now, failed);
  }

  /** Stream clients get the event as it arrived (the broadcast happens
      before the risk assessment), while the replay history ends with the
      same object as storage, later given its risk fields. */
  lemma IngestBroadcast(st: Storage.Store, h: Hub.Hub, e: HookEvent, cwd: Option<string>, sessionName: string,
                        now: int, failed: set<string>)
    requires Truthy(e.data.workingDirectory) || cwd.Some?
    ensures var r := ProcessHookEvent(st, h, e, cwd, sessionName, now, failed);
      && r.hub.clients == Hub.BroadcastHookEvent(h, e, now, failed).clients
      && |r.hub.history| > 0 && r.hub.history[|r.hub.history| - 1] == Hub.StreamItem(Hub.HookEventData(StoredForm(e)), now)
  {
    var st1 := RecordComputer(st, e.data, now);
    var s1 := ComputerSteps(e.data);
    ProcessIsProceed(st, h, e, cwd, sessionName, now, failed);
    ProceedBroadcast(st1, h, e, Or(e.data.workingDirectory, cwd.GetOr("")), s1, sessionName, now, failed);
  }

  /** The event is stored, then broadcast, then, only for a pre-tool-use
      event, assessed: these are the last steps of the processing. */
  lemma IngestOrder(st: Storage.Store, h: Hub.Hub, e: HookEvent, cwd: Option<string>, sessionName: string,
                    now: int, failed: set<string>)
    requires Truthy(e.data.workingDirectory) || cwd.Some?
    ensures var r := ProcessHookEvent(st, h, e, cwd, sessionName, now, failed);
      && r.session.Some?
      && Seqs.Suffix(DeliverySteps(e, r.session.value), r.steps)
      && (RiskAssessed in r.steps <==> e.hookType == PreToolUse)
  {
    var st1 := RecordComputer(st, e.data, now);
    var s1 := ComputerSteps(e.data);
    ProcessIsProceed(st, h, e, cwd, sessionName, now, failed);
    ProceedOrder(st1, h, e, Or(e.data.workingDirectory, cwd.GetOr("")), s1, sessionName, now, failed);
  }
}
