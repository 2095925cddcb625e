/** The server's in-memory store (server/src/modules/storage/storage.service.ts):
    computers, agents, sessions and each session's event list, and the
    rules that open, end and time out sessions. Times are milliseconds and
    the clock is the `now` parameter. Sessions keep their insertion order,
    the iteration order of the source's `Map`. */
module Storage {
  import opened Wrappers
  import opened Text
  import opened Domain
  import opened Seqs

  /** `checkSessionTimeout`'s default: ten minutes. */
  const DefaultTimeout: int := 600000

  datatype AgentStatus = AgentActive | AgentIdle | AgentOffline

  datatype SessionStatus = SessionActive | SessionCompleted | SessionInterrupted

  datatype Computer = Computer(id: string, name: string, hostname: string, platform: string, lastSeen: int)

  datatype Agent = Agent(
    id: string,
    computerId: string,
    name: string,
    workingDirectory: string,
    status: AgentStatus,
    lastActivity: int,
    currentSessionId: Option<string>)

  datatype Session = Session(
    id: string,
    agentId: string,
    name: string,
    startTime: int,
    endTime: Option<int>,
    status: SessionStatus,
    workingDirectory: string,
    eventCount: nat)

  /** A session together with its current event list, as the read
      operations return it. */
  datatype SessionView = SessionView(session: Session, events: seq<HookEvent>)

  datatype Store = Store(
    computers: map<string, Computer>,
    agents: map<string, Agent>,
    sessions: map<string, Session>,
    sessionOrder: seq<string>,
    events: map<string, seq<HookEvent>>)

  const EmptyStore: Store := Store(map[], map[], map[], [], map[])

  /** Records are stored under their own ids, and the session order lists
      each stored session once. */
  predicate Wf(st: Store) {
    && NoDup(st.sessionOrder)
    && (forall id :: id in st.sessionOrder ==> id in st.sessions)
    && (forall id :: id in st.sessions ==> id in st.sessionOrder)
    && (forall id :: id in st.sessions ==> st.sessions[id].id == id)
    && (forall id :: id in st.agents ==> st.agents[id].id == id)
  }

  /** Every session's count agrees with its event list. */
  predicate CountsAgree(st: Store) {
    forall id :: id in st.sessions ==> id in st.events && st.sessions[id].eventCount == |st.events[id]|
  }

  // ---- Computers ---------------------------------------------------------

  /** `updateComputerLastSeen`: a no-op for an unknown computer. */
  function UpdateComputerLastSeen(st: Store, id: string, now: int): (r: Store)
    ensures r.computers.Keys == st.computers.Keys
    ensures id in st.computers ==> r.computers[id] == st.computers[id].(lastSeen := now)
    ensures forall k :: k in st.computers && k != id ==> r.computers[k] == st.computers[k]
    ensures r.agents == st.agents && r.sessions == st.sessions && r.sessionOrder == st.sessionOrder && r.events == st.events
  {
    if id in st.computers then st.(computers := st.computers[id := st.computers[id].(lastSeen := now)]) else st
  }

  /** `findOrCreateComputer`: register a new computer, or only refresh the
      last-seen time of a known one; returns the stored record. */
  function FindOrCreateComputer(st: Store, id: string, name: string, hostname: string, platform: string, now: int): (r: (Store, Computer))
    ensures id !in st.computers ==> r.1 == Computer(id, name, hostname, platform, now)
    ensures id in st.computers ==> r.1 == st.computers[id].(lastSeen := now)
    ensures r.0.computers == st.computers[id := r.1]
    ensures r.0.agents == st.agents && r.0.sessions == st.sessions && r.0.events == st.events
  {
    if id !in st.computers then
      var c := Computer(id, name, hostname, platform, now);
      (st.(computers := st.computers[id := c]), c)
    else
      var st1 := UpdateComputerLastSeen(st, id, now);
      (st1, st1.computers[id])
  }

  // ---- Agents ------------------------------------------------------------

  /** The fields an `updateAgent` call assigns; `currentSession` is
      `Some(x)` when the update sets `currentSessionId` to `x`. */
  datatype AgentPatch = AgentPatch(
    workingDirectory: Option<string>,
    status: Option<AgentStatus>,
    currentSession: Option<Option<string>>)

  const NoPatch: AgentPatch := AgentPatch(None, None, None)

  /** `Object.assign(agent, updates)` followed by the fresh `lastActivity`. */
  function Apply(a: Agent, p: AgentPatch, now: int): (r: Agent)
    ensures r.id == a.id && r.computerId == a.computerId && r.name == a.name && r.lastActivity == now
    ensures r.workingDirectory == p.workingDirectory.GetOr(a.workingDirectory)
    ensures r.status == p.status.GetOr(a.status)
    ensures r.currentSessionId == p.currentSession.GetOr(a.currentSessionId)
  {
    a.(workingDirectory := p.workingDirectory.GetOr(a.workingDirectory),
       status := p.status.GetOr(a.status),
       currentSessionId := p.currentSession.GetOr(a.currentSessionId),
       lastActivity := now)
  }

  /** `registerAgent`: store the agent and refresh its computer. */
  function RegisterAgent(st: Store, a: Agent, now: int): (r: Store)
    ensures r.agents == st.agents[a.id := a]
    ensures r.computers.Keys == st.computers.Keys
    ensures a.computerId in st.computers ==> r.computers[a.computerId].lastSeen == now
    ensures r.sessions == st.sessions && r.events == st.events && r.sessionOrder == st.sessionOrder
  {
    UpdateComputerLastSeen(st.(agents := st.agents[a.id := a]), a.computerId, now)
  }

  /** `updateAgent`: apply the patch to a known agent, stamp its activity and
      refresh its computer; an unknown id changes nothing. */
  function UpdateAgent(st: Store, id: string, p: AgentPatch, now: int): (r: (Store, Option<Agent>))
    ensures id !in st.agents ==> r == (st, None)
    ensures id in st.agents ==> r.1 == Some(Apply(st.agents[id], p, now)) && r.0.agents == st.agents[id := r.1.value]
    ensures r.0.computers.Keys == st.computers.Keys
    ensures r.0.sessions == st.sessions && r.0.events == st.events && r.0.sessionOrder == st.sessionOrder
  {
    if id !in st.agents then (st, None)
    else
      var a := Apply(st.agents[id], p, now);
      (UpdateComputerLastSeen(st.(agents := st.agents[id := a]), a.computerId, now), Some(a))
  }

  /** `updateAgentStatus`. */
  function UpdateAgentStatus(st: Store, id: string, status: AgentStatus, now: int): (r: Store)
    ensures id in st.agents ==> r.agents.Keys == st.agents.Keys
    ensures id in st.agents ==> r.agents[id].status == status && r.agents[id].lastActivity == now
    ensures id !in st.agents ==> r == st
    ensures forall k :: k in st.agents && k != id ==> r.agents[k] == st.agents[k]
  {
    UpdateAgent(st, id, AgentPatch(None, Some(status), None), now).0
  }

  /** `findOrCreateAgent`: a new agent is registered active; a known one
      gets the new working directory and becomes active, keeping its
      computer and name. Returns the stored record. */
  function FindOrCreateAgent(st: Store, computerId: string, agentId: string, name: string, workingDirectory: string, now: int): (r: (Store, Agent))
    ensures agentId in r.0.agents && r.0.agents[agentId] == r.1
    ensures r.1.status == AgentActive && r.1.workingDirectory == workingDirectory && r.1.lastActivity == now
    ensures agentId !in st.agents ==> r.1 == Agent(agentId, computerId, name, workingDirectory, AgentActive, now, None)
    ensures agentId in st.agents ==>
      var prev := st.agents[agentId];
      r.1.computerId == prev.computerId && r.1.name == prev.name && r.1.currentSessionId == prev.currentSessionId
    ensures r.0.agents.Keys == st.agents.Keys + {agentId}
    ensures forall k :: k in st.agents && k != agentId ==> r.0.agents[k] == st.agents[k]
    ensures r.0.sessions == st.sessions && r.0.events == st.events && r.0.sessionOrder == st.sessionOrder
  {
    if agentId !in st.agents then
      var a := Agent(agentId, computerId, name, workingDirectory, AgentActive, now, None);
      (RegisterAgent(st, a, now), a)
    else
      var u := UpdateAgent(st, agentId, AgentPatch(Some(workingDirectory), Some(AgentActive), None), now);
      (u.0, u.1.value)
  }

  // ---- Sessions ----------------------------------------------------------

  /** `createSession`: store the session with an empty event list (replacing
      any session and events under the same id), and make it its agent's
      current session, marking the agent active. */
  function CreateSession(st: Store, s: Session, now: int): (r: (Store, Session))
    ensures r.1 == s
    ensures r.0.sessions == st.sessions[s.id := s] && r.0.events == st.events[s.id := []]
    ensures r.0.sessionOrder == if s.id in st.sessions then st.sessionOrder else st.sessionOrder + [s.id]
    ensures s.agentId in st.agents ==>
      r.0.agents == st.agents[s.agentId := Apply(st.agents[s.agentId], AgentPatch(None, Some(AgentActive), Some(Some(s.id))), now)]
    ensures s.agentId !in st.agents ==> r.0.agents == st.agents
  {
    var order := if s.id in st.sessions then st.sessionOrder else st.sessionOrder + [s.id];
    var st1 := st.(sessions := st.sessions[s.id := s], sessionOrder := order, events := st.events[s.id := []]);
    (UpdateAgent(st1, s.agentId, AgentPatch(None, Some(AgentActive), Some(Some(s.id))), now).0, s)
  }

  /** A new session keeps the store well formed and, when it starts with a
      zero count, keeps every count in agreement with its event list. */
  lemma CreateSessionWf(st: Store, s: Session, now: int)
    requires Wf(st)
    ensures Wf(CreateSession(st, s, now).0)
    ensures CountsAgree(st) && s.eventCount == 0 ==> CountsAgree(CreateSession(st, s, now).0)
  {
    CreateSessionOrder(st, s, now);
    var r := CreateSession(st, s, now).0;
    assert forall id :: id in r.agents ==> r.agents[id].id == id;
  }

  /** A new session is listed once in the session order, which keeps
      naming exactly the stored sessions. */
  lemma CreateSessionOrder(st: Store, s: Session, now: int)
    requires Wf(st)
    ensures var r := CreateSession(st, s, now).0;
      && NoDup(r.sessionOrder)
      && (forall id :: id in r.sessionOrder <==> id in r.sessions)
  {
    var r := CreateSession(st, s, now).0;
    if s.id !in st.sessions {
      assert forall id :: id in r.sessionOrder <==> id in st.sessionOrder || id == s.id;
    }
  }

  /** `getSession`: the session with its events. */
  function GetSession(st: Store, id: string): (r: Option<SessionView>)
    ensures r.Some? <==> id in st.sessions
    ensures r.Some? ==> r.value.session == st.sessions[id] && r.value.events == EventsBySession(st, id)
  {
    if id in st.sessions then Some(SessionView(st.sessions[id], EventsBySession(st, id))) else None
  }

  /** `endSession`: only a session that has not ended yet is ended, with the
      given status; its agent goes idle only if this was the agent's
      current session. Returns the session, ended or not. */
  function EndSession(st: Store, id: string, status: SessionStatus, now: int): (r: (Store, Option<Session>))
    ensures r.1 == if id in r.0.sessions then Some(r.0.sessions[id]) else None
    ensures id !in st.sessions || st.sessions[id].endTime.Some? ==> r.0 == st
    ensures id in st.sessions && st.sessions[id].endTime.None? ==>
      r.0.sessions == st.sessions[id := st.sessions[id].(endTime := Some(now), status := status)]
    ensures r.0.sessionOrder == st.sessionOrder && r.0.events == st.events
    ensures r.0.agents.Keys == st.agents.Keys
    ensures forall k :: k in st.agents && (id !in st.sessions || k != st.sessions[id].agentId) ==> r.0.agents[k] == st.agents[k]
  {
    if id in st.sessions && st.sessions[id].endTime.None? then
      var s := st.sessions[id].(endTime := Some(now), status := status);
      var st1 := st.(sessions := st.sessions[id := s]);
      var st2 :=
        if s.agentId in st1.agents && st1.agents[s.agentId].currentSessionId == Some(id) then
          UpdateAgent(st1, s.agentId, AgentPatch(None, Some(AgentIdle), Some(None)), now).0
        else st1;
      (st2, Some(s))
    else (st, if id in st.sessions then Some(st.sessions[id]) else None)
  }

  /** Ending a session sets its agent idle, with no current session, exactly
      when it was the agent's current session and had not ended before. */
  lemma EndSessionAgent(st: Store, id: string, status: SessionStatus, now: int)
    requires id in st.sessions && st.sessions[id].agentId in st.agents
    ensures var a := st.sessions[id].agentId;
      var after := EndSession(st, id, status, now).0.agents[a];
      if st.sessions[id].endTime.None? && st.agents[a].currentSessionId == Some(id)
      then after.status == AgentIdle && after.currentSessionId.None? && after.lastActivity == now
      else after == st.agents[a]
  {
  }

  /** A second `endSession` changes nothing: the first end time and status stay. */
  lemma EndSessionIdempotent(st: Store, id: string, s1: SessionStatus, s2: SessionStatus, now1: int, now2: int)
    ensures var st1 := EndSession(st, id, s1, now1).0;
      EndSession(st1, id, s2, now2).0 == st1
  {
  }

  /** `updateSessionEventCount`. */
  function UpdateSessionEventCount(st: Store, id: string): (r: Store)
    ensures id in st.sessions ==> r.sessions == st.sessions[id := st.sessions[id].(eventCount := |EventsBySession(st, id)|)]
    ensures id !in st.sessions ==> r == st
    ensures r.events == st.events && r.agents == st.agents && r.sessionOrder == st.sessionOrder
  {
    if id in st.sessions then
      st.(sessions := st.sessions[id := st.sessions[id].(eventCount := |EventsBySession(st, id)|)])
    else st
  }

  /** `getEventsBySession`: an unknown id has no events. */
  function EventsBySession(st: Store, id: string): (r: seq<HookEvent>)
    ensures id in st.events ==> r == st.events[id]
    ensures id !in st.events ==> r == []
  {
    if id in st.events then st.events[id] else []
  }

  /** `addEvent`: append to the session's list (creating it if needed),
      recount, and stamp the session's agent. */
  function AddEvent(st: Store, sessionId: string, e: HookEvent, now: int): (r: Store)
    ensures r.events == st.events[sessionId := EventsBySession(st, sessionId) + [e]]
    ensures r.sessions.Keys == st.sessions.Keys && r.sessionOrder == st.sessionOrder
    ensures sessionId in st.sessions ==> r.sessions[sessionId].eventCount == |r.events[sessionId]|
    ensures forall k :: k in st.sessions && k != sessionId ==> r.sessions[k] == st.sessions[k]
    ensures forall k :: k in st.sessions ==> r.sessions[k].agentId == st.sessions[k].agentId
    ensures r.agents.Keys == st.agents.Keys
    ensures forall k :: k in st.agents ==>
      r.agents[k].currentSessionId == st.agents[k].currentSessionId && r.agents[k].status == st.agents[k].status
  {
    var st1 := st.(events := st.events[sessionId := EventsBySession(st, sessionId) + [e]]);
    var st2 := UpdateSessionEventCount(st1, sessionId);
    if sessionId in st2.sessions && st2.sessions[sessionId].agentId in st2.agents then
      UpdateAgent(st2, st2.sessions[sessionId].agentId, NoPatch, now).0
    else st2
  }

  /** Adding an event keeps the store well formed and every count in
      agreement with its list. */
  lemma AddEventKeepsCounts(st: Store, sessionId: string, e: HookEvent, now: int)
    requires Wf(st) && CountsAgree(st)
    ensures Wf(AddEvent(st, sessionId, e, now)) && CountsAgree(AddEvent(st, sessionId, e, now))
    ensures |EventsBySession(AddEvent(st, sessionId, e, now), sessionId)| == |EventsBySession(st, sessionId)| + 1
  {
    AddEventWf(st, sessionId, e, now);
    var r := AddEvent(st, sessionId, e, now);
    forall id | id in r.sessions ensures id in r.events && r.sessions[id].eventCount == |r.events[id]| {
      if id != sessionId {
        assert r.sessions[id] == st.sessions[id] && r.events[id] == st.events[id];
      }
    }
  }

  /** Adding an event keeps the store well formed. */
  lemma AddEventWf(st: Store, sessionId: string, e: HookEvent, now: int)
    requires Wf(st)
    ensures Wf(AddEvent(st, sessionId, e, now))
  {
  }

  /** `getActiveSessionForAgent`: the session the agent's `currentSessionId`
      names, if that id is set, non-empty and stored. */
  function GetActiveSessionForAgent(st: Store, agentId: string): (r: Option<Session>)
    ensures r.Some? <==> agentId in st.agents && Truthy(st.agents[agentId].currentSessionId)
                         && st.agents[agentId].currentSessionId.value in st.sessions
    ensures r.Some? ==> r.value == st.sessions[st.agents[agentId].currentSessionId.value]
  {
    if agentId in st.agents && Truthy(st.agents[agentId].currentSessionId) then
      var id := st.agents[agentId].currentSessionId.value;
      if id in st.sessions then Some(st.sessions[id]) else None
    else None
  }

  /** A session just created for a known agent is that agent's active session. */
  lemma CreatedSessionIsActive(st: Store, s: Session, now: int)
    requires s.agentId in st.agents && s.id != ""
    ensures GetActiveSessionForAgent(CreateSession(st, s, now).0, s.agentId) == Some(s)
  {
  }

  /** The sessions among `ids` that belong to `agentId`, with their events. */
  function ViewsOf(st: Store, ids: seq<string>, agentId: string): (r: seq<SessionView>)
    ensures forall i :: 0 <= i < |r| ==>
      r[i].session.agentId == agentId
    ensures forall id :: id in ids && id in st.sessions && st.sessions[id].agentId == agentId ==>
      SessionView(st.sessions[id], EventsBySession(st, id)) in r
    ensures Wf(st) ==> forall i :: 0 <= i < |r| ==>
      r[i].session.id in ids && r[i].session.id in st.sessions && r[i] == SessionView(st.sessions[r[i].session.id], EventsBySession(st, r[i].session.id))
    decreases |ids|
  {
    if |ids| == 0 then []
    else
      var rest := ViewsOf(st, ids[1..], agentId);
      if ids[0] in st.sessions && st.sessions[ids[0]].agentId == agentId then
        [SessionView(st.sessions[ids[0]], EventsBySession(st, ids[0]))] + rest
      else rest
  }

  /** `getSessionsByAgent`: exactly the agent's sessions, in insertion
      order, each with its events. */
  function GetSessionsByAgent(st: Store, agentId: string): (r: seq<SessionView>)
    requires Wf(st)
    ensures forall i :: 0 <= i < |r| ==>
      r[i].session.id in st.sessions && r[i].session == st.sessions[r[i].session.id] && r[i].session.agentId == agentId
      && r[i].events == EventsBySession(st, r[i].session.id)
    ensures forall id :: id in st.sessions && st.sessions[id].agentId == agentId ==>
      SessionView(st.sessions[id], EventsBySession(st, id)) in r
  {
    ViewsOf(st, st.sessionOrder, agentId)
  }

  // ---- Time-outs ---------------------------------------------------------

  /** `Math.max` of the start time and every event time. */
  function LastEventTime(start: int, events: seq<HookEvent>): (t: int)
    ensures t >= start && forall i :: 0 <= i < |events| ==> events[i].timestamp <= t
    ensures t == start || exists i :: 0 <= i < |events| && events[i].timestamp == t
    decreases |events|
  {
    if |events| == 0 then start
    else
      var rest := LastEventTime(start, events[1..]);
      if events[0].timestamp > rest then events[0].timestamp else rest
  }

  /** An active, un-ended session whose latest activity lies more than
      `timeout` before `now`. */
  predicate TimedOut(s: Session, events: seq<HookEvent>, now: int, timeout: int) {
    s.status == SessionActive && s.endTime.None? && now - LastEventTime(s.startTime, events) > timeout
  }

  /** The body of `checkSessionTimeout`'s `forEach`, over the ids in `ids`. */
  function TimeoutLoop(st: Store, ids: seq<string>, now: int, timeout: int): Store
    decreases |ids|
  {
    if |ids| == 0 then st
    else
      var id := ids[0];
      var next :=
        if id in st.sessions && TimedOut(st.sessions[id], EventsBySession(st, id), now, timeout)
        then EndSession(st, id, SessionCompleted, now).0
        else st;
      TimeoutLoop(next, ids[1..], now, timeout)
  }

  /** `checkSessionTimeout`. */
  function CheckSessionTimeout(st: Store, now: int, timeout: int): Store {
    TimeoutLoop(st, st.sessionOrder, now, timeout)
  }

  /** The result of the time-out sweep on one session. */
  function AfterSweep(s: Session, events: seq<HookEvent>, now: int, timeout: int): Session {
    if TimedOut(s, events, now, timeout) then s.(endTime := Some(now), status := SessionCompleted) else s
  }

  lemma {:induction false} TimeoutLoopSpec(st: Store, ids: seq<string>, now: int, timeout: int)
    requires NoDup(ids)
    ensures var r := TimeoutLoop(st, ids, now, timeout);
      && r.sessions.Keys == st.sessions.Keys && r.events == st.events && r.sessionOrder == st.sessionOrder
      && (forall id :: id in st.sessions && id in ids ==>
            r.sessions[id] == AfterSweep(st.sessions[id], EventsBySession(st, id), now, timeout))
      && (forall id :: id in st.sessions && id !in ids ==> r.sessions[id] == st.sessions[id])
    decreases |ids|
  {
    if |ids| > 0 {
      var id := ids[0];
      var next :=
        if id in st.sessions && TimedOut(st.sessions[id], EventsBySession(st, id), now, timeout)
        then EndSession(st, id, SessionCompleted, now).0
        else st;
      assert NoDup(ids[1..]);
      TimeoutLoopSpec(next, ids[1..], now, timeout);
      assert id !in ids[1..];
      assert forall k :: k in ids <==> k == id || k in ids[1..];
    }
  }

  /** The sweep ends, as completed at `now`, exactly the active, un-ended
      sessions idle for more than `timeout`, and leaves the others as
      they were. */
  lemma CheckSessionTimeoutSpec(st: Store, now: int, timeout: int)
    requires Wf(st)
    ensures var r := CheckSessionTimeout(st, now, timeout);
      && r.sessions.Keys == st.sessions.Keys && r.events == st.events
      && forall id :: id in st.sessions ==>
           r.sessions[id] == AfterSweep(st.sessions[id], EventsBySession(st, id), now, timeout)
  {
    TimeoutLoopSpec(st, st.sessionOrder, now, timeout);
  }
}
