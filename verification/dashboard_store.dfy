/** The dashboard's client-side store (client/src/store/dashboard-store.ts):
    the connection status, the known agents, and the newest 500 hook
    events, newest first, with the views the pages read from it. */
module DashboardStore {
  import opened Wrappers
  import opened Text
  import opened Domain
  import opened Seqs

  const MaxEvents: nat := 500

  datatype DashStatus = DsConnecting | DsConnected | DsDisconnected | DsError

  /** The event-type filter: `all` or one hook type. */
  datatype EventFilter = AllEvents | OnlyType(hookType: HookType)

  datatype DashAgent = DashAgent(id: string, name: string, status: string, lastSeen: int)

  datatype Store = Store(
    isConnected: bool,
    connectionStatus: DashStatus,
    agents: map<string, DashAgent>,
    events: seq<HookEvent>,
    selectedAgentId: Option<string>,
    eventFilter: EventFilter)

  const Initial: Store := Store(false, DsDisconnected, map[], [], None, AllEvents)

  /** `setConnectionStatus`. */
  function SetConnectionStatus(s: Store, status: DashStatus): (r: Store)
    ensures r.connectionStatus == status
    ensures r.isConnected <==> status == DsConnected
    ensures r.events == s.events && r.agents == s.agents
  {
    s.(connectionStatus := status, isConnected := status == DsConnected)
  }

  /** `addEvent`: the new event goes first, and only the newest 500 stay. */
  function AddEvent(s: Store, e: HookEvent): (r: Store)
    ensures |r.events| == if |s.events| < MaxEvents then |s.events| + 1 else MaxEvents
    ensures r.events[0] == e
    ensures r.events[1..] == s.events[..|r.events| - 1]
    ensures r.agents == s.agents && r.connectionStatus == s.connectionStatus
  {
    var all := [e] + s.events;
    s.(events := if |all| > MaxEvents then all[..MaxEvents] else all)
  }

  /** However many events arrive, the list never grows past 500. */
  lemma {:induction false} EventsBounded(s: Store, es: seq<HookEvent>)
    requires |s.events| <= MaxEvents
    ensures |AddEvents(s, es).events| <= MaxEvents
    ensures |es| > 0 ==> |AddEvents(s, es).events| > 0 && AddEvents(s, es).events[0] == es[|es| - 1]
    decreases |es|
  {
    if |es| > 0 {
      var s1 := AddEvent(s, es[0]);
      EventsBounded(s1, es[1..]);
      assert AddEvents(s, es) == AddEvents(s1, es[1..]);
      if |es| == 1 {
        assert AddEvents(s1, es[1..]) == s1;
      } else {
        assert es[1..][|es| - 2] == es[|es| - 1];
      }
    }
  }

  function AddEvents(s: Store, es: seq<HookEvent>): Store
    decreases |es|
  {
    if |es| == 0 then s else AddEvents(AddEvent(s, es[0]), es[1..])
  }

  /** `updateAgent`: only that agent's entry changes. */
  function UpdateAgent(s: Store, a: DashAgent): (r: Store)
    ensures r.agents.Keys == s.agents.Keys + {a.id} && r.agents[a.id] == a
    ensures forall k :: k in s.agents && k != a.id ==> r.agents[k] == s.agents[k]
    ensures r.events == s.events
  {
    s.(agents := s.agents[a.id := a])
  }

  /** `removeAgent`: only that agent's entry goes. */
  function RemoveAgent(s: Store, id: string): (r: Store)
    ensures r.agents.Keys == s.agents.Keys - {id}
    ensures forall k :: k in r.agents ==> r.agents[k] == s.agents[k]
    ensures r.events == s.events
  {
    s.(agents := s.agents - {id})
  }

  function SetSelectedAgent(s: Store, id: Option<string>): (r: Store)
    ensures r.selectedAgentId == id && r.events == s.events
  {
    s.(selectedAgentId := id)
  }

  function SetEventFilter(s: Store, f: EventFilter): (r: Store)
    ensures r.eventFilter == f && r.events == s.events
  {
    s.(eventFilter := f)
  }

  /** `clearEvents`. */
  function ClearEvents(s: Store): (r: Store)
    ensures r.events == [] && r.agents == s.agents
  {
    s.(events := [])
  }

  /** `getActiveAgents`, as a set (the map's iteration order is not modelled). */
  function GetActiveAgents(s: Store): (r: set<DashAgent>)
    ensures forall a :: a in r <==> a in s.agents.Values && a.status == "active"
  {
    set a | a in s.agents.Values && a.status == "active"
  }

  function OfType(t: HookType): HookEvent -> bool {
    (e: HookEvent) => e.hookType == t
  }

  function OfAgent(id: string): HookEvent -> bool {
    (e: HookEvent) => e.agentId == id
  }

  /** Whether the dashboard's filters let an event through. */
  predicate Passes(s: Store, e: HookEvent) {
    && (s.eventFilter.OnlyType? ==> e.hookType == s.eventFilter.hookType)
    && (Truthy(s.selectedAgentId) ==> e.agentId == s.selectedAgentId.value)
  }

  /** `getFilteredEvents`: the type filter, then the selected agent, if any. */
  function GetFilteredEvents(s: Store): (r: seq<HookEvent>)
    ensures Subsequence(r, s.events)
    ensures forall e :: e in r <==> e in s.events && Passes(s, e)
  {
    var byType := if s.eventFilter.OnlyType? then Filter(OfType(s.eventFilter.hookType), s.events) else s.events;
    if Truthy(s.selectedAgentId) then
      if s.eventFilter.OnlyType? then
        FilterFilter(OfType(s.eventFilter.hookType), OfAgent(s.selectedAgentId.value), s.events);
        Filter(OfAgent(s.selectedAgentId.value), byType)
      else Filter(OfAgent(s.selectedAgentId.value), byType)
    else SubsequenceRefl(s.events); byType
  }

  /** The filtered view keeps every copy of an event that passes the
      filters, so equal events listed twice are shown twice. */
  lemma FilteredCount(s: Store)
    ensures forall e :: multiset(GetFilteredEvents(s))[e] == if Passes(s, e) then multiset(s.events)[e] else 0
  {
    var r := GetFilteredEvents(s);
    if s.eventFilter.OnlyType? {
      var byType := Filter(OfType(s.eventFilter.hookType), s.events);
      FilterCount(OfType(s.eventFilter.hookType), s.events);
      if Truthy(s.selectedAgentId) {
        FilterCount(OfAgent(s.selectedAgentId.value), byType);
      }
    } else if Truthy(s.selectedAgentId) {
      FilterCount(OfAgent(s.selectedAgentId.value), s.events);
    }
  }

  /** `getAgentEvents`. */
  function GetAgentEvents(s: Store, id: string): (r: seq<HookEvent>)
    ensures Subsequence(r, s.events)
    ensures forall e :: e in r <==> e in s.events && e.agentId == id
    ensures forall e :: multiset(r)[e] == if e.agentId == id then multiset(s.events)[e] else 0
  {
    FilterCount(OfAgent(id), s.events);
    Filter(OfAgent(id), s.events)
  }

  /** Choosing one agent in the filters gives that agent's events. */
  lemma SelectedAgentView(s: Store, id: string)
    requires s.eventFilter == AllEvents && s.selectedAgentId == Some(id) && id != ""
    ensures GetFilteredEvents(s) == GetAgentEvents(s, id)
  {
  }

  function ToolMatches(toolName: string): HookEvent -> bool {
    (e: HookEvent) => e.data.toolName.Some? && ToLower(e.data.toolName.value) == ToLower(toolName)
  }

  /** `getEventsByType`: events of a tool, ignoring case; an event without
      a tool name never matches. */
  function GetEventsByType(s: Store, toolName: string): (r: seq<HookEvent>)
    ensures Subsequence(r, s.events)
    ensures forall e :: e in r <==> e in s.events && e.data.toolName.Some? && ToLower(e.data.toolName.value) == ToLower(toolName)
    ensures forall e :: multiset(r)[e] == if ToolMatches(toolName)(e) then multiset(s.events)[e] else 0
  {
    FilterCount(ToolMatches(toolName), s.events);
    Filter(ToolMatches(toolName), s.events)
  }

  // ---- getActiveEvents ---------------------------------------------------

  /** The event a descending stable sort of `agentId`'s events puts first:
      the earliest in list order among those with the greatest timestamp. */
  function LatestOf(es: seq<HookEvent>, agentId: string): (r: Option<HookEvent>)
    ensures r.None? <==> forall i :: 0 <= i < |es| ==> es[i].agentId != agentId
    ensures r.Some? ==> r.value.agentId == agentId
    ensures r.Some? ==> r.value in es
    ensures r.Some? ==> forall j :: 0 <= j < |es| && es[j].agentId == agentId ==> es[j].timestamp <= r.value.timestamp
    decreases |es|
  {
    if |es| == 0 then None
    else
      var rest := LatestOf(es[1..], agentId);
      if es[0].agentId != agentId then rest
      else if rest.Some? && rest.value.timestamp > es[0].timestamp then rest
      else Some(es[0])
  }

  /** Among the agent's events with the greatest timestamp, the one chosen
      is the first in list order, as a stable sort would leave it. */
  lemma {:induction false} LatestIsFirstMaximal(es: seq<HookEvent>, agentId: string)
    requires LatestOf(es, agentId).Some?
    ensures exists i :: 0 <= i < |es| && es[i] == LatestOf(es, agentId).value && StrictlyNewerThanEarlier(es, agentId, i)
    decreases |es|
  {
    var rest := LatestOf(es[1..], agentId);
    if es[0].agentId != agentId || (rest.Some? && rest.value.timestamp > es[0].timestamp) {
      LatestIsFirstMaximal(es[1..], agentId);
      var i :| 0 <= i < |es[1..]| && es[1..][i] == rest.value && StrictlyNewerThanEarlier(es[1..], agentId, i);
      NewerShift(es, agentId, i);
    } else {
      assert StrictlyNewerThanEarlier(es, agentId, 0);
    }
  }

  /** `es[i]` is newer than every earlier event of `agentId`. */
  predicate StrictlyNewerThanEarlier(es: seq<HookEvent>, agentId: string, i: int)
    requires 0 <= i < |es|
  {
    forall j :: 0 <= j < i && es[j].agentId == agentId ==> es[j].timestamp < es[i].timestamp
  }

  /** Putting an event of another agent, or an older one, in front keeps
      an event newer than everything before it. */
  lemma NewerShift(es: seq<HookEvent>, agentId: string, i: int)
    requires 0 <= i < |es| - 1 && StrictlyNewerThanEarlier(es[1..], agentId, i)
    requires es[0].agentId != agentId || es[0].timestamp < es[i + 1].timestamp
    ensures StrictlyNewerThanEarlier(es, agentId, i + 1)
  {
    forall j | 0 <= j < i + 1 && es[j].agentId == agentId ensures es[j].timestamp < es[i + 1].timestamp {
      if j > 0 {
        assert es[j] == es[1..][j - 1];
      }
    }
  }

  /** The agents of `es`, in order of first appearance (the grouping
      object's key order). */
  function AgentOrder(es: seq<HookEvent>): (r: seq<string>)
    ensures NoDup(r)
    ensures forall a :: a in r <==> exists i :: 0 <= i < |es| && es[i].agentId == a
    decreases |es|
  {
    if |es| == 0 then []
    else
      var pre := AgentOrder(es[..|es| - 1]);
      assert forall i :: 0 <= i < |es| - 1 ==> es[..|es| - 1][i] == es[i];
      if es[|es| - 1].agentId in pre then pre else pre + [es[|es| - 1].agentId]
  }

  /** For each agent in turn, its latest event if that is a pre-tool-use one. */
  function Collect(es: seq<HookEvent>, agents: seq<string>): (r: seq<HookEvent>)
    ensures forall i :: 0 <= i < |r| ==>
      r[i].agentId in agents && r[i].hookType == PreToolUse && LatestOf(es, r[i].agentId) == Some(r[i])
    ensures forall a :: a in agents && LatestOf(es, a).Some? && LatestOf(es, a).value.hookType == PreToolUse ==>
      LatestOf(es, a).value in r
    decreases |agents|
  {
    if |agents| == 0 then []
    else
      var rest := Collect(es, agents[1..]);
      var latest := LatestOf(es, agents[0]);
      if latest.Some? && latest.value.hookType == PreToolUse then [latest.value] + rest else rest
  }

  /** No two events of `r` come from the same agent. */
  predicate DistinctAgents(r: seq<HookEvent>) {
    forall i, j :: 0 <= i < j < |r| ==> r[i].agentId != r[j].agentId
  }

  /** An event of an agent not yet seen keeps the agents distinct. */
  lemma ConsDistinct(e: HookEvent, rest: seq<HookEvent>)
    requires DistinctAgents(rest) && forall k :: 0 <= k < |rest| ==> rest[k].agentId != e.agentId
    ensures DistinctAgents([e] + rest)
  {
    var r := [e] + rest;
    forall i, j | 0 <= i < j < |r| ensures r[i].agentId != r[j].agentId {
      assert r[j] == rest[j - 1];
      if i > 0 {
        assert r[i] == rest[i - 1];
      }
    }
  }

  /** Distinct agents give events of distinct agents. */
  lemma {:induction false} CollectDistinct(es: seq<HookEvent>, agents: seq<string>)
    requires NoDup(agents)
    ensures DistinctAgents(Collect(es, agents))
    decreases |agents|
  {
    if |agents| > 0 {
      var tail := agents[1..];
      NoDupTail(agents);
      CollectDistinct(es, tail);
      var rest := Collect(es, tail);
      var latest := LatestOf(es, agents[0]);
      if latest.Some? && latest.value.hookType == PreToolUse {
        assert Collect(es, agents) == [latest.value] + rest;
        assert forall k :: 0 <= k < |rest| ==> rest[k].agentId in tail;
        ConsDistinct(latest.value, rest);
      } else {
        assert Collect(es, agents) == rest;
      }
    }
  }

  /** The keys a plain object `{}` already answers truthily, through
      `Object.prototype`: `groups[key]` is then a method or the prototype
      itself, never an array, so `groups[key].push` throws a TypeError. */
  const InheritedKeys: set<string> := {
    "constructor", "hasOwnProperty", "isPrototypeOf", "propertyIsEnumerable",
    "toLocaleString", "toString", "valueOf", "__proto__",
    "__defineGetter__", "__defineSetter__", "__lookupGetter__", "__lookupSetter__"}

  /** What `getActiveEvents` returns when no agent id is an inherited key:
      one event per agent at most, the agent's latest, and only when that
      is a pre-tool-use event; every such agent has one. */
  function ActiveEvents(es: seq<HookEvent>): (r: seq<HookEvent>)
    ensures forall i :: 0 <= i < |r| ==> r[i] in es && r[i].hookType == PreToolUse
    ensures forall i :: 0 <= i < |r| ==> LatestOf(es, r[i].agentId) == Some(r[i])
    ensures forall i, j :: 0 <= i < |r| && 0 <= j < |es| && es[j].agentId == r[i].agentId ==>
      es[j].timestamp <= r[i].timestamp
    ensures DistinctAgents(r)
    ensures forall k :: 0 <= k < |es| && LatestOf(es, es[k].agentId).value.hookType == PreToolUse ==>
      LatestOf(es, es[k].agentId).value in r
  {
    var agents := AgentOrder(es);
    assert forall k :: 0 <= k < |es| ==> es[k].agentId in agents;
    CollectDistinct(es, agents);
    Collect(es, agents)
  }

  /** `getActiveEvents`: it throws (None) exactly when an event's agent id
      is an inherited key, and otherwise returns the active events. */
  function GetActiveEvents(s: Store): (r: Option<seq<HookEvent>>)
    ensures r.None? <==> exists k :: 0 <= k < |s.events| && s.events[k].agentId in InheritedKeys
    ensures r.Some? ==> r.value == ActiveEvents(s.events)
  {
    if exists k :: 0 <= k < |s.events| && s.events[k].agentId in InheritedKeys then None
    else Some(ActiveEvents(s.events))
  }
}
