/** The server's command broker (server/src/commands/commands.service.ts):
    a map from id to command plus a per-agent list of ids, the claim guard,
    completion, and the periodic expiry and retention sweeps. Every mutating
    operation also returns the command states it broadcasts. */
module Broker {
  import opened Wrappers
  import opened Domain
  import opened Seqs

  /** A command may be claimed for 30 s after creation. */
  const CommandTimeout: int := 30000
  /** Commands older than one hour are deleted whatever their status. */
  const RetentionWindow: int := 3600000

  datatype Broker = Broker(commands: map<string, RemoteCommand>, byAgent: map<string, seq<string>>)

  const EmptyBroker: Broker := Broker(map[], map[])

  datatype BrokerError = NotFound(id: string) | NotPending(id: string)

  /** `commandsByAgent.get(agentId) || []`. */
  function IndexOf(b: Broker, agentId: string): seq<string> {
    if agentId in b.byAgent then b.byAgent[agentId] else []
  }

  /** The broker's bookkeeping invariant: every command is filed under its
      own id and listed once in its agent's index; every index entry is
      non-empty and names an existing command of that agent. */
  ghost predicate Wf(b: Broker) {
    && (forall id | id in b.commands :: b.commands[id].id == id && id in IndexOf(b, b.commands[id].agentId))
    && (forall a | a in b.byAgent :: |b.byAgent[a]| > 0 && NoDup(b.byAgent[a]))
    && (forall a, id | a in b.byAgent && id in b.byAgent[a] :: id in b.commands && b.commands[id].agentId == a)
  }

  // ---- Lookups ------------------------------------------------------------

  /** The ids that name a stored command. */
  function Stored(commands: map<string, RemoteCommand>): string -> bool {
    id => id in commands
  }

  /** `ids.map(id => commands.get(id)).filter(cmd => cmd)`: the commands of
      the stored ids, one for each, in index order. */
  function Resolve(ids: seq<string>, commands: map<string, RemoteCommand>): (r: seq<RemoteCommand>)
    ensures |r| <= |ids|
    ensures forall i :: 0 <= i < |ids| && ids[i] in commands ==> commands[ids[i]] in r
    ensures forall c :: c in r ==> exists i :: 0 <= i < |ids| && ids[i] in commands && commands[ids[i]] == c
    decreases |ids|
  {
    if |ids| == 0 then []
    else if ids[0] in commands then [commands[ids[0]]] + Resolve(ids[1..], commands)
    else Resolve(ids[1..], commands)
  }

  /** A command an agent may still act on at time `now`. */
  predicate Live(c: RemoteCommand, now: int) {
    c.status == Pending && c.expiresAt > now
  }

  function LiveAt(now: int): RemoteCommand -> bool {
    c => Live(c, now)
  }

  /** `getPendingCommandsForAgent`: the agent's live commands, in index order. */
  function ListPending(b: Broker, agentId: string, now: int): (r: seq<RemoteCommand>)
    ensures forall c :: c in r ==> c.status == Pending && c.expiresAt > now && c in b.commands.Values
    ensures forall id :: id in IndexOf(b, agentId) && id in b.commands && Live(b.commands[id], now) ==> b.commands[id] in r
    ensures Subsequence(r, Resolve(IndexOf(b, agentId), b.commands))
  {
    Filter(LiveAt(now), Resolve(IndexOf(b, agentId), b.commands))
  }

  /** `getCommandsByAgent`: the still-existing commands named in the agent's index. */
  function GetCommandsByAgent(b: Broker, agentId: string): seq<RemoteCommand> {
    Resolve(IndexOf(b, agentId), b.commands)
  }

  /** `getCommand`: the command, or NotFound. */
  function GetCommand(b: Broker, id: string): (r: Result<RemoteCommand, BrokerError>)
    ensures r.Success? <==> id in b.commands
    ensures r.Success? ==> r.value == b.commands[id]
    ensures r.Failure? ==> r.error == NotFound(id)
  {
    if id in b.commands then Success(b.commands[id]) else Failure(NotFound(id))
  }

  // ---- Mutations ----------------------------------------------------------

  /** `createCommand` with a fresh `id` and the current time: the new
      command is returned and is also the state broadcast. */
  function Create(b: Broker, id: string, req: CommandRequest, now: int): (r: (Broker, RemoteCommand))
    ensures r.1.id == id && r.1.agentId == req.agentId && r.1.sessionId == req.sessionId && r.1.kind == req.kind
    ensures r.1.status == Pending && r.1.createdAt == now && r.1.expiresAt == now + CommandTimeout
    ensures r.1.payload == req.payload.GetOr(NoPayload) && r.1.relatedEventId == req.relatedEventId
    ensures r.0.commands == b.commands[id := r.1]
    ensures IndexOf(r.0, req.agentId) == IndexOf(b, req.agentId) + [id]
    ensures forall a :: a != req.agentId ==> IndexOf(r.0, a) == IndexOf(b, a)
  {
    var cmd := RemoteCommand(id, req.agentId, req.sessionId, req.kind, req.payload.GetOr(NoPayload),
                             Pending, now, now + CommandTimeout, req.relatedEventId);
    (Broker(b.commands[id := cmd], b.byAgent[req.agentId := IndexOf(b, req.agentId) + [id]]), cmd)
  }

  /** `markCommandAsProcessing`: the pending -> processing guard. */
  function Claim(b: Broker, id: string): (r: Result<(Broker, RemoteCommand), BrokerError>)
    ensures id !in b.commands ==> r == Failure(NotFound(id))
    ensures id in b.commands && b.commands[id].status != Pending ==> r == Failure(NotPending(id))
    ensures r.Success? <==> id in b.commands && b.commands[id].status == Pending
    ensures r.Success? ==>
      && r.value.1 == b.commands[id].(status := Processing)
      && r.value.0 == Broker(b.commands[id := r.value.1], b.byAgent)
  {
    if id !in b.commands then Failure(NotFound(id))
    else if b.commands[id].status != Pending then Failure(NotPending(id))
    else
      var c := b.commands[id].(status := Processing);
      Success((Broker(b.commands[id := c], b.byAgent), c))
  }

  /** `completeCommand`: sets the requested final status without looking at
      the current one. */
  function Complete(b: Broker, id: string, status: CommandStatus): (r: Result<(Broker, RemoteCommand), BrokerError>)
    requires status == Completed || status == Expired
    ensures r.Success? <==> id in b.commands
    ensures r.Failure? ==> r.error == NotFound(id)
    ensures r.Success? ==>
      && r.value.1 == b.commands[id].(status := status)
      && r.value.0 == Broker(b.commands[id := r.value.1], b.byAgent)
  {
    if id !in b.commands then Failure(NotFound(id))
    else
      var c := b.commands[id].(status := status);
      Success((Broker(b.commands[id := c], b.byAgent), c))
  }

  // ---- Sweeps -------------------------------------------------------------

  /** A pending command whose expiry lies strictly in the past. */
  predicate Overdue(c: RemoteCommand, now: int) {
    c.status == Pending && c.expiresAt < now
  }

  /** The first half of `cleanupExpiredCommands`: every overdue command
      becomes expired; the ids returned are the ones broadcast. */
  function ExpirySweep(b: Broker, now: int): (r: (Broker, set<string>))
    ensures r.0.commands.Keys == b.commands.Keys && r.0.byAgent == b.byAgent
    ensures forall id :: id in r.1 <==> id in b.commands && Overdue(b.commands[id], now)
    ensures forall id | id in b.commands && Overdue(b.commands[id], now) ::
      r.0.commands[id] == b.commands[id].(status := Expired)
    ensures forall id | id in b.commands && !Overdue(b.commands[id], now) ::
      r.0.commands[id] == b.commands[id]
    ensures forall id | id in r.0.commands :: !Overdue(r.0.commands[id], now)
  {
    var expired := set id | id in b.commands && Overdue(b.commands[id], now);
    var cs := map id | id in b.commands ::
      if id in expired then b.commands[id].(status := Expired) else b.commands[id];
    (Broker(cs, b.byAgent), expired)
  }

  /** The commands the retention sweep deletes. */
  function Doomed(b: Broker, now: int): set<string> {
    set id | id in b.commands && b.commands[id].createdAt < now - RetentionWindow
  }

  /** The agents whose index the retention sweep rewrites. */
  function Touched(b: Broker, doomed: set<string>): set<string> {
    set id | id in b.commands && id in doomed :: b.commands[id].agentId
  }

  function Survives(b: Broker, doomed: set<string>, a: string): string -> bool {
    id => !(id in doomed && id in b.commands && b.commands[id].agentId == a)
  }

  /** Agent `a`'s index without the doomed commands filed for `a`. */
  function Trim(b: Broker, doomed: set<string>, a: string): seq<string> {
    Filter(Survives(b, doomed, a), IndexOf(b, a))
  }

  /** The second half of `cleanupExpiredCommands`: deletes every command
      created more than an hour before `now` and drops it from its agent's
      index, removing index entries that become empty. */
  function RetentionSweep(b: Broker, now: int): (r: Broker)
    ensures r.commands.Keys == b.commands.Keys - Doomed(b, now)
    ensures forall id | id in r.commands :: r.commands[id] == b.commands[id]
    ensures forall id | id in b.commands && id !in r.commands :: b.commands[id].createdAt < now - RetentionWindow
  {
    var doomed := Doomed(b, now);
    var touched := Touched(b, doomed);
    var idx := map a | a in b.byAgent && (a !in touched || |Trim(b, doomed, a)| > 0) ::
      if a in touched then Trim(b, doomed, a) else b.byAgent[a];
    Broker(b.commands - doomed, idx)
  }

  /** The whole sweep, both halves at the same `now`. */
  function Cleanup(b: Broker, now: int): (Broker, set<string>) {
    var (e, expired) := ExpirySweep(b, now);
    (RetentionSweep(e, now), expired)
  }

  // ---- Properties -----------------------------------------------------------

  /** Resolving keeps index order: the `k`-th command is the one the
      `k`-th stored id names. */
  lemma {:induction false} ResolveInOrder(ids: seq<string>, commands: map<string, RemoteCommand>)
    ensures var r := Resolve(ids, commands); var present := Filter(Stored(commands), ids);
      |r| == |present| && forall k :: 0 <= k < |r| ==> present[k] in commands && r[k] == commands[present[k]]
    decreases |ids|
  {
    if |ids| > 0 {
      ResolveInOrder(ids[1..], commands);
      var rest := Resolve(ids[1..], commands);
      var later := Filter(Stored(commands), ids[1..]);
      if ids[0] in commands {
        assert Resolve(ids, commands) == [commands[ids[0]]] + rest;
        assert Filter(Stored(commands), ids) == [ids[0]] + later;
      } else {
        assert Resolve(ids, commands) == rest;
        assert Filter(Stored(commands), ids) == later;
      }
    }
  }

  lemma {:induction false} ResolveAppend(ids: seq<string>, id: string, m: map<string, RemoteCommand>)
    requires id in m
    ensures Resolve(ids + [id], m) == Resolve(ids, m) + [m[id]]
    decreases |ids|
  {
    if |ids| == 0 {
      assert ids + [id] == [id];
    } else {
      assert (ids + [id])[1..] == ids[1..] + [id];
      ResolveAppend(ids[1..], id, m);
    }
  }

  /** Resolving ids that never mention `id` ignores what `id` maps to. */
  lemma {:induction false} ResolveIgnores(ids: seq<string>, id: string, c: RemoteCommand, m: map<string, RemoteCommand>)
    requires id !in ids
    ensures Resolve(ids, m[id := c]) == Resolve(ids, m)
    decreases |ids|
  {
    if |ids| > 0 {
      ResolveIgnores(ids[1..], id, c, m);
    }
  }

  /** The live view of an index depends only on the live commands it names. */
  lemma {:induction false} LiveViewUnchanged(ids: seq<string>, m1: map<string, RemoteCommand>, m2: map<string, RemoteCommand>, now: int)
    requires forall i :: 0 <= i < |ids| ==>
      ((ids[i] in m1 && Live(m1[ids[i]], now)) <==> (ids[i] in m2 && Live(m2[ids[i]], now)))
    requires forall i :: 0 <= i < |ids| && ids[i] in m1 && Live(m1[ids[i]], now) ==> m2[ids[i]] == m1[ids[i]]
    ensures Filter(LiveAt(now), Resolve(ids, m1)) == Filter(LiveAt(now), Resolve(ids, m2))
    decreases |ids|
  {
    if |ids| > 0 {
      LiveViewUnchanged(ids[1..], m1, m2, now);
      var id := ids[0];
      if id in m1 {
        FilterAppend(LiveAt(now), [m1[id]], Resolve(ids[1..], m1));
      }
      if id in m2 {
        FilterAppend(LiveAt(now), [m2[id]], Resolve(ids[1..], m2));
      }
    }
  }

  lemma CreatePreservesWf(b: Broker, id: string, req: CommandRequest, now: int)
    requires Wf(b) && id !in b.commands
    ensures Wf(Create(b, id, req, now).0)
  {
    var (b', c) := Create(b, id, req, now);
    assert id !in IndexOf(b, req.agentId);
    var idx := IndexOf(b, req.agentId);
    assert NoDup(idx + [id]) by {
      forall i, j | 0 <= i < j < |idx + [id]| ensures (idx + [id])[i] != (idx + [id])[j] {
        if j == |idx| {
          assert (idx + [id])[i] == idx[i];
        } else {
          assert (idx + [id])[i] == idx[i] && (idx + [id])[j] == idx[j];
        }
      }
    }
  }

  /** A command created at `now` is, until it expires, the last entry of
      its agent's pending list, after everything that was pending before. */
  lemma CreateThenListed(b: Broker, id: string, req: CommandRequest, now: int, t: int)
    requires Wf(b) && id !in b.commands
    requires t < now + CommandTimeout
    ensures ListPending(Create(b, id, req, now).0, req.agentId, t)
         == ListPending(b, req.agentId, t) + [Create(b, id, req, now).1]
  {
    var (b', c) := Create(b, id, req, now);
    var idx := IndexOf(b, req.agentId);
    assert id !in idx;
    assert Live(c, t);
    assert Filter(LiveAt(t), [c]) == [c];
    calc {
      ListPending(b', req.agentId, t);
      Filter(LiveAt(t), Resolve(idx + [id], b'.commands));
      { ResolveAppend(idx, id, b'.commands); }
      Filter(LiveAt(t), Resolve(idx, b'.commands) + [c]);
      { ResolveIgnores(idx, id, c, b.commands); }
      Filter(LiveAt(t), Resolve(idx, b.commands) + [c]);
      { FilterAppend(LiveAt(t), Resolve(idx, b.commands), [c]); }
      ListPending(b, req.agentId, t) + [c];
    }
  }

  lemma ClaimPreservesWf(b: Broker, id: string)
    requires Wf(b) && Claim(b, id).Success?
    ensures Wf(Claim(b, id).value.0)
  {
  }

  /** Claim is the mutual-exclusion point: once a command is claimed, a
      second claim fails and no agent's pending list shows it any more. */
  lemma ClaimIsExclusive(b: Broker, id: string, agentId: string, t: int)
    requires Wf(b) && Claim(b, id).Success?
    ensures Claim(Claim(b, id).value.0, id) == Failure(NotPending(id))
    ensures forall c :: c in ListPending(Claim(b, id).value.0, agentId, t) ==> c.id != id
  {
    var b' := Claim(b, id).value.0;
    ClaimPreservesWf(b, id);
    forall c | c in ListPending(b', agentId, t) ensures c.id != id {
      var k :| k in b'.commands && b'.commands[k] == c;
      assert c.id == k;
    }
  }

  lemma CompletePreservesWf(b: Broker, id: string, status: CommandStatus)
    requires Wf(b) && (status == Completed || status == Expired) && Complete(b, id, status).Success?
    ensures Wf(Complete(b, id, status).value.0)
  {
  }

  /** The expiry sweep changes statuses only: every command keeps its id
      and its agent. */
  lemma ExpirySweepKeepsOwners(b: Broker, now: int)
    ensures var r := ExpirySweep(b, now).0;
      && r.commands.Keys == b.commands.Keys && r.byAgent == b.byAgent
      && forall id | id in r.commands :: r.commands[id].id == b.commands[id].id && r.commands[id].agentId == b.commands[id].agentId
  {
    var r := ExpirySweep(b, now).0;
    forall id | id in r.commands
      ensures r.commands[id].id == b.commands[id].id && r.commands[id].agentId == b.commands[id].agentId
    {
    }
  }

  /** Changing anything but the ids and agents of the stored commands
      keeps the bookkeeping invariant. */
  lemma SameOwnersWf(b: Broker, r: Broker)
    requires Wf(b) && r.commands.Keys == b.commands.Keys && r.byAgent == b.byAgent
    requires forall id | id in r.commands :: r.commands[id].id == b.commands[id].id && r.commands[id].agentId == b.commands[id].agentId
    ensures Wf(r)
  {
    assert forall id | id in r.commands :: r.commands[id].id == id && id in IndexOf(r, r.commands[id].agentId);
    assert forall a, id | a in r.byAgent && id in r.byAgent[a] :: id in r.commands && r.commands[id].agentId == a;
  }

  lemma ExpirySweepPreservesWf(b: Broker, now: int)
    requires Wf(b)
    ensures Wf(ExpirySweep(b, now).0)
  {
    ExpirySweepKeepsOwners(b, now);
    SameOwnersWf(b, ExpirySweep(b, now).0);
  }

  /** The expiry sweep never changes what an agent is shown at the same instant. */
  lemma ExpirySweepKeepsListing(b: Broker, agentId: string, now: int)
    ensures ListPending(ExpirySweep(b, now).0, agentId, now) == ListPending(b, agentId, now)
  {
    var b' := ExpirySweep(b, now).0;
    LiveViewUnchanged(IndexOf(b, agentId), b.commands, b'.commands, now);
  }

  /** At `expiresAt == now` a pending command is neither listed (that needs
      `expiresAt > now`) nor expired (that needs `expiresAt < now`). */
  lemma ExpiryBoundary(b: Broker, id: string, now: int)
    requires id in b.commands && b.commands[id].status == Pending && b.commands[id].expiresAt == now
    ensures forall a :: b.commands[id] !in ListPending(b, a, now)
    ensures ExpirySweep(b, now).0.commands[id].status == Pending
    ensures id !in ExpirySweep(b, now).1
  {
  }

  /** A trimmed index keeps no duplicates and names only surviving
      commands of its agent. */
  lemma TrimmedIndex(b: Broker, doomed: set<string>, a: string)
    requires Wf(b)
    ensures NoDup(Trim(b, doomed, a))
    ensures forall id | id in Trim(b, doomed, a) :: id in b.commands && id !in doomed && b.commands[id].agentId == a
  {
    FilterNoDup(Survives(b, doomed, a), IndexOf(b, a));
    forall id | id in Trim(b, doomed, a) ensures id in b.commands && id !in doomed && b.commands[id].agentId == a {
      assert id in IndexOf(b, a) && Survives(b, doomed, a)(id);
    }
  }

  /** An index entry that is doomed makes its agent one the sweep touches. */
  lemma UntouchedIndex(b: Broker, doomed: set<string>, a: string)
    requires Wf(b) && a in b.byAgent
    ensures forall id | id in b.byAgent[a] ::
      id in b.commands && b.commands[id].agentId == a && (id in doomed ==> a in Touched(b, doomed))
  {
    forall id | id in b.byAgent[a]
      ensures id in b.commands && b.commands[id].agentId == a && (id in doomed ==> a in Touched(b, doomed))
    {
      assert id in b.commands && b.commands[id].agentId == a;
      assert id in doomed ==> b.commands[id].agentId in Touched(b, doomed);
    }
  }

  /** One agent's index after the retention sweep: non-empty, duplicate
      free, naming only surviving commands of that agent, and keeping every
      surviving entry in its original order. */
  lemma RetainedIndex(b: Broker, now: int, a: string)
    requires Wf(b) && a in RetentionSweep(b, now).byAgent
    ensures var idx := RetentionSweep(b, now).byAgent[a];
      && |idx| > 0 && NoDup(idx)
      && forall id | id in idx :: id in b.commands && id !in Doomed(b, now) && b.commands[id].agentId == a
  ensures var idx := RetentionSweep(b, now).byAgent[a];
      Subsequence(idx, IndexOf(b, a)) && forall id | id in IndexOf(b, a) && id !in Doomed(b, now) :: id in idx
  {
    var doomed := Doomed(b, now);
    var touched := Touched(b, doomed);
    if a in touched {
      assert RetentionSweep(b, now).byAgent[a] == Trim(b, doomed, a);
      TrimmedIndex(b, doomed, a);
    } else {
      assert RetentionSweep(b, now).byAgent[a] == b.byAgent[a];
      UntouchedIndex(b, doomed, a);
      SubsequenceRefl(b.byAgent[a]);
    }
  }

  lemma RetentionSweepPreservesWf(b: Broker, now: int)
    requires Wf(b)
    ensures Wf(RetentionSweep(b, now))
    ensures forall a, id | a in RetentionSweep(b, now).byAgent && id in RetentionSweep(b, now).byAgent[a] ::
      id !in Doomed(b, now)
  {
    var r := RetentionSweep(b, now);
    var doomed := Doomed(b, now);
    var touched := Touched(b, doomed);
    forall a | a in r.byAgent
      ensures |r.byAgent[a]| > 0 && NoDup(r.byAgent[a])
      ensures forall id | id in r.byAgent[a] :: id in r.commands && r.commands[id].agentId == a
    {
      RetainedIndex(b, now, a);
    }
    forall id | id in r.commands
      ensures r.commands[id].id == id && id in IndexOf(r, r.commands[id].agentId)
    {
      SurvivorIndexed(b, now, id);
    }
  }

  /** A command the retention sweep keeps stays in its agent's index. */
  lemma SurvivorIndexed(b: Broker, now: int, id: string)
    requires Wf(b) && id in b.commands && id !in Doomed(b, now)
    ensures id in IndexOf(RetentionSweep(b, now), b.commands[id].agentId)
  {
    var doomed := Doomed(b, now);
    var a := b.commands[id].agentId;
    assert id in IndexOf(b, a);
    if a in Touched(b, doomed) {
      assert Survives(b, doomed, a)(id);
      assert id in Trim(b, doomed, a);
    }
  }

  lemma CleanupPreservesWf(b: Broker, now: int)
    requires Wf(b)
    ensures Wf(Cleanup(b, now).0)
  {
    ExpirySweepPreservesWf(b, now);
    RetentionSweepPreservesWf(ExpirySweep(b, now).0, now);
  }

  /** Under the invariant, an agent's command list holds exactly the stored
      commands addressed to that agent. */
  lemma CommandsByAgentExact(b: Broker, agentId: string)
    requires Wf(b)
    ensures forall c :: c in GetCommandsByAgent(b, agentId) <==> c in b.commands.Values && c.agentId == agentId
  {
    var idx := IndexOf(b, agentId);
    forall c | c in b.commands.Values && c.agentId == agentId
      ensures c in GetCommandsByAgent(b, agentId)
    {
      var k :| k in b.commands && b.commands[k] == c;
      var i :| 0 <= i < |idx| && idx[i] == k;
    }
  }
}
