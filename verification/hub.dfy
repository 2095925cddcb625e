/** The server's broadcast hub (server/src/events/events.service.ts): a set
    of Server-Sent Events subscribers and a bounded history of what was
    published. A subscriber may restrict hook events to one agent; a failed
    write drops that subscriber and nobody else. Writes are injected
    outcomes; what a subscriber has been sent is kept as its `delivered`
    log. */
module Hub {
  import opened Wrappers
  import opened Text
  import opened Domain
  import opened Seqs

  const MaxHistory: nat := 1000
  /** The number of entries kept when the history overflows (`-1000 + 100`). */
  const KeptHistory: nat := 900
  /** The number of history entries replayed to a new subscriber. */
  const ReplayCount: nat := 50
  /** Subscribers not written to for this long are evicted (ms). */
  const IdleLimit: int := 600000

  /** The three kinds of stream message: `hook_event`, `agent_status`, `error`. */
  datatype StreamData =
    | HookEventData(event: HookEvent)
    | AgentStatusData(agentId: string, status: string)
    | ErrorData(message: string)

  datatype StreamItem = StreamItem(data: StreamData, timestamp: int)

  /** A subscriber; `lastSeen` is the time of its last successful write. */
  datatype Client = Client(agentFilter: Option<string>, token: Option<string>, lastSeen: int, delivered: seq<StreamItem>)

  datatype Hub = Hub(clients: map<string, Client>, history: seq<StreamItem>)

  const EmptyHub: Hub := Hub(map[], [])

  /** The agent filter: a subscriber with a (non-empty) filter is sent a
      hook event only for its agent; other messages reach everyone. */
  predicate Receives(filter: Option<string>, item: StreamItem) {
    !(Truthy(filter) && item.data.HookEventData? && item.data.event.agentId != filter.value)
  }

  function ReceivedBy(filter: Option<string>): StreamItem -> bool {
    item => Receives(filter, item)
  }

  // ---- History ---------------------------------------------------------

  /** `addToHistory`. */
  function AddToHistory(history: seq<StreamItem>, item: StreamItem): (r: seq<StreamItem>)
    ensures |history| <= MaxHistory ==> |r| <= MaxHistory
    ensures |r| > 0 && r[|r| - 1] == item
    ensures Suffix(r, history + [item])
    ensures |history| + 1 <= MaxHistory ==> r == history + [item]
    ensures |history| + 1 > MaxHistory ==> |r| == KeptHistory
  {
    var h := history + [item];
    if |h| > MaxHistory then h[|h| - KeptHistory..] else h
  }

  /** However many entries are added, the history stays within 1000 and
      holds at least the newest 900 of everything it has seen. */
  lemma {:induction false} HistoryBounded(history: seq<StreamItem>, items: seq<StreamItem>)
    requires |history| <= MaxHistory
    ensures |AddAll(history, items)| <= MaxHistory
    ensures |AddAll(history, items)| >= (if |history| + |items| < KeptHistory then |history| + |items| else KeptHistory)
    decreases |items|
  {
    if |items| > 0 {
      HistoryBounded(AddToHistory(history, items[0]), items[1..]);
    }
  }

  /** The history is always the newest part of everything added, in order. */
  lemma {:induction false} HistoryKeepsNewest(history: seq<StreamItem>, items: seq<StreamItem>)
    ensures Suffix(AddAll(history, items), history + items)
    decreases |items|
  {
    if |items| > 0 {
      var h1 := AddToHistory(history, items[0]);
      HistoryKeepsNewest(h1, items[1..]);
      SuffixStep(AddAll(h1, items[1..]), h1, history, items);
    }
  }

  function AddAll(history: seq<StreamItem>, items: seq<StreamItem>): seq<StreamItem>
    decreases |items|
  {
    if |items| == 0 then history else AddAll(AddToHistory(history, items[0]), items[1..])
  }

  // ---- Broadcast -------------------------------------------------------

  /** `broadcast`: every subscriber the filter lets through is written to;
      `failed` holds the subscribers whose write throws, and they are
      removed after the loop. */
  function Broadcast(h: Hub, item: StreamItem, now: int, failed: set<string>): (r: Hub)
    ensures r.history == h.history && r.clients.Keys <= h.clients.Keys
  {
    var kept := map id | id in h.clients && (!Receives(h.clients[id].agentFilter, item) || id !in failed) :: h.clients[id];
    Hub(map id | id in kept ::
          if Receives(kept[id].agentFilter, item)
          then kept[id].(lastSeen := now, delivered := kept[id].delivered + [item])
          else kept[id],
        h.history)
  }

  /** What one broadcast does to one subscriber: it is dropped exactly when
      it was written to and the write failed; otherwise it keeps its filter
      and token and, when written to, gets the message appended and its
      `lastSeen` refreshed. No other subscriber's outcome matters. */
  lemma BroadcastEffect(h: Hub, item: StreamItem, now: int, failed: set<string>, id: string)
    requires id in h.clients
    ensures var r := Broadcast(h, item, now, failed); var c := h.clients[id];
      && (id in r.clients <==> !Receives(c.agentFilter, item) || id !in failed)
      && (id in r.clients ==>
            && r.clients[id].agentFilter == c.agentFilter
            && r.clients[id].token == c.token
            && r.clients[id].delivered == c.delivered + (if Receives(c.agentFilter, item) then [item] else [])
            && r.clients[id].lastSeen == (if Receives(c.agentFilter, item) then now else c.lastSeen))
  {
  }

  /** `broadcastHookEvent`: recorded in the history, then broadcast. */
  function BroadcastHookEvent(h: Hub, e: HookEvent, now: int, failed: set<string>): (r: Hub)
    ensures r.history == AddToHistory(h.history, StreamItem(HookEventData(e), now))
  {
    var item := StreamItem(HookEventData(e), now);
    Broadcast(h.(history := AddToHistory(h.history, item)), item, now, failed)
  }

  /** `broadcastAgentStatus`: recorded in the history, then broadcast. */
  function BroadcastAgentStatus(h: Hub, agentId: string, status: string, now: int, failed: set<string>): (r: Hub)
    ensures r.history == AddToHistory(h.history, StreamItem(AgentStatusData(agentId, status), now))
  {
    var item := StreamItem(AgentStatusData(agentId, status), now);
    Broadcast(h.(history := AddToHistory(h.history, item)), item, now, failed)
  }

  /** `broadcastError`: broadcast but not recorded. */
  function BroadcastError(h: Hub, message: string, now: int, failed: set<string>): (r: Hub)
    ensures r.history == h.history
  {
    Broadcast(h, StreamItem(ErrorData(message), now), now, failed)
  }

  /** One call of a `broadcast*` method with its write outcomes. */
  datatype Publication = Publication(data: StreamData, now: int, failed: set<string>)

  function Publish(h: Hub, p: Publication): Hub {
    match p.data
    case HookEventData(e) => BroadcastHookEvent(h, e, p.now, p.failed)
    case AgentStatusData(a, s) => BroadcastAgentStatus(h, a, s, p.now, p.failed)
    case ErrorData(m) => BroadcastError(h, m, p.now, p.failed)
  }

  function PublishAll(h: Hub, ps: seq<Publication>): Hub
    decreases |ps|
  {
    if |ps| == 0 then h else PublishAll(Publish(h, ps[0]), ps[1..])
  }

  function ItemsOf(ps: seq<Publication>): (r: seq<StreamItem>)
    ensures |r| == |ps|
    ensures forall i :: 0 <= i < |ps| ==> r[i] == StreamItem(ps[i].data, ps[i].now)
  {
    seq(|ps|, i requires 0 <= i < |ps| => StreamItem(ps[i].data, ps[i].now))
  }

  /** One publication, seen by a subscriber whose write succeeds. */
  lemma PublishReaches(h: Hub, p: Publication, id: string)
    requires id in h.clients && id !in p.failed
    ensures var r := Publish(h, p); var c := h.clients[id]; var item := StreamItem(p.data, p.now);
      && id in r.clients
      && r.clients[id].agentFilter == c.agentFilter
      && r.clients[id].delivered == c.delivered + (if Receives(c.agentFilter, item) then [item] else [])
  {
    var item := StreamItem(p.data, p.now);
    match p.data
    case HookEventData(e) => BroadcastEffect(h.(history := AddToHistory(h.history, item)), item, p.now, p.failed, id);
    case AgentStatusData(a, st) => BroadcastEffect(h.(history := AddToHistory(h.history, item)), item, p.now, p.failed, id);
    case ErrorData(m) => BroadcastEffect(h, item, p.now, p.failed, id);
  }

  /** The publications a subscriber with filter `f` lets through, as the
      messages it is sent. */
  function Deliveries(f: Option<string>, ps: seq<Publication>): (r: seq<StreamItem>)
    decreases |ps|
  {
    if |ps| == 0 then []
    else
      var item := StreamItem(ps[0].data, ps[0].now);
      (if Receives(f, item) then [item] else []) + Deliveries(f, ps[1..])
  }

  lemma {:induction false} DeliveriesFilter(f: Option<string>, ps: seq<Publication>)
    ensures Deliveries(f, ps) == Filter(ReceivedBy(f), ItemsOf(ps))
    decreases |ps|
  {
    if |ps| > 0 {
      DeliveriesFilter(f, ps[1..]);
      var items := ItemsOf(ps);
      assert items[1..] == ItemsOf(ps[1..]);
      assert ReceivedBy(f)(items[0]) == Receives(f, items[0]);
    }
  }

  lemma {:induction false} SubscriberReceivesAllStep(h: Hub, ps: seq<Publication>, id: string, f: Option<string>)
    requires id in h.clients && h.clients[id].agentFilter == f
    requires forall i :: 0 <= i < |ps| ==> id !in ps[i].failed
    ensures id in PublishAll(h, ps).clients
    ensures PublishAll(h, ps).clients[id].agentFilter == f
    ensures PublishAll(h, ps).clients[id].delivered == h.clients[id].delivered + Deliveries(f, ps)
    decreases |ps|
  {
    if |ps| > 0 {
      var h1 := Publish(h, ps[0]);
      var rest := ps[1..];
      var item := StreamItem(ps[0].data, ps[0].now);
      var first := if Receives(f, item) then [item] else [];
      assert id in h1.clients && h1.clients[id].agentFilter == f
             && h1.clients[id].delivered == h.clients[id].delivered + first by {
        PublishReaches(h, ps[0], id);
      }
      assert forall i :: 0 <= i < |rest| ==> id !in rest[i].failed by {
        forall i | 0 <= i < |rest| ensures id !in rest[i].failed {
          assert rest[i] == ps[i + 1];
        }
      }
      SubscriberReceivesAllStep(h1, rest, id, f);
      assert PublishAll(h, ps) == PublishAll(h1, rest);
      assert Deliveries(f, ps) == first + Deliveries(f, rest);
      ConcatStep(h.clients[id].delivered, h1.clients[id].delivered, first,
                 Deliveries(f, rest), PublishAll(h1, rest).clients[id].delivered);
    }
  }

  lemma ConcatStep(d0: seq<StreamItem>, d1: seq<StreamItem>, first: seq<StreamItem>, rest: seq<StreamItem>, total: seq<StreamItem>)
    requires d1 == d0 + first && total == d1 + rest
    ensures total == d0 + (first + rest)
  {
  }

  /** A subscriber whose writes all succeed stays subscribed and is sent
      exactly the published messages its filter lets through, in order. */
  lemma SubscriberReceivesAll(h: Hub, ps: seq<Publication>, id: string)
    requires id in h.clients
    requires forall i :: 0 <= i < |ps| ==> id !in ps[i].failed
    ensures id in PublishAll(h, ps).clients
    ensures PublishAll(h, ps).clients[id].delivered
            == h.clients[id].delivered + Filter(ReceivedBy(h.clients[id].agentFilter), ItemsOf(ps))
  {
    SubscriberReceivesAllStep(h, ps, id, h.clients[id].agentFilter);
    DeliveriesFilter(h.clients[id].agentFilter, ps);
  }

  // ---- Subscribers -----------------------------------------------------

  /** The entries of `recent` a subscriber with `filter` is sent. */
  function Eligible(filter: Option<string>, recent: seq<StreamItem>): seq<StreamItem>
    decreases |recent|
  {
    if |recent| == 0 then []
    else if Receives(filter, recent[0]) then [recent[0]] + Eligible(filter, recent[1..])
    else Eligible(filter, recent[1..])
  }

  lemma {:induction false} EligibleIsFilter(filter: Option<string>, recent: seq<StreamItem>)
    ensures Eligible(filter, recent) == Filter(ReceivedBy(filter), recent)
    decreases |recent|
  {
    if |recent| > 0 {
      EligibleIsFilter(filter, recent[1..]);
    }
  }

  /** `sendRecentEvents`: walk `recent` with the filter and stop at the
      first failed write. `outcomes[k]` is the outcome of the k-th write
      attempted; writes past its end succeed. Returns what was sent. */
  function Replay(filter: Option<string>, recent: seq<StreamItem>, outcomes: seq<bool>): (r: seq<StreamItem>)
    ensures r <= Eligible(filter, recent)
    ensures forall k :: 0 <= k < |r| && k < |outcomes| ==> outcomes[k]
    ensures |r| < |Eligible(filter, recent)| ==> |r| < |outcomes| && !outcomes[|r|]
    decreases |recent|
  {
    if |recent| == 0 then []
    else if !Receives(filter, recent[0]) then Replay(filter, recent[1..], outcomes)
    else if |outcomes| > 0 && !outcomes[0] then []
    else [recent[0]] + Replay(filter, recent[1..], if |outcomes| > 0 then outcomes[1..] else [])
  }

  /** The entries replayed to a new subscriber: the newest 50. */
  function Recent(history: seq<StreamItem>): (r: seq<StreamItem>)
    ensures |r| == if |history| < ReplayCount then |history| else ReplayCount
    ensures r == history[|history| - |r|..]
  {
    if |history| <= ReplayCount then history else history[|history| - ReplayCount..]
  }

  /** `cleanupClients`: drop subscribers idle for more than ten minutes. */
  function CleanupClients(h: Hub, now: int): (r: Hub)
    ensures r.history == h.history
    ensures forall id :: id in r.clients <==> id in h.clients && h.clients[id].lastSeen >= now - IdleLimit
    ensures forall id :: id in r.clients ==> r.clients[id] == h.clients[id]
  {
    h.(clients := map id | id in h.clients && h.clients[id].lastSeen >= now - IdleLimit :: h.clients[id])
  }

  /** `addClient`: register under the fresh `id` with `lastSeen = now`,
      replay recent history, then evict idle subscribers. */
  function AddClient(h: Hub, id: string, filter: Option<string>, token: Option<string>, now: int,
                     outcomes: seq<bool>): (r: Hub)
    ensures r.history == h.history
    ensures id in r.clients && r.clients[id].lastSeen == now && r.clients[id].agentFilter == filter
    ensures r.clients[id].delivered <= Filter(ReceivedBy(filter), Recent(h.history))
    ensures (forall k :: 0 <= k < |outcomes| ==> outcomes[k]) ==>
              r.clients[id].delivered == Filter(ReceivedBy(filter), Recent(h.history))
    ensures forall other :: other != id ==>
              (other in r.clients <==> other in h.clients && h.clients[other].lastSeen >= now - IdleLimit)
    ensures forall other :: other != id && other in r.clients ==> r.clients[other] == h.clients[other]
  {
    EligibleIsFilter(filter, Recent(h.history));
    var c := Client(filter, token, now, Replay(filter, Recent(h.history), outcomes));
    CleanupClients(h.(clients := h.clients[id := c]), now)
  }

  /** `removeClient`: only that subscriber goes; an unknown id changes nothing. */
  function RemoveClient(h: Hub, id: string): (r: Hub)
    ensures id !in h.clients ==> r == h
    ensures id !in r.clients && r.history == h.history
    ensures forall other :: other != id ==> (other in r.clients <==> other in h.clients)
    ensures forall other :: other != id && other in r.clients ==> r.clients[other] == h.clients[other]
  {
    h.(clients := h.clients - {id})
  }
}
