/** The dashboard's offline command queue
    (client/src/services/offlineCommandQueue.ts): commands created while
    the server is unreachable wait here and are re-sent on `flush`; each
    failed send counts a retry, and a command is given up after three. */
module OfflineQueue {
  import opened Domain
  import opened Seqs

  const MaxRetries: nat := 3

  datatype QueuedCommand = QueuedCommand(command: CommandRequest, timestamp: int, retries: nat, id: string)

  /** The queue, the flag that keeps two flushes from overlapping, and the
      part of a running flush's snapshot whose sends have not settled yet.
      The flush awaits each send, so the other operations can run while
      `todo` is non-empty. */
  datatype Queue = Queue(items: seq<QueuedCommand>, flushing: bool, todo: seq<QueuedCommand>)

  const EmptyQueue: Queue := Queue([], false, [])

  /** A flush is running exactly while some send of its snapshot is
      outstanding. */
  predicate Valid(q: Queue) {
    q.flushing <==> |q.todo| > 0
  }

  /** Queued commands are told apart by id, so ids are unique. */
  predicate UniqueIds(q: seq<QueuedCommand>) {
    forall i, j :: 0 <= i < j < |q| ==> q[i].id != q[j].id
  }

  predicate HasId(q: seq<QueuedCommand>, id: string) {
    exists i :: 0 <= i < |q| && q[i].id == id
  }

  /** Every queued command still has a retry left. */
  predicate RetriesLeft(q: seq<QueuedCommand>) {
    forall i :: 0 <= i < |q| ==> q[i].retries < MaxRetries
  }

  /** `enqueue`: append at the back with no retries; returns the new id. */
  function Enqueue(q: Queue, command: CommandRequest, id: string, now: int): (r: (Queue, string))
    ensures r.1 == id && |r.0.items| == |q.items| + 1 && r.0.flushing == q.flushing && r.0.todo == q.todo
    ensures r.0.items[..|q.items|] == q.items
    ensures r.0.items[|q.items|] == QueuedCommand(command, now, 0, id)
    ensures RetriesLeft(q.items) ==> RetriesLeft(r.0.items)
    ensures UniqueIds(q.items) && !HasId(q.items, id) ==> UniqueIds(r.0.items)
  {
    (q.(items := q.items + [QueuedCommand(command, now, 0, id)]), id)
  }

  function NotId(id: string): QueuedCommand -> bool {
    (c: QueuedCommand) => c.id != id
  }

  /** `queue.filter(q => q.id !== id)`. */
  function RemoveId(q: seq<QueuedCommand>, id: string): (r: seq<QueuedCommand>)
    ensures !HasId(r, id)
    ensures forall c :: c in r <==> c in q && c.id != id
  {
    Filter(NotId(id), q)
  }

  /** `item.retries++` on the queued object with that id. */
  function SetRetries(q: seq<QueuedCommand>, id: string, n: nat): (r: seq<QueuedCommand>)
    ensures |r| == |q|
    ensures forall i :: 0 <= i < |q| ==> r[i] == if q[i].id == id then q[i].(retries := n) else q[i]
  {
    seq(|q|, i requires 0 <= i < |q| => if q[i].id == id then q[i].(retries := n) else q[i])
  }

  /** The body of `flush`'s loop for one snapshot command, on the queue as
      it is when that command's send settles (`ok` when it succeeded). */
  function LoopBody(queue: seq<QueuedCommand>, item: QueuedCommand, ok: bool): seq<QueuedCommand> {
    if ok then RemoveId(queue, item.id)
    else if item.retries + 1 >= MaxRetries then RemoveId(queue, item.id)
    else SetRetries(queue, item.id, item.retries + 1)
  }

  /** `flush`'s loop over the snapshot; `sent` holds the ids whose send
      succeeds. */
  function FlushLoop(snapshot: seq<QueuedCommand>, queue: seq<QueuedCommand>, sent: set<string>): seq<QueuedCommand>
    decreases |snapshot|
  {
    if |snapshot| == 0 then queue
    else FlushLoop(snapshot[1..], LoopBody(queue, snapshot[0], snapshot[0].id in sent), sent)
  }

  /** `flush` run to its end with nothing in between, `sent` holding the
      ids whose send succeeds: a no-op while another flush runs or when the
      queue is empty. */
  function Flush(q: Queue, sent: set<string>): (r: Queue)
    ensures q.flushing || |q.items| == 0 ==> r == q
    ensures !r.flushing || r == q
  {
    if q.flushing || |q.items| == 0 then q
    else Queue(FlushLoop(q.items, q.items, sent), false, [])
  }

  // ---- The flush step by step --------------------------------------------

  /** `flush` up to its first `await`: unless a flush is already running or
      the queue is empty, raise the flag and take the snapshot. */
  function StartFlush(q: Queue): (r: Queue)
    ensures q.flushing || |q.items| == 0 ==> r == q
    ensures !q.flushing && |q.items| > 0 ==> r.flushing && r.todo == q.items && r.items == q.items
    ensures Valid(q) ==> Valid(r)
  {
    if q.flushing || |q.items| == 0 then q
    else q.(flushing := true, todo := q.items)
  }

  /** The send of the snapshot's next command settles (`ok` when it
      succeeded) and the loop body runs on the queue as it is now; the flag
      drops after the last one. With no send outstanding nothing happens. */
  function Settle(q: Queue, ok: bool): (r: Queue)
    ensures |q.todo| == 0 ==> r == q
    ensures |q.todo| > 0 ==> r.todo == q.todo[1..] && r.flushing == (|q.todo| > 1)
    ensures |q.todo| > 0 ==> !HasId(r.items, q.todo[0].id) || (!ok && q.todo[0].retries + 1 < MaxRetries)
    ensures Valid(q) ==> Valid(r)
  {
    if |q.todo| == 0 then q
    else Queue(LoopBody(q.items, q.todo[0], ok), |q.todo| > 1, q.todo[1..])
  }

  /** Several sends settling in turn, with nothing else in between. */
  function SettleAll(q: Queue, oks: seq<bool>): Queue
    decreases |oks|
  {
    if |oks| == 0 then q else SettleAll(Settle(q, oks[0]), oks[1..])
  }

  /** The outcome of each send: whether the command's id is in `sent`. */
  function Outcomes(s: seq<QueuedCommand>, sent: set<string>): (r: seq<bool>)
    ensures |r| == |s|
    ensures forall i :: 0 <= i < |s| ==> r[i] == (s[i].id in sent)
  {
    seq(|s|, i requires 0 <= i < |s| => s[i].id in sent)
  }

  /** The steps of a running flush, one per outstanding send, apply the
      loop body to the snapshot's commands in order. */
  lemma {:induction false} SettleAllIsLoop(queue: seq<QueuedCommand>, todo: seq<QueuedCommand>, sent: set<string>)
    ensures SettleAll(Queue(queue, |todo| > 0, todo), Outcomes(todo, sent)) == Queue(FlushLoop(todo, queue, sent), false, [])
    decreases |todo|
  {
    if |todo| > 0 {
      var oks := Outcomes(todo, sent);
      var next := LoopBody(queue, todo[0], oks[0]);
      assert Settle(Queue(queue, true, todo), oks[0]) == Queue(next, |todo[1..]| > 0, todo[1..]);
      assert oks[1..] == Outcomes(todo[1..], sent);
      SettleAllIsLoop(next, todo[1..], sent);
      assert FlushLoop(todo, queue, sent) == FlushLoop(todo[1..], next, sent);
    }
  }

  /** A flush that no other operation interrupts is the one-step `Flush`. */
  lemma FlushIsSteps(q: Queue, sent: set<string>)
    requires Valid(q) && !q.flushing && |q.items| > 0
    ensures SettleAll(StartFlush(q), Outcomes(q.items, sent)) == Flush(q, sent)
  {
    SettleAllIsLoop(q.items, q.items, sent);
  }

  /** A second `flush` while one is running returns at once, whatever has
      happened to the queue since the first one started. */
  lemma FlushDuringFlush(q: Queue, command: CommandRequest, id: string, now: int)
    requires Valid(q) && !q.flushing && |q.items| > 0
    ensures var started := StartFlush(q);
      && StartFlush(started) == started
      && StartFlush(Clear(started)) == Clear(started)
      && StartFlush(Enqueue(started, command, id, now).0) == Enqueue(started, command, id, now).0
  {
  }

  /** A `clear` while a flush runs empties the queue for good: the
      outstanding sends still go out, none of them re-queues its command,
      and the flag drops after the last. */
  lemma {:induction false} ClearDuringFlush(q: Queue, oks: seq<bool>)
    requires Valid(q) && |oks| >= |q.todo|
    ensures SettleAll(Clear(q), oks).items == []
    ensures !SettleAll(Clear(q), oks).flushing
    decreases |oks|
  {
    if |oks| > 0 {
      var next := Settle(Clear(q), oks[0]);
      if |q.todo| > 0 {
        RemoveIdAbsent([], q.todo[0].id);
      }
      assert next == Clear(next);
      ClearDuringFlush(next, oks[1..]);
    }
  }

  /** Reference definition of one flush: a command stays only if its send
      failed and it has retries left, and then with one more retry. */
  function Survivors(s: seq<QueuedCommand>, sent: set<string>): seq<QueuedCommand>
    decreases |s|
  {
    if |s| == 0 then []
    else
      var c := s[0];
      (if c.id !in sent && c.retries + 1 < MaxRetries then [c.(retries := c.retries + 1)] else [])
        + Survivors(s[1..], sent)
  }

  lemma RemoveIdAbsent(q: seq<QueuedCommand>, id: string)
    requires !HasId(q, id)
    ensures RemoveId(q, id) == q
  {
    FilterAll(NotId(id), q);
  }

  /** In a queue with unique ids, `c`'s id occurs nowhere else. */
  lemma IdOnlyOnce(a: seq<QueuedCommand>, c: QueuedCommand, b: seq<QueuedCommand>)
    requires UniqueIds(a + [c] + b)
    ensures !HasId(a, c.id) && !HasId(b, c.id)
  {
    var all := a + [c] + b;
    assert all[|a|] == c;
    assert forall i :: 0 <= i < |a| ==> all[i] == a[i];
    assert forall i :: 0 <= i < |b| ==> all[|a| + 1 + i] == b[i];
  }

  lemma RemoveStep(a: seq<QueuedCommand>, c: QueuedCommand, b: seq<QueuedCommand>)
    requires !HasId(a, c.id) && !HasId(b, c.id)
    ensures RemoveId(a + [c] + b, c.id) == a + b
  {
    assert a + [c] + b == a + ([c] + b);
    FilterAppend(NotId(c.id), a, [c] + b);
    FilterAppend(NotId(c.id), [c], b);
    RemoveIdAbsent(a, c.id);
    RemoveIdAbsent(b, c.id);
  }

  lemma SetRetriesStep(a: seq<QueuedCommand>, c: QueuedCommand, b: seq<QueuedCommand>, n: nat)
    requires !HasId(a, c.id) && !HasId(b, c.id)
    ensures SetRetries(a + [c] + b, c.id, n) == a + [c.(retries := n)] + b
  {
    var all := a + [c] + b;
    var r := SetRetries(all, c.id, n);
    var want := a + [c.(retries := n)] + b;
    forall i | 0 <= i < |all| ensures r[i] == want[i] {
      if i < |a| {
        assert all[i] == a[i] && want[i] == a[i];
        assert a[i].id != c.id;
      } else if i > |a| {
        assert all[i] == b[i - |a| - 1] && want[i] == b[i - |a| - 1];
        assert b[i - |a| - 1].id != c.id;
      }
    }
  }

  lemma UniqueIdsPreserved(done: seq<QueuedCommand>, c: QueuedCommand, rest: seq<QueuedCommand>, extra: seq<QueuedCommand>,
                           n: nat)
    requires UniqueIds(done + [c] + rest + extra)
    ensures UniqueIds(done + rest + extra)
    ensures UniqueIds(done + [c.(retries := n)] + rest + extra)
  {
    var all := done + [c] + rest + extra;
    var dropped := done + rest + extra;
    forall i, j | 0 <= i < j < |dropped| ensures dropped[i].id != dropped[j].id {
      var i' := if i < |done| then i else i + 1;
      var j' := if j < |done| then j else j + 1;
      assert dropped[i] == all[i'] && dropped[j] == all[j'];
    }
    var bumped := done + [c.(retries := n)] + rest + extra;
    forall i, j | 0 <= i < j < |bumped| ensures bumped[i].id != bumped[j].id {
      assert bumped[i].id == all[i].id && bumped[j].id == all[j].id;
    }
  }

  /** The loop over the snapshot `todo`, on a queue that also holds the
      commands already handled (`done`) and commands added since the
      snapshot (`extra`): only the snapshot's commands are touched. */
  lemma {:induction false} FlushLoopSpec(done: seq<QueuedCommand>, todo: seq<QueuedCommand>, extra: seq<QueuedCommand>,
                                         sent: set<string>)
    requires UniqueIds(done + todo + extra)
    ensures FlushLoop(todo, done + todo + extra, sent) == done + Survivors(todo, sent) + extra
    decreases |todo|
  {
    if |todo| == 0 {
      assert done + todo + extra == done + [] + extra;
    } else {
      var c := todo[0];
      var rest := todo[1..];
      assert done + todo + extra == done + [c] + (rest + extra);
      assert done + [c] + rest + extra == done + [c] + (rest + extra);
      IdOnlyOnce(done, c, rest + extra);
      if c.id in sent || c.retries + 1 >= MaxRetries {
        RemoveStep(done, c, rest + extra);
        assert done + (rest + extra) == done + rest + extra;
        UniqueIdsPreserved(done, c, rest, extra, c.retries);
        FlushLoopSpec(done, rest, extra, sent);
        assert Survivors(todo, sent) == Survivors(rest, sent);
      } else {
        var c' := c.(retries := c.retries + 1);
        SetRetriesStep(done, c, rest + extra, c.retries + 1);
        assert done + [c'] + (rest + extra) == done + [c'] + rest + extra;
        UniqueIdsPreserved(done, c, rest, extra, c.retries + 1);
        assert done + [c'] + rest + extra == (done + [c']) + rest + extra;
        FlushLoopSpec(done + [c'], rest, extra, sent);
        assert Survivors(todo, sent) == [c'] + Survivors(rest, sent);
        AppendAssoc(done, [c'], Survivors(rest, sent));
      }
    }
  }

  /** A flush sends each queued command once: what remains is exactly the
      reference survivors, in order. */
  lemma FlushMatchesSurvivors(q: Queue, sent: set<string>)
    requires UniqueIds(q.items) && !q.flushing
    ensures Flush(q, sent).items == Survivors(q.items, sent)
  {
    if |q.items| > 0 {
      var none: seq<QueuedCommand> := [];
      assert none + q.items + none == q.items;
      assert UniqueIds(none + q.items + none);
      FlushLoopSpec(none, q.items, none, sent);
      assert FlushLoop(q.items, q.items, sent) == none + Survivors(q.items, sent) + none;
      assert none + Survivors(q.items, sent) + none == Survivors(q.items, sent);
    }
  }

  /** Commands enqueued after the snapshot was taken are not attempted and
      stay queued, behind the survivors. */
  lemma EnqueuedDuringFlushUntouched(snapshot: seq<QueuedCommand>, extra: seq<QueuedCommand>, sent: set<string>)
    requires UniqueIds(snapshot + extra)
    ensures FlushLoop(snapshot, snapshot + extra, sent) == Survivors(snapshot, sent) + extra
  {
    var none: seq<QueuedCommand> := [];
    calc {
      FlushLoop(snapshot, snapshot + extra, sent);
      { assert none + snapshot + extra == snapshot + extra; }
      FlushLoop(snapshot, none + snapshot + extra, sent);
      { assert UniqueIds(none + snapshot + extra) by { assert none + snapshot + extra == snapshot + extra; }
        FlushLoopSpec(none, snapshot, extra, sent); }
      none + Survivors(snapshot, sent) + extra;
      { assert none + Survivors(snapshot, sent) == Survivors(snapshot, sent); }
      Survivors(snapshot, sent) + extra;
    }
  }

  lemma {:induction false} SurvivorsRetriesLeft(s: seq<QueuedCommand>, sent: set<string>)
    ensures RetriesLeft(Survivors(s, sent))
    ensures forall c :: c in Survivors(s, sent) ==> c.id !in sent
    decreases |s|
  {
    if |s| > 0 {
      SurvivorsRetriesLeft(s[1..], sent);
    }
  }

  /** After a flush no command has used up its retries and none that was
      sent is still queued. */
  lemma FlushKeepsRetriesLeft(q: Queue, sent: set<string>)
    requires UniqueIds(q.items) && RetriesLeft(q.items)
    ensures RetriesLeft(Flush(q, sent).items)
    ensures !q.flushing ==> forall c :: c in Flush(q, sent).items ==> c.id !in sent
  {
    if !q.flushing {
      FlushMatchesSurvivors(q, sent);
      SurvivorsRetriesLeft(q.items, sent);
    }
  }

  /** `clear`: a running flush keeps its flag and its outstanding sends. */
  function Clear(q: Queue): (r: Queue)
    ensures r.items == [] && r.flushing == q.flushing && r.todo == q.todo
  {
    q.(items := [])
  }

  /** `getQueueSize`. */
  function QueueSize(q: Queue): (n: nat)
    ensures n == |q.items|
    ensures n == 0 <==> q.items == []
  {
    |q.items|
  }

  /** `getPendingCommands`: a copy with the same contents. */
  function PendingCommands(q: Queue): (r: seq<QueuedCommand>)
    ensures r == q.items
  {
    q.items[..]
  }
}
