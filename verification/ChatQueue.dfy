/** The task registry and the web session queue that uses it, with their dictionaries. */
module ChatQueue {
  import opened Prelude
  import opened ChatLane

  const PRUNE_AGE := 300

  datatype Handle = Handle(owner: string, consumer: bool, running: bool, createdAt: int)

  /** What `_maybe_prune` keeps: a running task always. */
  function Pruned(tasks: map<nat, Handle>, now: int): map<nat, Handle> {
    map id | id in tasks && (tasks[id].running || tasks[id].createdAt >= now - PRUNE_AGE) :: tasks[id]
  }

  class TaskManager {
    var tasks: map<nat, Handle>
    var nextId: nat
    var closed: bool

    /** Ids are handed out once. */
    ghost predicate Valid()
      reads this
    {
      forall id | id in tasks :: id < nextId
    }

    constructor ()
      ensures Valid() && tasks == map[] && !closed
    {
      tasks, nextId, closed := map[], 0, false;
    }

    /** `spawn`; `None` is the error raised once the manager is closed. */
    method Spawn(owner: string, consumer: bool, now: int) returns (r: Option<nat>)
      requires Valid()
      modifies this
      ensures Valid() && closed == old(closed)
      ensures r == if closed then None else Some(old(nextId))
      ensures r.None? ==> tasks == Pruned(old(tasks), now) && nextId == old(nextId)
      ensures r.Some? ==> r.value !in old(tasks) && nextId == old(nextId) + 1
                          && tasks == Pruned(old(tasks), now)[r.value := Handle(owner, consumer, true, now)]
    {
      tasks := Pruned(tasks, now);
      if closed {
        return None;
      }
      r := Some(nextId);
      tasks := tasks[nextId := Handle(owner, consumer, true, now)];
      nextId := nextId + 1;
    }

    /** Whether `get_state` answers "running". */
    predicate IsRunning(id: nat)
      reads this
    {
      id in tasks && tasks[id].running
    }

    /** A coroutine returns. */
    method Done(id: nat)
      requires Valid() && id in tasks
      modifies this
      ensures Valid() && closed == old(closed) && nextId == old(nextId)
      ensures tasks == old(tasks)[id := old(tasks)[id].(running := false)]
    {
      tasks := tasks[id := tasks[id].(running := false)];
    }
  }

  lemma PruneKeepsRunning(tasks: map<nat, Handle>, now: int, id: nat)
    requires id in tasks && tasks[id].running
    ensures id in Pruned(tasks, now) && Pruned(tasks, now)[id] == tasks[id]
  {
  }

  // ---- The dictionaries of the session queue, as a value ----

  datatype Books = Books(
    queues: map<string, seq<Message>>, consumers: map<string, nat>, busy: map<string, bool>,
    coroutines: map<nat, Phase>, tasks: map<nat, Handle>, nextId: nat)

  predicate Live(b: Books, id: nat) {
    id in b.tasks && b.tasks[id].running
  }

  /** The consumer of `c` is a live consumer task of that conversation. */
  predicate Registered(b: Books, c: string) {
    c in b.consumers ==>
      && c in b.queues
      && Live(b, b.consumers[c])
      && b.tasks[b.consumers[c]].owner == c && b.tasks[b.consumers[c]].consumer
      && b.consumers[c] in b.coroutines
  }

  /** A live consumer task is the registered one of its conversation. */
  predicate OneConsumer(b: Books, id: nat) {
    Live(b, id) && b.tasks[id].consumer ==>
      b.tasks[id].owner in b.consumers && b.consumers[b.tasks[id].owner] == id
  }

  predicate BusyIsHandling(b: Books, c: string) {
    (c in b.busy && b.busy[c]) <==> (c in b.consumers && b.consumers[c] in b.coroutines && b.coroutines[b.consumers[c]].Handling?)
  }

  ghost predicate Sound(b: Books) {
    && (forall c :: Registered(b, c))
    && (forall id :: OneConsumer(b, id))
    && (forall c :: BusyIsHandling(b, c))
    && (forall id | id in b.coroutines :: id < b.nextId)
    && (forall id | id in b.tasks :: id < b.nextId)
  }

  function QueueOf(b: Books, c: string): seq<Message> {
    if c in b.queues then b.queues[c] else []
  }

  function PhaseOf(b: Books, c: string): Option<Phase> {
    if c in b.consumers && b.consumers[c] in b.coroutines then Some(b.coroutines[b.consumers[c]]) else None
  }

  function Entry<T>(ledger: map<string, seq<T>>, c: string): seq<T> {
    if c in ledger then ledger[c] else []
  }

  function LaneAt(b: Books, history: map<string, seq<Message>>, settled: map<string, seq<Settled>>, c: string): Lane {
    Lane(QueueOf(b, c), PhaseOf(b, c), Entry(history, c), Entry(settled, c))
  }

  function WithMessage(b: Books, c: string, m: Message): Books {
    b.(queues := b.queues[c := QueueOf(b, c) + [m]])
  }

  function Logged<T>(ledger: map<string, seq<T>>, c: string, more: seq<T>): map<string, seq<T>> {
    ledger[c := Entry(ledger, c) + more]
  }

  lemma PutLane(b: Books, history: map<string, seq<Message>>, settled: map<string, seq<Settled>>, c: string, m: Message, d: string)
    ensures LaneAt(WithMessage(b, c, m), Logged(history, c, [m]), settled, d)
         == if d == c then Do(LaneAt(b, history, settled, c), Step.Enqueue(m, true)) else LaneAt(b, history, settled, d)
  {
  }

  /** At most one consumer of a conversation is ever alive, so its handlers cannot overlap. */
  lemma ConsumersAreUnique(b: Books, i: nat, j: nat)
    requires Sound(b)
    requires Live(b, i) && Live(b, j) && b.tasks[i].consumer && b.tasks[j].consumer
    requires b.tasks[i].owner == b.tasks[j].owner
    ensures i == j
  {
    assert OneConsumer(b, i) && OneConsumer(b, j);
  }

  lemma QueueChangeKeeps(b: Books, c: string, queue: seq<Message>)
    requires Sound(b)
    ensures Sound(b.(queues := b.queues[c := queue]))
  {
    var b' := b.(queues := b.queues[c := queue]);
    assert forall d :: Registered(b, d) ==> Registered(b', d);
    assert forall id :: OneConsumer(b, id) ==> OneConsumer(b', id);
    assert forall d :: BusyIsHandling(b, d) ==> BusyIsHandling(b', d);
  }

  lemma PruneKeeps(b: Books, now: int)
    requires Sound(b)
    ensures Sound(b.(tasks := Pruned(b.tasks, now)))
  {
    var b' := b.(tasks := Pruned(b.tasks, now));
    assert forall d :: Registered(b, d) ==> Registered(b', d);
    assert forall id :: OneConsumer(b, id) ==> OneConsumer(b', id);
    assert forall d :: BusyIsHandling(b, d) ==> BusyIsHandling(b', d);
  }

  /** A task of another kind leaves the books in order. */
  lemma OtherTaskKeeps(b: Books, owner: string, now: int)
    requires Sound(b)
    ensures Sound(b.(tasks := b.tasks[b.nextId := Handle(owner, false, true, now)], nextId := b.nextId + 1))
  {
    var b' := b.(tasks := b.tasks[b.nextId := Handle(owner, false, true, now)], nextId := b.nextId + 1);
    assert forall d :: Registered(b, d) ==> Registered(b', d);
    assert forall id :: OneConsumer(b, id) ==> OneConsumer(b', id);
    assert forall d :: BusyIsHandling(b, d) ==> BusyIsHandling(b', d);
  }

  function Spawned(b: Books, c: string, now: int): Books {
    b.(tasks := b.tasks[b.nextId := Handle(c, true, true, now)], nextId := b.nextId + 1,
       consumers := b.consumers[c := b.nextId], coroutines := b.coroutines[b.nextId := Scheduled])
  }

  lemma SpawnKeeps(b: Books, c: string, now: int)
    requires Sound(b) && c in b.queues && c !in b.consumers
    ensures Sound(Spawned(b, c, now))
  {
    var b' := Spawned(b, c, now);
    forall d
      ensures Registered(b', d) && BusyIsHandling(b', d)
    {
      assert Registered(b, d) && BusyIsHandling(b, d);
    }
    forall id
      ensures OneConsumer(b', id)
    {
      assert OneConsumer(b, id);
    }
  }

  /** The consumer of `c` moves to another place in its loop. */
  function Moved(b: Books, c: string, phase: Phase, queue: seq<Message>): Books
    requires c in b.consumers
  {
    b.(queues := b.queues[c := queue], coroutines := b.coroutines[b.consumers[c] := phase], busy := b.busy[c := phase.Handling?])
  }

  lemma MoveKeeps(b: Books, c: string, phase: Phase, queue: seq<Message>)
    requires Sound(b) && c in b.consumers
    ensures Sound(Moved(b, c, phase, queue))
    ensures forall d | d != c :: PhaseOf(Moved(b, c, phase, queue), d) == PhaseOf(b, d)
  {
    var b' := Moved(b, c, phase, queue);
    assert Registered(b, c);
    forall d
      ensures Registered(b', d) && BusyIsHandling(b', d) && (d != c ==> PhaseOf(b', d) == PhaseOf(b, d))
    {
      assert Registered(b, d) && BusyIsHandling(b, d);
    }
    forall id
      ensures OneConsumer(b', id)
    {
      assert OneConsumer(b, id);
    }
  }

  lemma ExpireKeeps(b: Books, c: string)
    requires Sound(b) && PhaseOf(b, c) == Some(Waiting)
    ensures var b' := b.(coroutines := b.coroutines[b.consumers[c] := Expiring]);
            Sound(b') && forall d | d != c :: PhaseOf(b', d) == PhaseOf(b, d)
  {
    var b' := b.(coroutines := b.coroutines[b.consumers[c] := Expiring]);
    assert Registered(b, c);
    forall d
      ensures Registered(b', d) && BusyIsHandling(b', d) && (d != c ==> PhaseOf(b', d) == PhaseOf(b, d))
    {
      assert Registered(b, d) && BusyIsHandling(b, d);
    }
    forall id
      ensures OneConsumer(b', id)
    {
      assert OneConsumer(b, id);
    }
  }

  lemma StartLane(b: Books, c: string, now: int, d: string)
    requires Sound(b)
    ensures QueueOf(Spawned(b, c, now), d) == QueueOf(b, d)
    ensures PhaseOf(Spawned(b, c, now), d) == if d == c then Some(Scheduled) else PhaseOf(b, d)
  {
    assert Registered(b, d);
  }

  /** The consumer of `c` leaves and its entries are dropped. */
  function Left(b: Books, c: string): Books
    requires c in b.consumers && b.consumers[c] in b.tasks
  {
    var id := b.consumers[c];
    b.(queues := b.queues - {c}, consumers := b.consumers - {c}, busy := b.busy - {c},
       coroutines := b.coroutines - {id}, tasks := b.tasks[id := b.tasks[id].(running := false)])
  }

  lemma LeaveKeeps(b: Books, c: string)
    requires Sound(b) && c in b.consumers && b.consumers[c] in b.tasks
    ensures Sound(Left(b, c))
    ensures forall d | d != c :: PhaseOf(Left(b, c), d) == PhaseOf(b, d)
  {
    var b' := Left(b, c);
    assert Registered(b, c);
    forall d
      ensures Registered(b', d) && BusyIsHandling(b', d) && (d != c ==> PhaseOf(b', d) == PhaseOf(b, d))
    {
      assert Registered(b, d) && BusyIsHandling(b, d);
    }
    forall id
      ensures OneConsumer(b', id)
    {
      assert OneConsumer(b, id);
    }
  }

  class SessionQueue {
    const manager: TaskManager
    var queues: map<string, seq<Message>>
    var consumers: map<string, nat>
    var busy: map<string, bool>
    /** Where each live consumer coroutine stands. */
    var coroutines: map<nat, Phase>
    ghost var history: map<string, seq<Message>>
    ghost var settled: map<string, seq<Settled>>

    ghost function View(): Books
      reads this, manager
    {
      Books(queues, consumers, busy, coroutines, manager.tasks, manager.nextId)
    }

    ghost predicate Valid()
      reads this, manager
    {
      Sound(View())
    }

    /** The state of one conversation. */
    ghost function LaneOf(c: string): Lane
      reads this, manager
    {
      LaneAt(View(), history, settled, c)
    }

    constructor (manager: TaskManager)
      requires manager.Valid() && manager.tasks == map[]
      ensures Valid() && this.manager == manager && forall c :: LaneOf(c) == NewLane
    {
      this.manager := manager;
      queues, consumers, busy, coroutines := map[], map[], map[], map[];
      history, settled := map[], map[];
    }

    /** `queue_position`. */
    method QueuePosition(c: string) returns (position: nat)
      requires Valid()
      ensures position == Position(LaneOf(c))
    {
      assert Registered(View(), c) && BusyIsHandling(View(), c);
      position := (if c in queues then |queues[c]| else 0) + if c in busy && busy[c] then 1 else 0;
    }

    /** `put`, into a queue made when there is none. */
    method Put(c: string, m: Message)
      requires Valid()
      modifies this`queues, this`history
      ensures Valid() && c in queues
      ensures LaneOf(c) == Do(old(LaneOf(c)), Step.Enqueue(m, true))
      ensures forall d | d != c :: LaneOf(d) == old(LaneOf(d))
    {
      ghost var b := View();
      if c !in queues {
        queues := queues[c := []];
      }
      queues := queues[c := queues[c] + [m]];
      history := Logged(history, c, [m]);
      QueueChangeKeeps(b, c, queues[c]);
      assert View() == WithMessage(b, c, m);
      forall d
        ensures LaneOf(d) == if d == c then Do(old(LaneOf(c)), Step.Enqueue(m, true)) else old(LaneOf(d))
      {
        PutLane(b, old(history), settled, c, m, d);
      }
    }

    /** Start a consumer for a conversation that has none. */
    method Start(c: string, now: int) returns (raised: bool)
      requires Valid() && c in queues && c !in consumers
      modifies this`consumers, this`coroutines, manager
      ensures Valid() && manager.closed == old(manager.closed) && raised == manager.closed
      ensures LaneOf(c) == old(LaneOf(c)).(phase := if raised then None else Some(Scheduled))
      ensures forall d | d != c :: LaneOf(d) == old(LaneOf(d))
    {
      ghost var b := View().(tasks := Pruned(manager.tasks, now));
      PruneKeeps(View(), now);
      SpawnKeeps(b, c, now);
      var r := manager.Spawn(c, true, now);
      raised := r.None?;
      if r.Some? {
        consumers := consumers[c := r.value];
        coroutines := coroutines[r.value := Scheduled];
        assert View() == Spawned(b, c, now);
        forall d
          ensures PhaseOf(View(), d) == if d == c then Some(Scheduled) else old(PhaseOf(View(), d))
        {
          StartLane(b, c, now, d);
        }
      }
    }

    /** `enqueue`. A closed manager refuses to start a consumer after the message was queued. */
    method Enqueue(c: string, m: Message, now: int) returns (position: nat, raised: bool)
      requires Valid()
      modifies this, manager
      ensures Valid() && manager.closed == old(manager.closed)
      ensures position == Position(old(LaneOf(c)))
      ensures LaneOf(c) == Do(old(LaneOf(c)), Step.Enqueue(m, manager.closed))
      ensures forall d | d != c :: LaneOf(d) == old(LaneOf(d))
      ensures raised == (old(LaneOf(c)).phase.None? && manager.closed)
    {
      position := QueuePosition(c);
      Put(c, m);
      assert Registered(View(), c);
      raised := false;
      if !(c in consumers && manager.IsRunning(consumers[c])) {
        raised := Start(c, now);
      }
    }

    /** The consumer takes the next message at once, or starts to wait. */
    method TakeNext(c: string)
      requires Valid() && c in consumers && manager.IsRunning(consumers[c])
      modifies this
      ensures Valid()
      ensures LaneOf(c) == Next(old(LaneOf(c)))
      ensures forall d | d != c :: LaneOf(d) == old(LaneOf(d))
    {
      ghost var b := View();
      assert Registered(b, c);
      var id, queue := consumers[c], queues[c];
      if queue == [] {
        MoveKeeps(b, c, Waiting, []);
        coroutines := coroutines[id := Waiting];
        busy := busy[c := false];
        assert queues == queues[c := []];
      } else {
        MoveKeeps(b, c, Handling(queue[0]), queue[1..]);
        coroutines := coroutines[id := Handling(queue[0])];
        busy := busy[c := true];
        queues := queues[c := queue[1..]];
      }
    }

    /** The consumer starts, or is woken by a message. */
    method Take(c: string)
      requires Valid() && LaneOf(c).phase in {Some(Scheduled), Some(Waiting)}
      requires LaneOf(c).phase == Some(Waiting) ==> LaneOf(c).queue != []
      modifies this
      ensures Valid() && LaneOf(c) == Do(old(LaneOf(c)), if old(LaneOf(c)).phase == Some(Scheduled) then Begin else Resume)
      ensures forall d | d != c :: LaneOf(d) == old(LaneOf(d))
    {
      assert Registered(View(), c);
      TakeNext(c);
    }

    /** The handler returns, or raises an error that is logged. */
    method HandlerDone(c: string)
      requires Valid() && LaneOf(c).phase.Some? && LaneOf(c).phase.value.Handling?
      modifies this
      ensures Valid() && LaneOf(c) == Do(old(LaneOf(c)), Finish)
      ensures forall d | d != c :: LaneOf(d) == old(LaneOf(d))
    {
      assert Registered(View(), c);
      settled := Logged(settled, c, [Settled(coroutines[consumers[c]].current, Finished)]);
      TakeNext(c);
    }

    /** The idle timer fires. */
    method IdleTimeout(c: string)
      requires Valid() && LaneOf(c).phase == Some(Waiting)
      modifies this
      ensures Valid() && LaneOf(c) == Do(old(LaneOf(c)), Expire)
      ensures forall d | d != c :: LaneOf(d) == old(LaneOf(d))
    {
      ghost var b := View();
      assert Registered(b, c) && BusyIsHandling(b, c);
      ExpireKeeps(b, c);
      coroutines := coroutines[consumers[c] := Expiring];
    }

    /** The consumer's last step: it drops its dictionaries' entries, whatever they hold. */
    method Leave(c: string)
      requires Valid() && LaneOf(c).phase == Some(Expiring)
      modifies this, manager
      ensures Valid() && manager.closed == old(manager.closed)
      ensures LaneOf(c) == Do(old(LaneOf(c)), Exit)
      ensures forall d | d != c :: LaneOf(d) == old(LaneOf(d))
    {
      ghost var b := View();
      assert Registered(b, c);
      LeaveKeeps(b, c);
      settled := Logged(settled, c, AllLost(queues[c]));
      var id := consumers[c];
      queues, consumers, busy := queues - {c}, consumers - {c}, busy - {c};
      coroutines := coroutines - {id};
      manager.Done(id);
    }

    /** Somebody else starts a task: consumers keep running whatever is pruned. */
    method OtherTask(owner: string, now: int) returns (raised: bool)
      requires Valid()
      modifies manager
      ensures Valid() && forall c :: LaneOf(c) == old(LaneOf(c))
    {
      PruneKeeps(View(), now);
      OtherTaskKeeps(View().(tasks := Pruned(manager.tasks, now)), owner, now);
      var r := manager.Spawn(owner, false, now);
      raised := r.None?;
    }
  }

  /** A finished task is kept for exactly five minutes from its start, a running one for as long as it runs. */
  lemma PrunedExactly(tasks: map<nat, Handle>, now: int, id: nat)
    ensures id in Pruned(tasks, now) <==> id in tasks && (tasks[id].running || now - tasks[id].createdAt <= 300)
    ensures id in Pruned(tasks, now) ==> Pruned(tasks, now)[id] == tasks[id]
  {
  }
}
