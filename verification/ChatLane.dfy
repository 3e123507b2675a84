/**
 The messages of one web conversation: a queue, and a consumer task that is started on demand and
 leaves after an idle timeout. Everything between two awaits is one step.
 */
module ChatLane {
  import opened Prelude

  type Message = string

  /**
   Where the consumer is: spawned, waiting for a message, in the handler, or told by the timer
   to stop waiting but not yet gone.
   */
  datatype Phase = Scheduled | Waiting | Handling(current: Message) | Expiring

  datatype Fate = Finished | Lost
  datatype Settled = Settled(message: Message, fate: Fate)

  /** `history` and `settled` only record what happened; no phase means no consumer. */
  datatype Lane = Lane(queue: seq<Message>, phase: Option<Phase>, history: seq<Message>, settled: seq<Settled>)

  const NewLane := Lane([], None, [], [])

  datatype Step =
    | Enqueue(message: Message, closed: bool)
    | Begin
    | Resume
    | Finish
    | Expire
    | Exit

  predicate Enabled(l: Lane, s: Step) {
    match s
    case Enqueue(_, _) => true
    case Begin => l.phase == Some(Scheduled)
    case Resume => l.phase == Some(Waiting) && l.queue != []
    case Finish => l.phase.Some? && l.phase.value.Handling?
    case Expire => l.phase == Some(Waiting)
    case Exit => l.phase == Some(Expiring)
  }

  /** The consumer takes the next message, or starts waiting for one. */
  function Next(l: Lane): Lane {
    if l.queue == [] then l.(phase := Some(Waiting))
    else l.(phase := Some(Handling(l.queue[0])), queue := l.queue[1..])
  }

  function AllLost(queue: seq<Message>): seq<Settled> {
    seq(|queue|, i requires 0 <= i < |queue| => Settled(queue[i], Lost))
  }

  function Do(l: Lane, s: Step): Lane
    requires Enabled(l, s)
  {
    match s
    case Enqueue(m, closed) =>
      l.(queue := l.queue + [m], history := l.history + [m],
         phase := if l.phase.None? && !closed then Some(Scheduled) else l.phase)
    case Begin => Next(l)
    case Resume => Next(l)
    case Finish => Next(l.(settled := l.settled + [Settled(l.phase.value.current, Finished)]))
    case Expire => l.(phase := Some(Expiring))
    case Exit => l.(phase := None, queue := [], settled := l.settled + AllLost(l.queue))
  }

  function Running(l: Lane): seq<Message> {
    if l.phase.Some? && l.phase.value.Handling? then [l.phase.value.current] else []
  }

  /** `queue_position`, and what `enqueue` returns. */
  function Position(l: Lane): nat {
    |l.queue| + |Running(l)|
  }

  function Messages(s: seq<Settled>): seq<Message> {
    seq(|s|, i requires 0 <= i < |s| => s[i].message)
  }

  /** Messages leave in the order they came; none is duplicated or forgotten. */
  ghost predicate Conserved(l: Lane) {
    && l.history == Messages(l.settled) + Running(l) + l.queue
    && (l.phase == Some(Scheduled) ==> l.queue != [])
  }

  lemma NextConserves(l: Lane)
    requires l.history == Messages(l.settled) + l.queue
    ensures Conserved(Next(l))
  {
    if l.queue != [] {
      assert l.queue == [l.queue[0]] + l.queue[1..];
    }
  }

  lemma StepConserves(l: Lane, s: Step)
    requires Conserved(l) && Enabled(l, s)
    ensures Conserved(Do(l, s))
  {
    match s
    case Enqueue(m, closed) =>
      assert l.history + [m] == Messages(l.settled) + Running(l) + (l.queue + [m]);
    case Begin => NextConserves(l);
    case Resume => NextConserves(l);
    case Finish =>
      var l' := l.(settled := l.settled + [Settled(l.phase.value.current, Finished)]);
      assert Messages(l'.settled) == Messages(l.settled) + Running(l);
      NextConserves(l');
    case Expire =>
    case Exit =>
      assert Messages(l.settled + AllLost(l.queue)) == Messages(l.settled) + l.queue;
  }

  // ---- Runs ----

  ghost predicate Possible(steps: seq<Step>, n: nat)
    requires n <= |steps|
    decreases n, 0
  {
    n == 0 || (Possible(steps, n - 1) && Enabled(After(steps, n - 1), steps[n-1]))
  }

  ghost function After(steps: seq<Step>, n: nat): Lane
    requires n <= |steps| && Possible(steps, n)
    decreases n, 1
  {
    if n == 0 then NewLane else Do(After(steps, n - 1), steps[n-1])
  }

  lemma {:induction false} RunConserves(steps: seq<Step>, n: nat)
    requires n <= |steps| && Possible(steps, n)
    ensures Conserved(After(steps, n))
  {
    if n > 0 {
      RunConserves(steps, n - 1);
      StepConserves(After(steps, n - 1), steps[n-1]);
    }
  }

  /** The position a sender is told is the number of earlier messages that have not settled. */
  lemma PositionIsExact(steps: seq<Step>, n: nat)
    requires n <= |steps| && Possible(steps, n)
    ensures var l := After(steps, n); Position(l) == |l.history| - |l.settled|
  {
    RunConserves(steps, n);
  }

  ghost predicate NoneLost(l: Lane) {
    forall i | 0 <= i < |l.settled| :: l.settled[i].fate == Finished
  }

  /** Step `i` is an exit that finds its queue empty, or no exit. */
  ghost predicate CleanExit(steps: seq<Step>, i: nat)
    requires i < |steps| && Possible(steps, i)
  {
    steps[i] == Exit ==> After(steps, i).queue == []
  }

  lemma {:induction false} PossiblePrefix(steps: seq<Step>, n: nat, k: nat)
    requires k <= n <= |steps| && Possible(steps, n)
    ensures Possible(steps, k)
  {
    if k < n {
      PossiblePrefix(steps, n - 1, k);
    }
  }

  lemma ExitLoses(l: Lane, s: Step)
    requires Enabled(l, s)
    ensures NoneLost(Do(l, s)) <==> NoneLost(l) && (s == Exit ==> l.queue == [])
  {
    var l' := Do(l, s);
    assert |l.settled| <= |l'.settled| && forall i | 0 <= i < |l.settled| :: l'.settled[i] == l.settled[i];
    if s == Exit && l.queue != [] {
      assert l'.settled[|l.settled|] == AllLost(l.queue)[0];
    }
  }

  /** Messages are lost exactly when the consumer leaves while something is queued. */
  lemma {:induction false} LossNeedsDirtyExit(steps: seq<Step>, n: nat)
    requires n <= |steps| && Possible(steps, n)
    ensures NoneLost(After(steps, n)) <==> forall i: nat | i < n :: Possible(steps, i) && CleanExit(steps, i)
  {
    if n > 0 {
      LossNeedsDirtyExit(steps, n - 1);
      ExitLoses(After(steps, n - 1), steps[n-1]);
      if NoneLost(After(steps, n)) {
        forall i: nat | i < n
          ensures Possible(steps, i) && CleanExit(steps, i)
        {
          PossiblePrefix(steps, n, i);
        }
      } else {
        assert NoneLost(After(steps, n - 1)) ==> !CleanExit(steps, n - 1);
      }
    }
  }

  /** With clean exits only, the finished messages are an initial piece of the history, in order. */
  lemma SerialOrder(steps: seq<Step>, n: nat)
    requires n <= |steps| && Possible(steps, n)
    requires forall i: nat | i < n :: Possible(steps, i) && CleanExit(steps, i)
    ensures var l := After(steps, n);
            NoneLost(l) && l.history == Messages(l.settled) + Running(l) + l.queue
  {
    RunConserves(steps, n);
    LossNeedsDirtyExit(steps, n);
  }

  /** A message that arrives between the timer and the consumer's last step is lost. */
  lemma LateMessageIsLost(m: Message, late: Message)
    ensures var steps := [Enqueue(m, false), Begin, Finish, Expire, Enqueue(late, false), Exit];
            Possible(steps, 6) && After(steps, 6).settled == [Settled(m, Finished), Settled(late, Lost)]
            && After(steps, 6).phase == None
  {
    var steps := [Enqueue(m, false), Begin, Finish, Expire, Enqueue(late, false), Exit];
    assert Possible(steps, 0);
    assert Possible(steps, 1) && After(steps, 1) == Lane([m], Some(Scheduled), [m], []);
    assert Possible(steps, 2) && After(steps, 2) == Lane([], Some(Handling(m)), [m], []);
    assert Possible(steps, 3) && After(steps, 3) == Lane([], Some(Waiting), [m], [Settled(m, Finished)]);
    assert Possible(steps, 4) && After(steps, 4) == Lane([], Some(Expiring), [m], [Settled(m, Finished)]);
    assert Possible(steps, 5) && After(steps, 5) == Lane([late], Some(Expiring), [m, late], [Settled(m, Finished)]);
    assert Possible(steps, 6);
    assert AllLost([late]) == [Settled(late, Lost)];
  }

  /** Some message was accepted after the task manager had closed and no consumer was there. */
  ghost predicate Refused(steps: seq<Step>, n: nat)
    requires n <= |steps| && Possible(steps, n)
  {
    exists i: nat | i < n :: Possible(steps, i) && steps[i].Enqueue? && steps[i].closed && After(steps, i).phase.None?
  }

  /** A queued message always has a consumer, unless the enqueue that left it there failed. */
  lemma QueuedHasConsumer(steps: seq<Step>, n: nat)
    requires n <= |steps| && Possible(steps, n)
    ensures var l := After(steps, n); l.queue != [] && l.phase.None? ==> Refused(steps, n)
  {
    if n > 0 && After(steps, n).queue != [] && After(steps, n).phase.None? {
      var before := After(steps, n - 1);
      assert steps[n-1].Enqueue? && steps[n-1].closed && before.phase.None?;
    }
  }
}
