/** What holds of every run of the agent loop, whatever the outside world answers. */
module RunSafety {
  import opened Prelude
  import opened ToolPhase
  import opened ToolLoop
  import opened RunModel

  // ---- One terminal event, and it is the last ----

  predicate Quiet(events: seq<Event>) {
    forall i | 0 <= i < |events| :: !Terminal(events[i])
  }

  predicate EndsWith(events: seq<Event>, code: string) {
    && events != []
    && Quiet(events[..|events|-1])
    && (events[|events|-1] == ErrorEvent(code) || (events[|events|-1].Done? && code == "done"))
  }

  predicate Proper(events: seq<Event>, end: Option<string>) {
    if end.None? then Quiet(events) else EndsWith(events, end.value)
  }

  lemma ProperAfterQuiet(a: seq<Event>, b: seq<Event>, end: Option<string>)
    requires Quiet(a) && Proper(b, end)
    ensures Proper(a + b, end)
  {
    if end.Some? {
      assert (a + b)[..|a + b|-1] == a + b[..|b|-1];
    }
  }

  predicate ProperOutcome(o: Outcome) {
    Proper(o.piece.events, o.end)
  }

  lemma AbandonIsProper(m: Memory, events: seq<Event>, said: seq<Msg>, code: string)
    requires Quiet(events)
    ensures ProperOutcome(Abandon(m, events, said, code))
  {
    assert (events + [ErrorEvent(code)])[..|events|] == events;
  }

  lemma PlainTurnIsProper(c: Config, m: Memory, s: Stream)
    ensures ProperOutcome(PlainTurn(c, m, s))
  {
    var text := Joined(s.texts);
    assert (Chunks(s.texts) + [Done(text)])[..|s.texts|] == Chunks(s.texts);
  }

  lemma PhaseIsQuiet(calls: seq<ToolCall>, w: World)
    ensures Quiet(Phase(calls, w).events)
  {
  }

  lemma ToolTurnIsProper(c: Config, m: Memory, s: Stream, calls: seq<ToolCall>, w: World)
    ensures ProperOutcome(ToolTurn(c, m, s, calls, w))
  {
    PhaseIsQuiet(calls, w);
    assert (Chunks(s.texts) + [ErrorEvent("tool_loop")])[..|s.texts|] == Chunks(s.texts);
  }

  lemma StreamIsProper(c: Config, m: Memory, t: Input)
    ensures ProperOutcome(AfterStream(c, m, t))
  {
    match t.stream.ending
    case Complete(calls) =>
      if calls == [] { PlainTurnIsProper(c, m, t.stream); } else { ToolTurnIsProper(c, m, t.stream, calls, t.world); }
    case StreamTimeout => AbandonIsProper(m, Chunks(t.stream.texts), Partial(t.stream), "timeout");
    case StreamAbort => AbandonIsProper(m, Chunks(t.stream.texts), Partial(t.stream), "aborted");
    case LlmFailure(code, result) =>
      if AfterStream(c, m, t).end.Some? {
        AbandonIsProper(m, Chunks(t.stream.texts), Partial(t.stream), AfterStream(c, m, t).end.value);
      }
  }

  lemma IterationIsProper(c: Config, m: Memory, t: Input)
    ensures ProperOutcome(Iteration(c, m, t))
  {
    StreamIsProper(c, m, t);
  }

  lemma {:induction false} OneTerminalSoFar(step: Step, user: Content, inputs: seq<Input>, n: nat)
    requires n <= |inputs| && forall m, t :: ProperOutcome(step(m, t))
    ensures var p := RunAfter(step, user, inputs, n); Proper(p.piece.events, p.end)
  {
    if n > 0 {
      OneTerminalSoFar(step, user, inputs, n - 1);
      var p := RunAfter(step, user, inputs, n - 1);
      if p.end.None? {
        var o := step(p.memory, inputs[n-1]);
        assert ProperOutcome(o);
        ProperAfterQuiet(p.piece.events, o.piece.events, o.end);
      }
    }
  }

  /** A run emits exactly one terminal event, as its last, and reports the reason it carries. */
  lemma OneTerminalEvent(c: Config, user: Content, inputs: seq<Input>)
    requires Bound(c) <= |inputs|
    ensures var p := WholeRun(c, user, inputs);
            p.end.Some? && EndsWith(p.piece.events, p.end.value)
  {
    forall m, t
      ensures ProperOutcome(StepOf(c)(m, t))
    {
      IterationIsProper(c, m, t);
    }
    OneTerminalSoFar(StepOf(c), user, inputs, Bound(c));
    var p := RunAfter(StepOf(c), user, inputs, Bound(c));
    if p.end.None? {
      ProperAfterQuiet(p.piece.events, [ErrorEvent(OUT_OF_ITERATIONS)], Some(OUT_OF_ITERATIONS));
    }
  }

  // ---- Nudges between two executions ----

  function Positive(x: int): nat {
    if x > 0 then x else 0
  }

  function AllNudges(c: Config): nat {
    Positive(c.planningLimit) + Positive(c.reasoningLimit) + Positive(c.emptyLimit)
  }

  predicate Within(c: Config, r: Retries) {
    && r.planning <= Positive(c.planningLimit)
    && r.reasoning <= Positive(c.reasoningLimit)
    && r.empty <= Positive(c.emptyLimit)
  }

  function Sum(r: Retries): nat {
    r.planning + r.reasoning + r.empty
  }

  predicate Plain(m: Msg) {
    m.AssistantSays? && m.calls == [] && !m.partial
  }

  predicate Executed(m: Msg) {
    m.ToolSays? && m.answer.Output?
  }

  /** The complete replies without tool calls among the first `n` messages, since the last execution. */
  function Since(said: seq<Msg>, n: nat): nat
    requires n <= |said|
  {
    if n == 0 || Executed(said[n-1]) then 0
    else Since(said, n - 1) + if Plain(said[n-1]) then 1 else 0
  }

  lemma {:induction false} SinceConcat(a: seq<Msg>, b: seq<Msg>, n: nat)
    requires n <= |b|
    ensures Since(a + b, |a| + n) ==
            Since(b, n) + if exists i | 0 <= i < n :: Executed(b[i]) then 0 else Since(a, |a|)
  {
    if n > 0 {
      SinceConcat(a, b, n - 1);
      assert (a + b)[|a| + n - 1] == b[n-1];
    } else {
      SincePrefix(a, b, |a|);
    }
  }

  lemma {:induction false} SincePrefix(a: seq<Msg>, b: seq<Msg>, n: nat)
    requires n <= |a|
    ensures Since(a + b, n) == Since(a, n)
  {
    if n > 0 {
      SincePrefix(a, b, n - 1);
    }
  }

  predicate StartsPlain(b: seq<Msg>) {
    b != [] && Plain(b[0])
  }

  predicate SomeExecuted(b: seq<Msg>, n: nat)
    requires n <= |b|
  {
    exists i | 0 <= i < n :: Executed(b[i])
  }

  /** What an iteration does to the message count and to the retry counters. */
  predicate CountsNudges(c: Config, m: Memory, o: Outcome) {
    var b := o.piece.said;
    && (forall i | 1 <= i < |b| :: !Plain(b[i]))
    && (Within(c, m.retries) ==> Within(c, o.memory.retries))
    && (SomeExecuted(b, |b|) ==> o.end.None? && !StartsPlain(b))
    && (o.end.None? ==> Sum(o.memory.retries) == if SomeExecuted(b, |b|) then 0 else Sum(m.retries) + if StartsPlain(b) then 1 else 0)
    && (o.end.Some? && StartsPlain(b) ==> o.end == Some("done") && |b| == 1)
  }

  lemma PlainTurnCounts(c: Config, m: Memory, s: Stream)
    ensures CountsNudges(c, m, PlainTurn(c, m, s))
  {
  }

  lemma {:induction false} PickIsNothing<T>(xs: seq<T>, p: nat -> bool, n: nat)
    requires n <= |xs| && forall i: nat | i < n :: p(i)
    ensures Pick(xs, p, false, n) == []
  {
    if n > 0 {
      PickIsNothing(xs, p, n - 1);
    }
  }

  lemma {:induction false} PickFirst(xs: seq<Answer>, p: nat -> bool, want: bool, n: nat)
    requires n <= |xs| && forall i: nat | i < n :: xs[i].Refusal? == p(i)
    ensures forall k | 0 <= k < |Pick(xs, p, want, n)| :: Pick(xs, p, want, n)[k].Refusal? == want
    ensures (exists i: nat | i < n :: p(i) == want) ==> Pick(xs, p, want, n) != []
  {
    if n > 0 {
      PickFirst(xs, p, want, n - 1);
    }
  }

  lemma AnswersExecute(calls: seq<ToolCall>, blocked: nat -> bool, outputs: nat -> string)
    ensures (exists k | 0 <= k < |Answers(calls, blocked, outputs)| :: Answers(calls, blocked, outputs)[k].Output?)
       <==> AnyExecuted(calls, blocked)
  {
    var all, refused := AllAnswers(calls, blocked, outputs), RefusedAt(calls, blocked);
    PickFirst(all, refused, true, |all|);
    PickFirst(all, refused, false, |all|);
    var first, rest := Pick(all, refused, true, |all|), Pick(all, refused, false, |all|);
    if AnyExecuted(calls, blocked) {
      var i: nat :| i < |calls| && !refused(i);
      assert rest != [] && !rest[0].Refusal?;
      assert Answers(calls, blocked, outputs)[|first|] == rest[0];
    } else {
      PickIsNothing(all, refused, |all|);
    }
  }

  /** Something is executed exactly when an output is recorded. */
  lemma PhaseExecutes(calls: seq<ToolCall>, w: World)
    ensures var said := Phase(calls, w).said;
            && (SomeExecuted(said, |said|) <==> AnyExecuted(calls, Blocking(calls, w)))
            && (forall i | 0 <= i < |said| :: said[i].ToolSays?)
  {
    var blocked := Blocking(calls, w);
    AnswersExecute(calls, blocked, w.outputs);
    var answers := Answers(calls, blocked, w.outputs);
    assert forall k | 0 <= k < |answers| :: Executed(Spoken(answers)[k]) <==> answers[k].Output?;
  }

  lemma {:induction false} AnswersCount(c: Config, m: Memory, o: Outcome, request: Msg, said: seq<Msg>)
    requires o.end.None? && o.piece.said == [request] + said
    requires !Plain(request) && !Executed(request) && forall i | 0 <= i < |said| :: said[i].ToolSays?
    requires o.memory.retries == if SomeExecuted(said, |said|) then NoRetries else m.retries
    ensures CountsNudges(c, m, o)
  {
    var b := o.piece.said;
    assert forall i | 0 <= i < |said| :: b[i+1] == said[i];
    assert SomeExecuted(b, |b|) <==> SomeExecuted(said, |said|);
  }

  lemma {:induction false} ToolTurnCounts(c: Config, m: Memory, s: Stream, calls: seq<ToolCall>, w: World)
    requires calls != []
    ensures CountsNudges(c, m, ToolTurn(c, m, s, calls, w))
  {
    PhaseExecutes(calls, w);
    var request := AssistantSays(Joined(s.texts), calls, false);
    match Update(m.streak, TurnOf(calls, w), c.threshold).1
    case Terminate =>
    case Warn =>
    case Proceed => AnswersCount(c, m, ToolTurn(c, m, s, calls, w), request, Phase(calls, w).said);
  }

  lemma StreamCounts(c: Config, m: Memory, t: Input)
    ensures CountsNudges(c, m, AfterStream(c, m, t))
  {
    if t.stream.ending.Complete? {
      var calls := t.stream.ending.calls;
      if calls == [] { PlainTurnCounts(c, m, t.stream); } else { ToolTurnCounts(c, m, t.stream, calls, t.world); }
    }
  }

  lemma {:induction false} IterationCounts(c: Config, m: Memory, t: Input)
    ensures CountsNudges(c, m, Iteration(c, m, t))
  {
    StreamCounts(c, m, t);
  }

  lemma {:induction false} FewPlain(b: seq<Msg>, n: nat)
    requires n <= |b| && forall i | 1 <= i < |b| :: !Plain(b[i])
    ensures Since(b, n) <= if StartsPlain(b) then 1 else 0
    ensures !SomeExecuted(b, n) && n > 0 && StartsPlain(b) ==> Since(b, n) == 1
    ensures SomeExecuted(b, n) ==> Since(b, n) == 0
  {
    if n > 0 {
      FewPlain(b, n - 1);
      if SomeExecuted(b, n) && !Executed(b[n-1]) {
        assert n - 1 > 0;
      }
    }
  }

  /** At every moment of the transcript the nudges since the last execution are within the limits. */
  predicate FewNudges(c: Config, said: seq<Msg>, end: Option<string>) {
    forall n: nat | n <= |said| :: FewAt(c, said, end, n)
  }

  /** Among the first `n` messages; the final answer is one reply more. */
  predicate FewAt(c: Config, said: seq<Msg>, end: Option<string>, n: nat)
    requires n <= |said|
  {
    Since(said, n) <= AllNudges(c) + if n == |said| && end == Some("done") then 1 else 0
  }

  /** The three counters add up to the replies since the last execution. */
  predicate CountersAgree(said: seq<Msg>, r: Retries) {
    Since(said, |said|) - r.planning - r.reasoning == r.empty
  }

  predicate NudgesKept(c: Config, p: Progress) {
    && Within(c, p.memory.retries) && FewNudges(c, p.piece.said, p.end)
    && (p.end.None? ==> CountersAgree(p.piece.said, p.memory.retries))
  }

  /** The replies behind the first `n` messages of a block. */
  lemma SinceBlock(a: seq<Msg>, b: seq<Msg>, n: nat)
    requires 0 < n <= |b| && forall i | 1 <= i < |b| :: !Plain(b[i])
    ensures Since(a + b, |a| + n) <= Since(a, |a|) + if StartsPlain(b) then 1 else 0
    ensures !SomeExecuted(b, n) ==> Since(a + b, |a| + n) == Since(a, |a|) + if StartsPlain(b) then 1 else 0
    ensures SomeExecuted(b, n) ==> Since(a + b, |a| + n) == 0
  {
    SinceConcat(a, b, n);
    FewPlain(b, n);
    if !StartsPlain(b) {
      assert Since(b, n) == 0;
    }
  }

  lemma FewInside(c: Config, a: seq<Msg>, m: Memory, o: Outcome, n: nat)
    requires CountsNudges(c, m, o) && Within(c, m.retries) && CountersAgree(a, m.retries) && 0 < n <= |o.piece.said|
    ensures FewAt(c, a + o.piece.said, o.end, |a| + n)
  {
    var b := o.piece.said;
    SinceBlock(a, b, n);
    SinceBlock(a, b, |b|);
    if SomeExecuted(b, n) {
      assert SomeExecuted(b, |b|);
    }
  }

  lemma CountersAfter(c: Config, a: seq<Msg>, m: Memory, o: Outcome)
    requires CountsNudges(c, m, o) && CountersAgree(a, m.retries) && o.end.None?
    ensures CountersAgree(a + o.piece.said, o.memory.retries)
  {
    var b := o.piece.said;
    if b == [] {
      assert a + b == a;
    } else {
      SinceBlock(a, b, |b|);
      assert |a + b| == |a| + |b|;
    }
  }

  lemma {:induction false} NudgesAfter(c: Config, a: seq<Msg>, m: Memory, o: Outcome)
    requires CountsNudges(c, m, o) && Within(c, m.retries)
    requires FewNudges(c, a, None) && CountersAgree(a, m.retries)
    ensures Within(c, o.memory.retries) && FewNudges(c, a + o.piece.said, o.end)
    ensures o.end.None? ==> CountersAgree(a + o.piece.said, o.memory.retries)
  {
    var b := o.piece.said;
    forall n: nat | n <= |a + b|
      ensures FewAt(c, a + b, o.end, n)
    {
      if n <= |a| {
        SincePrefix(a, b, n);
        assert FewAt(c, a, None, n);
      } else {
        FewInside(c, a, m, o, n - |a|);
      }
    }
    if o.end.None? {
      CountersAfter(c, a, m, o);
    }
  }

  lemma {:induction false} NudgesAtStart(c: Config, p: Progress)
    requires |p.piece.said| == 1 && p.piece.said[0].UserSays? && p.end.None? && p.memory.retries == NoRetries
    ensures NudgesKept(c, p)
  {
    var said := p.piece.said;
    assert Since(said, 0) == 0 && Since(said, 1) == 0;
  }

  lemma {:induction false} NudgesSoFar(c: Config, step: Step, user: Content, inputs: seq<Input>, n: nat)
    requires n <= |inputs| && forall m, t :: CountsNudges(c, m, step(m, t))
    ensures NudgesKept(c, RunAfter(step, user, inputs, n))
  {
    if n == 0 {
      NudgesAtStart(c, RunAfter(step, user, inputs, 0));
    } else {
      NudgesSoFar(c, step, user, inputs, n - 1);
      var p := RunAfter(step, user, inputs, n - 1);
      if p.end.None? {
        var o := step(p.memory, inputs[n-1]);
        assert CountsNudges(c, p.memory, o);
        NudgesAfter(c, p.piece.said, p.memory, o);
      }
    }
  }

  lemma FewNudgesAtEnd(c: Config, said: seq<Msg>, end: Option<string>)
    requires FewNudges(c, said, None) && end != Some("done")
    ensures FewNudges(c, said, end)
  {
    forall n: nat | n <= |said|
      ensures FewAt(c, said, end, n)
    {
      assert FewAt(c, said, None, n);
    }
  }

  /** Between two tool executions a run is nudged at most as often as the three limits allow together. */
  lemma NudgesAreBounded(c: Config, user: Content, inputs: seq<Input>)
    requires Bound(c) <= |inputs|
    ensures var p := WholeRun(c, user, inputs); FewNudges(c, p.piece.said, p.end)
  {
    forall m, t
      ensures CountsNudges(c, m, StepOf(c)(m, t))
    {
      IterationCounts(c, m, t);
    }
    NudgesSoFar(c, StepOf(c), user, inputs, Bound(c));
    var p := RunAfter(StepOf(c), user, inputs, Bound(c));
    assert p.piece.said + [] == p.piece.said;
    if p.end.None? {
      assert |OUT_OF_ITERATIONS| == 14 && |"done"| == 4;
      FewNudgesAtEnd(c, p.piece.said, Some(OUT_OF_ITERATIONS));
    }
  }

  // ---- The final answer ----

  /** A Done event carries the last message of the session. */
  predicate DoneIsLast(p: Piece) {
    forall i | 0 <= i < |p.events| && p.events[i].Done? ::
      p.said != [] && p.said[|p.said|-1] == AssistantSays(p.events[i].text, [], false)
  }

  predicate NoDone(events: seq<Event>) {
    forall i | 0 <= i < |events| :: !events[i].Done?
  }

  lemma PlainTurnDone(c: Config, m: Memory, s: Stream)
    ensures DoneIsLast(PlainTurn(c, m, s).piece)
  {
  }

  lemma ToolTurnDone(c: Config, m: Memory, s: Stream, calls: seq<ToolCall>, w: World)
    ensures NoDone(ToolTurn(c, m, s, calls, w).piece.events)
  {
    PhaseIsQuiet(calls, w);
  }

  lemma StreamDone(c: Config, m: Memory, t: Input)
    ensures DoneIsLast(AfterStream(c, m, t).piece)
  {
    if t.stream.ending.Complete? {
      var calls := t.stream.ending.calls;
      if calls == [] { PlainTurnDone(c, m, t.stream); } else { ToolTurnDone(c, m, t.stream, calls, t.world); }
    }
  }

  lemma IterationDone(c: Config, m: Memory, t: Input)
    ensures DoneIsLast(Iteration(c, m, t).piece)
  {
    StreamDone(c, m, t);
  }

  lemma DoneAfterQuiet(p: Piece, q: Piece)
    requires Quiet(p.events) && DoneIsLast(q)
    ensures DoneIsLast(Added(p, q))
  {
    var all := Added(p, q);
    forall i | 0 <= i < |all.events| && all.events[i].Done?
      ensures all.said != [] && all.said[|all.said|-1] == AssistantSays(all.events[i].text, [], false)
    {
      if i < |p.events| {
        assert Terminal(p.events[i]);
      } else {
        assert q.events[i - |p.events|] == all.events[i];
      }
    }
  }

  lemma {:induction false} DoneSoFar(step: Step, user: Content, inputs: seq<Input>, n: nat)
    requires n <= |inputs| && (forall m, t :: ProperOutcome(step(m, t))) && (forall m, t :: DoneIsLast(step(m, t).piece))
    ensures DoneIsLast(RunAfter(step, user, inputs, n).piece)
  {
    if n > 0 {
      DoneSoFar(step, user, inputs, n - 1);
      OneTerminalSoFar(step, user, inputs, n - 1);
      var p := RunAfter(step, user, inputs, n - 1);
      if p.end.None? {
        var o := step(p.memory, inputs[n-1]);
        assert DoneIsLast(o.piece);
        DoneAfterQuiet(p.piece, o.piece);
      }
    }
  }

  /** The answer a run announces is the last message it leaves in the session. */
  lemma AnswerIsRecorded(c: Config, user: Content, inputs: seq<Input>)
    requires Bound(c) <= |inputs|
    ensures DoneIsLast(WholeRun(c, user, inputs).piece)
  {
    forall m, t
      ensures ProperOutcome(StepOf(c)(m, t)) && DoneIsLast(StepOf(c)(m, t).piece)
    {
      IterationIsProper(c, m, t);
      IterationDone(c, m, t);
    }
    DoneSoFar(StepOf(c), user, inputs, Bound(c));
    OneTerminalSoFar(StepOf(c), user, inputs, Bound(c));
    var p := RunAfter(StepOf(c), user, inputs, Bound(c));
    if p.end.None? {
      DoneAfterQuiet(p.piece, Piece([], [ErrorEvent(OUT_OF_ITERATIONS)], []));
    }
  }
}
