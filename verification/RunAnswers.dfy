/** Accounting of tool calls over whole runs: every call that is started is answered and audited. */
module RunAnswers {
  import opened Approval
  import opened ToolPhase
  import opened ToolLoop
  import opened RunModel

  // ---- Counting ----

  function Tally<T>(xs: seq<T>, f: T -> bool, n: nat): nat
    requires n <= |xs|
  {
    if n == 0 then 0 else Tally(xs, f, n - 1) + if f(xs[n-1]) then 1 else 0
  }

  function All<T>(xs: seq<T>, f: T -> bool): nat {
    Tally(xs, f, |xs|)
  }

  lemma {:induction false} TallyConcat<T>(a: seq<T>, b: seq<T>, f: T -> bool, n: nat)
    requires n <= |a + b|
    ensures Tally(a + b, f, n) == if n <= |a| then Tally(a, f, n) else All(a, f) + Tally(b, f, n - |a|)
  {
    if n > 0 {
      TallyConcat(a, b, f, n - 1);
    }
  }

  lemma AllConcat<T>(a: seq<T>, b: seq<T>, f: T -> bool)
    ensures All(a + b, f) == All(a, f) + All(b, f)
  {
    TallyConcat(a, b, f, |a + b|);
    if b == [] {
      assert a + b == a;
    }
  }

  lemma {:induction false} TallySame<T, U>(xs: seq<T>, f: T -> bool, ys: seq<U>, g: U -> bool, n: nat)
    requires n <= |xs| && n <= |ys| && forall i | 0 <= i < n :: f(xs[i]) == g(ys[i])
    ensures Tally(xs, f, n) == Tally(ys, g, n)
  {
    if n > 0 {
      TallySame(xs, f, ys, g, n - 1);
    }
  }

  lemma {:induction false} TallyNone<T>(xs: seq<T>, f: T -> bool, n: nat)
    requires n <= |xs| && forall i | 0 <= i < n :: !f(xs[i])
    ensures Tally(xs, f, n) == 0
  {
    if n > 0 {
      TallyNone(xs, f, n - 1);
    }
  }

  lemma {:induction false} TallyPick<T>(xs: seq<T>, p: nat -> bool, f: T -> bool, n: nat)
    requires n <= |xs|
    ensures All(Pick(xs, p, true, n), f) + All(Pick(xs, p, false, n), f) == Tally(xs, f, n)
  {
    if n > 0 {
      TallyPick(xs, p, f, n - 1);
      AllConcat(Pick(xs, p, p(n - 1), n - 1), [xs[n-1]], f);
      assert All([xs[n-1]], f) == (if f(xs[n-1]) then 1 else 0) by {
        assert Tally([xs[n-1]], f, 0) == 0;
      }
    }
  }

  lemma TallyParts<T>(xs: seq<T>, p: nat -> bool, f: T -> bool, first: bool)
    ensures All(Pick(xs, p, first, |xs|) + Pick(xs, p, !first, |xs|), f) == All(xs, f)
  {
    TallyPick(xs, p, f, |xs|);
    AllConcat(Pick(xs, p, first, |xs|), Pick(xs, p, !first, |xs|), f);
  }

  // ---- Per call id ----

  function HasId(x: string): ToolCall -> bool { (c: ToolCall) => c.id == x }
  function AnswersTo(x: string): Answer -> bool { (a: Answer) => a.callId == x }
  function StartsCall(x: string): Event -> bool { (e: Event) => e == ToolCallStart(x) }
  function FinishesCall(x: string): Event -> bool { (e: Event) => e.ToolCallEnd? && e.answer.callId == x }
  function Replies(x: string): Msg -> bool { (m: Msg) => m.ToolSays? && m.answer.callId == x }
  function Audits(x: string): Record -> bool { (r: Record) => r.callId == x }

  /** The calls with id `x` in one turn are started, finished, replied to and audited equally often. */
  ghost predicate Balanced(p: Piece, x: string) {
    All(p.events, StartsCall(x)) == All(p.events, FinishesCall(x)) == All(p.said, Replies(x)) == All(p.audit, Audits(x))
  }

  lemma AnswersTally(calls: seq<ToolCall>, blocked: nat -> bool, outputs: nat -> string, x: string)
    ensures All(Answers(calls, blocked, outputs), AnswersTo(x)) == All(calls, HasId(x))
    ensures |Answers(calls, blocked, outputs)| == |calls|
  {
    var all := AllAnswers(calls, blocked, outputs);
    PickLength(all, RefusedAt(calls, blocked), |all|);
    TallyParts(all, RefusedAt(calls, blocked), AnswersTo(x), true);
    TallySame(all, AnswersTo(x), calls, HasId(x), |calls|);
  }

  lemma AuditTally(s: Setting, calls: seq<ToolCall>, rulings: nat -> Ruling, x: string)
    ensures All(Audit(s, calls, rulings), Audits(x)) == All(calls, HasId(x))
  {
    var all := AllRecords(s, calls, rulings);
    TallyParts(all, GatedAt(s, calls), Audits(x), false);
    TallySame(all, Audits(x), calls, HasId(x), |calls|);
  }

  lemma EventsTally(calls: seq<ToolCall>, requests: seq<Event>, answers: seq<Answer>, x: string)
    requires forall i | 0 <= i < |requests| :: requests[i].ApprovalRequest?
    ensures All(Starts(calls) + requests + Finishes(answers), StartsCall(x)) == All(calls, HasId(x))
    ensures All(Starts(calls) + requests + Finishes(answers), FinishesCall(x)) == All(answers, AnswersTo(x))
  {
    AllConcat(Starts(calls) + requests, Finishes(answers), StartsCall(x));
    AllConcat(Starts(calls), requests, StartsCall(x));
    AllConcat(Starts(calls) + requests, Finishes(answers), FinishesCall(x));
    AllConcat(Starts(calls), requests, FinishesCall(x));
    TallySame(Starts(calls), StartsCall(x), calls, HasId(x), |calls|);
    TallyNone(requests, StartsCall(x), |requests|);
    TallyNone(Finishes(answers), StartsCall(x), |answers|);
    TallyNone(Starts(calls), FinishesCall(x), |calls|);
    TallyNone(requests, FinishesCall(x), |requests|);
    TallySame(Finishes(answers), FinishesCall(x), answers, AnswersTo(x), |answers|);
  }

  lemma PhaseBalances(calls: seq<ToolCall>, w: World, x: string)
    ensures Balanced(Phase(calls, w), x)
    ensures All(Phase(calls, w).said, Replies(x)) == All(calls, HasId(x))
    ensures |Phase(calls, w).said| == |calls|
  {
    var answers := Answers(calls, Blocking(calls, w), w.outputs);
    var requests := if w.setting.gate.Some? then Requests(w.setting, GatedCalls(w.setting, calls)) else [];
    AnswersTally(calls, Blocking(calls, w), w.outputs, x);
    AuditTally(w.setting, calls, w.rulings, x);
    EventsTally(calls, requests, answers, x);
    TallySame(Spoken(answers), Replies(x), answers, AnswersTo(x), |answers|);
  }

  lemma AddedBalances(p: Piece, q: Piece, x: string)
    requires Balanced(p, x) && Balanced(q, x)
    ensures Balanced(Added(p, q), x)
  {
    AllConcat(p.events, q.events, StartsCall(x));
    AllConcat(p.events, q.events, FinishesCall(x));
    AllConcat(p.said, q.said, Replies(x));
    AllConcat(p.audit, q.audit, Audits(x));
  }

  predicate NoTools(p: Piece) {
    && (forall i | 0 <= i < |p.events| :: !p.events[i].ToolCallStart? && !p.events[i].ToolCallEnd?)
    && (forall i | 0 <= i < |p.said| :: !p.said[i].ToolSays?)
    && p.audit == []
  }

  lemma QuietBalances(p: Piece, x: string)
    requires NoTools(p)
    ensures Balanced(p, x)
  {
    TallyNone(p.events, StartsCall(x), |p.events|);
    TallyNone(p.events, FinishesCall(x), |p.events|);
    TallyNone(p.said, Replies(x), |p.said|);
  }

  lemma PlainTurnBalances(c: Config, m: Memory, s: Stream, x: string)
    ensures Balanced(PlainTurn(c, m, s).piece, x)
  {
    QuietBalances(PlainTurn(c, m, s).piece, x);
  }

  /** An iteration without a tool phase is quiet, one with it adds the request and the phase. */
  lemma ToolTurnBalances(c: Config, m: Memory, s: Stream, calls: seq<ToolCall>, w: World, x: string)
    ensures Balanced(ToolTurn(c, m, s, calls, w).piece, x)
  {
    var request := Piece([AssistantSays(Joined(s.texts), calls, false)], Chunks(s.texts), []);
    var p := ToolTurn(c, m, s, calls, w).piece;
    if Update(m.streak, TurnOf(calls, w), c.threshold).1 == Proceed {
      QuietBalances(request, x);
      PhaseBalances(calls, w, x);
      AddedBalances(request, Phase(calls, w), x);
      assert p == Added(request, Phase(calls, w));
    } else {
      QuietBalances(p, x);
    }
  }

  lemma StreamBalances(c: Config, m: Memory, t: Input, x: string)
    ensures Balanced(AfterStream(c, m, t).piece, x)
  {
    if t.stream.ending.Complete? {
      var calls := t.stream.ending.calls;
      if calls == [] { PlainTurnBalances(c, m, t.stream, x); } else { ToolTurnBalances(c, m, t.stream, calls, t.world, x); }
    } else {
      QuietBalances(AfterStream(c, m, t).piece, x);
    }
  }

  lemma IterationBalances(c: Config, m: Memory, t: Input, x: string)
    ensures Balanced(Iteration(c, m, t).piece, x)
  {
    StreamBalances(c, m, t, x);
    if Iteration(c, m, t) != AfterStream(c, m, t) {
      QuietBalances(Iteration(c, m, t).piece, x);
    }
  }

  lemma {:induction false} BalancedSoFar(x: string, step: Step, user: Content, inputs: seq<Input>, n: nat)
    requires n <= |inputs| && forall m, t :: Balanced(step(m, t).piece, x)
    ensures Balanced(RunAfter(step, user, inputs, n).piece, x)
  {
    if n == 0 {
      QuietBalances(Piece([UserSays(user)], [], []), x);
    } else {
      BalancedSoFar(x, step, user, inputs, n - 1);
      var p := RunAfter(step, user, inputs, n - 1);
      if p.end.None? {
        var o := step(p.memory, inputs[n-1]);
        assert Balanced(o.piece, x);
        AddedBalances(p.piece, o.piece, x);
      }
    }
  }

  /**
   Over a whole run, however it ends: for every call id there are as many finished calls as
   started ones, as many replies in the session, and as many audit records.
   */
  lemma EveryCallIsAccountedFor(c: Config, user: Content, inputs: seq<Input>, x: string)
    requires Bound(c) <= |inputs|
    ensures Balanced(WholeRun(c, user, inputs).piece, x)
  {
    forall m, t
      ensures Balanced(StepOf(c)(m, t).piece, x)
    {
      IterationBalances(c, m, t, x);
    }
    BalancedSoFar(x, StepOf(c), user, inputs, Bound(c));
    var p := RunAfter(StepOf(c), user, inputs, Bound(c));
    var closing := Piece([], [ErrorEvent(OUT_OF_ITERATIONS)], []);
    QuietBalances(closing, x);
    AddedBalances(p.piece, closing, x);
  }

  // ---- Every request for tools is answered at once ----

  predicate Asks(said: seq<Msg>, i: int) {
    0 <= i < |said| && said[i].AssistantSays? && said[i].calls != []
  }

  /** The messages right after request `i` are the replies to its calls, one per call. */
  ghost predicate AnsweredAt(said: seq<Msg>, i: int)
    requires Asks(said, i)
  {
    var calls := said[i].calls;
    && i + |calls| < |said|
    && (forall j | i < j <= i + |calls| :: said[j].ToolSays?)
    && (forall x :: All(said[i+1..i+1+|calls|], Replies(x)) == All(calls, HasId(x)))
  }

  predicate Guided(said: seq<Msg>, i: int) {
    0 <= i + 1 < |said| && said[i+1].Guidance?
  }

  predicate HasGuidance(said: seq<Msg>) {
    exists i :: 0 <= i < |said| && said[i].Guidance?
  }

  /** Each request is answered at once, or followed by guidance, or the last message of all. */
  ghost predicate Settled(said: seq<Msg>) {
    forall i | Asks(said, i) :: AnsweredAt(said, i) || Guided(said, i) || i == |said| - 1
  }

  /** Replies stand only behind the request they answer. */
  ghost predicate NoStrays(said: seq<Msg>) {
    forall j | 0 <= j < |said| && said[j].ToolSays? ::
      exists i :: Covers(said, i, j)
  }

  /** Guidance stands only behind a request. */
  predicate GuidanceFollowsRequest(said: seq<Msg>) {
    forall i | 0 <= i < |said| && said[i].Guidance? :: Asks(said, i - 1)
  }

  ghost predicate Orderly(said: seq<Msg>) {
    Settled(said) && NoStrays(said) && GuidanceFollowsRequest(said)
  }

  predicate Dangling(said: seq<Msg>) {
    Asks(said, |said| - 1)
  }

  lemma AnsweredInside(a: seq<Msg>, b: seq<Msg>, i: int)
    requires Asks(a, i) && AnsweredAt(a, i)
    ensures Asks(a + b, i) && AnsweredAt(a + b, i)
  {
    var k := |a[i].calls|;
    assert (a + b)[i+1..i+1+k] == a[i+1..i+1+k];
  }

  lemma AnsweredLater(a: seq<Msg>, b: seq<Msg>, i: int)
    requires Asks(b, i) && AnsweredAt(b, i)
    ensures Asks(a + b, |a| + i) && AnsweredAt(a + b, |a| + i)
  {
    var k := |b[i].calls|;
    assert (a + b)[|a|+i+1..|a|+i+1+k] == b[i+1..i+1+k];
  }

  lemma SettledConcat(a: seq<Msg>, b: seq<Msg>)
    requires Settled(a) && Settled(b) && !Dangling(a)
    ensures Settled(a + b)
  {
    var s := a + b;
    forall i | Asks(s, i)
      ensures AnsweredAt(s, i) || Guided(s, i) || i == |s| - 1
    {
      if i < |a| {
        assert Asks(a, i);
        if AnsweredAt(a, i) { AnsweredInside(a, b, i); }
      } else {
        assert Asks(b, i - |a|);
        if AnsweredAt(b, i - |a|) { AnsweredLater(a, b, i - |a|); }
      }
    }
  }

  /** The reply at `j` belongs to the request at `i`. */
  ghost predicate Covers(said: seq<Msg>, i: int, j: int) {
    i < j && Asks(said, i) && AnsweredAt(said, i) && j <= i + |said[i].calls|
  }

  lemma NoStraysConcat(a: seq<Msg>, b: seq<Msg>)
    requires NoStrays(a) && NoStrays(b)
    ensures NoStrays(a + b)
  {
    var s := a + b;
    forall j | 0 <= j < |s| && s[j].ToolSays?
      ensures exists i :: Covers(s, i, j)
    {
      if j < |a| {
        var i :| Covers(a, i, j);
        AnsweredInside(a, b, i);
        assert Covers(s, i, j);
      } else {
        assert b[j-|a|] == s[j];
        var i :| Covers(b, i, j - |a|);
        AnsweredLater(a, b, i);
        assert Covers(s, |a| + i, j);
      }
    }
  }

  lemma OrderlyConcat(a: seq<Msg>, b: seq<Msg>)
    requires Orderly(a) && Orderly(b) && !Dangling(a)
    ensures Orderly(a + b)
  {
    SettledConcat(a, b);
    NoStraysConcat(a, b);
    var s := a + b;
    forall i | 0 <= i < |s| && s[i].Guidance?
      ensures Asks(s, i - 1)
    {
      if i < |a| { assert Asks(a, i - 1); } else { assert Asks(b, i - |a| - 1); }
    }
  }

  /** What an iteration adds is orderly; it warns before it stops, and stops only when warned. */
  ghost predicate Behaves(m: Memory, o: Outcome) {
    && Orderly(o.piece.said)
    && (o.memory.streak.warned ==> m.streak.warned || HasGuidance(o.piece.said))
    && (Dangling(o.piece.said) ==> m.streak.warned && o.end.Some?)
  }

  predicate NoCalls(said: seq<Msg>) {
    forall i | 0 <= i < |said| :: !Asks(said, i) && !said[i].ToolSays? && !said[i].Guidance?
  }

  lemma NoCallsBehaves(m: Memory, o: Outcome)
    requires NoCalls(o.piece.said) && o.memory.streak == m.streak
    ensures Behaves(m, o)
  {
  }

  lemma BlockAnswers(request: Msg, replies: seq<Msg>)
    requires request.AssistantSays? && request.calls != [] && |replies| == |request.calls|
    requires forall j | 0 <= j < |replies| :: replies[j].ToolSays?
    requires forall x :: All(replies, Replies(x)) == All(request.calls, HasId(x))
    ensures Asks([request] + replies, 0) && AnsweredAt([request] + replies, 0)
  {
    var said := [request] + replies;
    assert said[1..1+|replies|] == replies;
    assert forall j | 1 <= j < |said| :: said[j] == replies[j-1];
  }

  lemma PhaseAnswers(request: Msg, calls: seq<ToolCall>, w: World)
    requires calls != [] && request.AssistantSays? && request.calls == calls
    ensures var said := [request] + Phase(calls, w).said;
            |said| == |calls| + 1 && Asks(said, 0) && AnsweredAt(said, 0)
  {
    PhaseBalances(calls, w, "");
    forall x
      ensures All(Phase(calls, w).said, Replies(x)) == All(calls, HasId(x))
    {
      PhaseBalances(calls, w, x);
    }
    BlockAnswers(request, Phase(calls, w).said);
  }

  lemma OneBlockIsOrderly(said: seq<Msg>)
    requires Asks(said, 0) && AnsweredAt(said, 0) && |said| == |said[0].calls| + 1
    ensures Orderly(said) && !Dangling(said)
  {
    assert forall j | 1 <= j < |said| :: said[j].ToolSays? && Covers(said, 0, j);
  }

  lemma {:induction false} ToolTurnBehaves(c: Config, m: Memory, s: Stream, calls: seq<ToolCall>, w: World)
    requires calls != []
    ensures Behaves(m, ToolTurn(c, m, s, calls, w))
  {
    var request := AssistantSays(Joined(s.texts), calls, false);
    var o := ToolTurn(c, m, s, calls, w);
    match Update(m.streak, TurnOf(calls, w), c.threshold).1
    case Terminate =>
      assert o.piece.said == [request];
    case Warn =>
      assert Guided(o.piece.said, 0) && o.piece.said[1].Guidance? && Asks(o.piece.said, 0);
    case Proceed =>
      PhaseAnswers(request, calls, w);
      OneBlockIsOrderly([request] + Phase(calls, w).said);
  }

  lemma StreamBehaves(c: Config, m: Memory, t: Input)
    ensures Behaves(m, AfterStream(c, m, t))
  {
    if t.stream.ending.Complete? && t.stream.ending.calls != [] {
      ToolTurnBehaves(c, m, t.stream, t.stream.ending.calls, t.world);
    } else {
      NoCallsBehaves(m, AfterStream(c, m, t));
    }
  }

  lemma IterationBehaves(c: Config, m: Memory, t: Input)
    ensures Behaves(m, Iteration(c, m, t))
  {
    StreamBehaves(c, m, t);
    if Iteration(c, m, t) != AfterStream(c, m, t) {
      NoCallsBehaves(m, Iteration(c, m, t));
    }
  }

  ghost predicate AnswersKept(p: Progress) {
    && Orderly(p.piece.said)
    && (p.memory.streak.warned ==> HasGuidance(p.piece.said))
    && (Dangling(p.piece.said) ==> HasGuidance(p.piece.said) && p.end.Some?)
  }

  lemma GuidanceStays(a: seq<Msg>, b: seq<Msg>)
    ensures HasGuidance(a + b) <==> HasGuidance(a) || HasGuidance(b)
  {
    assert forall i | 0 <= i < |a| :: (a + b)[i] == a[i];
    assert forall i | 0 <= i < |b| :: (a + b)[|a|+i] == b[i];
  }

  lemma AnswersAfter(p: Progress, o: Outcome)
    requires AnswersKept(p) && p.end.None? && Behaves(p.memory, o)
    ensures AnswersKept(Progress(Added(p.piece, o.piece), o.memory, o.end))
  {
    OrderlyConcat(p.piece.said, o.piece.said);
    GuidanceStays(p.piece.said, o.piece.said);
    if o.piece.said == [] {
      assert p.piece.said + [] == p.piece.said;
    }
  }

  lemma {:induction false} AnswersSoFar(step: Step, user: Content, inputs: seq<Input>, n: nat)
    requires n <= |inputs| && forall m, t :: Behaves(m, step(m, t))
    ensures AnswersKept(RunAfter(step, user, inputs, n))
  {
    if n > 0 {
      AnswersSoFar(step, user, inputs, n - 1);
      var p := RunAfter(step, user, inputs, n - 1);
      if p.end.None? {
        var o := step(p.memory, inputs[n-1]);
        assert Behaves(p.memory, o);
        AnswersAfter(p, o);
      }
    }
  }

  /**
   Every request for tools in a run is directly followed by the replies to its calls, one per
   call, and no reply stands anywhere else: exactly when the run was never warned about an
   unknown tool. A warning, and the stop after it, leave a request unanswered.
   */
  lemma RequestsAreAnswered(c: Config, user: Content, inputs: seq<Input>)
    requires Bound(c) <= |inputs|
    ensures var said := WholeRun(c, user, inputs).piece.said;
            && Orderly(said)
            && ((forall i | Asks(said, i) :: AnsweredAt(said, i)) <==> !HasGuidance(said))
  {
    forall m, t
      ensures Behaves(m, StepOf(c)(m, t))
    {
      IterationBehaves(c, m, t);
    }
    AnswersSoFar(StepOf(c), user, inputs, Bound(c));
    var said := RunAfter(StepOf(c), user, inputs, Bound(c)).piece.said;
    assert said + [] == said;
    if HasGuidance(said) {
      var i :| 0 <= i < |said| && said[i].Guidance?;
      assert Asks(said, i - 1) && !AnsweredAt(said, i - 1);
    }
  }
}
