/**
 A whole run read off its transcript and its inputs: what each input adds, when a reply is nudged
 on, and why the run ends. Nothing here looks at the counters the loop keeps.
 */
module RunReading {
  import opened Prelude
  import opened ToolPhase
  import opened ToolLoop
  import opened RunModel
  import opened RunSafety

  /** The nudges of kind `k` among the first `n` messages, since the last execution. */
  function Nudges(said: seq<Msg>, k: Kind, n: nat): nat
    requires n <= |said|
  {
    if n == 0 || Executed(said[n-1]) then 0 else Nudges(said, k, n - 1) + if said[n-1] == Nudge(k) then 1 else 0
  }

  /** After the first `n` messages one more nudge of kind `k` is allowed. */
  predicate Room(c: Config, said: seq<Msg>, n: nat, k: Kind)
    requires n <= |said|
  {
    || (k == Planning && Nudges(said, Planning, n) < c.planningLimit)
    || (k == Reasoning && Nudges(said, Reasoning, n) < c.reasoningLimit)
    || (k == Empty && Nudges(said, Empty, n) < c.emptyLimit)
  }

  // ---- What one input adds ----

  predicate Failing(r: CompactResult) {
    r.Raised? || !r.ok
  }

  function FailureCode(r: CompactResult): string {
    if r.Report? && r.reasonCode != "" then r.reasonCode else "compaction_failed"
  }

  predicate Shrinking(r: CompactResult) {
    r.Report? && r.ok && r.compacted && r.summary != ""
  }

  /** The iteration gets as far as the model's stream. */
  predicate Streams(t: Input) {
    && !t.timedOut && !t.aborted && !t.noTimeLeft
    && (t.pretrim.Some? ==> !Failing(t.pretrim.value) && !Shrinking(t.pretrim.value))
  }

  /** The iteration ends in a complete reply that calls these tools, or none. */
  predicate Replies(t: Input, calls: seq<ToolCall>) {
    Streams(t) && t.stream.ending == Complete(calls)
  }

  function TurnRead(t: Input): Turn
    requires t.stream.ending.Complete?
  {
    var calls := t.stream.ending.calls;
    Turn(seq(|calls|, i requires 0 <= i < |calls| => calls[i].name), t.world.setting.registry)
  }

  /** The turns with tool calls among the first `n` inputs. */
  function Turns(inputs: seq<Input>, n: nat): seq<Turn>
    requires n <= |inputs|
  {
    if n == 0 then []
    else
      var t := inputs[n-1];
      Turns(inputs, n - 1) + if Streams(t) && t.stream.ending.Complete? && t.stream.ending.calls != [] then [TurnRead(t)] else []
  }

  /** What was streamed before a break: kept as a partial reply, unless there is none. */
  function Kept(text: string): seq<Msg> {
    if text == "" then [] else [AssistantSays(text, [], true)]
  }

  predicate Adds(b: Piece, end: Option<string>, said: seq<Msg>, events: seq<Event>, why: Option<string>) {
    b.said == said && b.events == events && b.audit == [] && end == why
  }

  predicate Stops(b: Piece, end: Option<string>, said: seq<Msg>, events: seq<Event>, code: string) {
    Adds(b, end, said, events + [ErrorEvent(code)], Some(code))
  }

  /** An input the model's stream is not reached in. */
  predicate ToldEarly(t: Input, b: Piece, end: Option<string>) {
    if t.timedOut then Stops(b, end, [], [], "timeout")
    else if t.aborted then Stops(b, end, [], [], "aborted")
    else if t.pretrim.Some? && Failing(t.pretrim.value) then Stops(b, end, [], [], FailureCode(t.pretrim.value))
    else if t.pretrim.Some? && Shrinking(t.pretrim.value) then
      Adds(b, end, [Compacted(t.pretrim.value.summary, t.pretrim.value.tokensBefore)], [], None)
    else t.noTimeLeft && Stops(b, end, [], [], "timeout")
  }

  /** A stream that breaks off. */
  predicate ToldBroken(t: Input, b: Piece, end: Option<string>)
    requires !t.stream.ending.Complete?
  {
    var text, chunks := Joined(t.stream.texts), Chunks(t.stream.texts);
    match t.stream.ending
    case StreamTimeout => Stops(b, end, Kept(text), chunks, "timeout")
    case StreamAbort => Stops(b, end, Kept(text), chunks, "aborted")
    case LlmFailure(code, result) =>
      if code != "context_overflow" then Stops(b, end, Kept(text), chunks, code)
      else if Failing(result) then Stops(b, end, Kept(text), chunks, FailureCode(result))
      else if Shrinking(result) then Adds(b, end, [Compacted(result.summary, result.tokensBefore)], chunks, None)
      else Stops(b, end, Kept(text), chunks, "context_overflow")
  }

  /** A complete reply without calls: nudged on while there is room, else the answer. */
  predicate ToldPlain(c: Config, before: seq<Msg>, t: Input, b: Piece, end: Option<string>) {
    var text, chunks := Joined(t.stream.texts), Chunks(t.stream.texts);
    var reply, k := AssistantSays(text, [], false), c.classify(text);
    if Room(c, before, |before|, k) then Adds(b, end, [reply, Nudge(k)], chunks, None)
    else Adds(b, end, [reply], chunks + [Done(text)], Some("done"))
  }

  /** The turn is the `p`-th of a streak of turns with one unknown tool. */
  ghost predicate InStreak(turns: seq<Turn>, turn: Turn, p: nat) {
    IsStreak(turns + [turn], |turns| + 1, p)
  }

  /** A complete reply with calls whose turn is the `p`-th of its streak. */
  predicate ToldAtPlace(c: Config, t: Input, b: Piece, end: Option<string>, p: nat)
    requires t.stream.ending.Complete?
  {
    var text, chunks, calls := Joined(t.stream.texts), Chunks(t.stream.texts), t.stream.ending.calls;
    var request := AssistantSays(text, calls, false);
    if c.threshold > 0 && p == c.threshold then
      Unknown(TurnRead(t)).Some? && Adds(b, end, [request, Guidance(Unknown(TurnRead(t)).value)], chunks, None)
    else if c.threshold > 0 && p > c.threshold then
      Stops(b, end, [request], chunks, "tool_loop")
    else
      && b == Piece([request] + Phase(calls, t.world).said, chunks + Phase(calls, t.world).events, Phase(calls, t.world).audit)
      && end == None
  }

  /** It is run, warned about or stopped by its place in the streak of unknown tools. */
  ghost predicate ToldCalls(c: Config, turns: seq<Turn>, t: Input, b: Piece, end: Option<string>)
    requires t.stream.ending.Complete?
  {
    forall p: nat | InStreak(turns, TurnRead(t), p) :: ToldAtPlace(c, t, b, end, p)
  }

  /** What input `t` adds to a run that stands at `before`, after these turns with calls. */
  ghost predicate Told(c: Config, before: seq<Msg>, turns: seq<Turn>, t: Input, b: Piece, end: Option<string>) {
    if !Streams(t) then ToldEarly(t, b, end)
    else if !t.stream.ending.Complete? then ToldBroken(t, b, end)
    else if t.stream.ending.calls == [] then ToldPlain(c, before, t, b, end)
    else ToldCalls(c, turns, t, b, end)
  }

  // ---- The counters are what the transcript says ----

  predicate Agrees(said: seq<Msg>, r: Retries) {
    && r.planning == Nudges(said, Planning, |said|)
    && r.reasoning == Nudges(said, Reasoning, |said|)
    && r.empty == Nudges(said, Empty, |said|)
  }

  lemma {:induction false} NudgesPrefix(a: seq<Msg>, b: seq<Msg>, k: Kind, n: nat)
    requires n <= |a|
    ensures Nudges(a + b, k, n) == Nudges(a, k, n)
  {
    if n > 0 {
      NudgesPrefix(a, b, k, n - 1);
    }
  }

  lemma {:induction false} NudgesConcat(a: seq<Msg>, b: seq<Msg>, k: Kind, n: nat)
    requires n <= |b|
    ensures Nudges(a + b, k, |a| + n) == Nudges(b, k, n) + if SomeExecuted(b, n) then 0 else Nudges(a, k, |a|)
  {
    if n == 0 {
      NudgesPrefix(a, b, k, |a|);
    } else {
      NudgesConcat(a, b, k, n - 1);
      assert (a + b)[|a| + n - 1] == b[n-1];
    }
  }

  lemma {:induction false} NoNudges(b: seq<Msg>, k: Kind, n: nat)
    requires n <= |b| && forall i | 0 <= i < n :: b[i] != Nudge(k)
    ensures Nudges(b, k, n) == 0
  {
    if n > 0 {
      NoNudges(b, k, n - 1);
    }
  }

  /** Messages without nudges keep the count, unless something among them was executed. */
  lemma QuietMessages(a: seq<Msg>, b: seq<Msg>, k: Kind)
    requires forall i | 0 <= i < |b| :: !b[i].Nudge?
    ensures Nudges(a + b, k, |a + b|) == if SomeExecuted(b, |b|) then 0 else Nudges(a, k, |a|)
  {
    NudgesConcat(a, b, k, |b|);
    NoNudges(b, k, |b|);
  }

  lemma QuietAgrees(a: seq<Msg>, b: seq<Msg>, r: Retries)
    requires Agrees(a, r) && forall i | 0 <= i < |b| :: !b[i].Nudge?
    ensures Agrees(a + b, if SomeExecuted(b, |b|) then NoRetries else r)
  {
    QuietMessages(a, b, Planning);
    QuietMessages(a, b, Reasoning);
    QuietMessages(a, b, Empty);
  }

  lemma NudgedOnce(a: seq<Msg>, reply: Msg, k: Kind, of: Kind)
    requires Plain(reply)
    ensures Nudges(a + [reply, Nudge(k)], of, |a| + 2) == Nudges(a, of, |a|) + if of == k then 1 else 0
  {
    var b := [reply, Nudge(k)];
    NudgesConcat(a, b, of, 2);
    assert Nudges(b, of, 1) == 0;
  }

  lemma NudgedAgrees(a: seq<Msg>, r: Retries, reply: Msg, k: Kind)
    requires Agrees(a, r) && Plain(reply) && k != Fine
    ensures Agrees(a + [reply, Nudge(k)], CountUp(r, k))
  {
    NudgedOnce(a, reply, k, Planning);
    NudgedOnce(a, reply, k, Reasoning);
    NudgedOnce(a, reply, k, Empty);
  }

  // ---- One iteration ----

  lemma PlainIsTold(c: Config, m: Memory, before: seq<Msg>, t: Input)
    requires Agrees(before, m.retries)
    ensures var o := PlainTurn(c, m, t.stream);
            ToldPlain(c, before, t, o.piece, o.end) && o.memory.streak == m.streak
    ensures var o := PlainTurn(c, m, t.stream); o.end.None? ==> Agrees(before + o.piece.said, o.memory.retries)
  {
    var text := Joined(t.stream.texts);
    var reply, k := AssistantSays(text, [], false), c.classify(text);
    assert Room(c, before, |before|, k) <==> Retry(c, m.retries, k);
    if Retry(c, m.retries, k) {
      NudgedAgrees(before, m.retries, reply, k);
    }
  }

  lemma BrokenIsTold(c: Config, m: Memory, t: Input)
    requires !t.stream.ending.Complete?
    ensures var o := AfterStream(c, m, t);
            ToldBroken(t, o.piece, o.end) && o.memory == m && forall i | 0 <= i < |o.piece.said| :: !o.piece.said[i].Nudge? && !Executed(o.piece.said[i])
  {
  }

  lemma EarlyIsTold(c: Config, m: Memory, t: Input)
    requires !Streams(t)
    ensures var o := Iteration(c, m, t);
            ToldEarly(t, o.piece, o.end) && o.memory == m && forall i | 0 <= i < |o.piece.said| :: !o.piece.said[i].Nudge? && !Executed(o.piece.said[i])
  {
  }

  /** The detector stands where the turns so far have brought it. */
  predicate Watches(turns: seq<Turn>, threshold: int, st: Streak) {
    st == After(turns, |turns|, threshold) && forall i | 0 <= i < |turns| :: |turns[i].names| > 0
  }

  lemma {:induction false} AfterPrefix(turns: seq<Turn>, turn: Turn, n: nat, threshold: int)
    requires n <= |turns|
    ensures After(turns + [turn], n, threshold) == After(turns, n, threshold)
  {
    if n > 0 {
      AfterPrefix(turns, turn, n - 1, threshold);
    }
  }

  /** The detector's answer to one more turn is told by that turn's place in its streak. */
  lemma DetectorIsTold(turns: seq<Turn>, turn: Turn, threshold: int, st: Streak, p: nat)
    requires Watches(turns, threshold, st) && |turn.names| > 0 && InStreak(turns, turn, p)
    ensures Watches(turns + [turn], threshold, Update(st, turn, threshold).0)
    ensures Update(st, turn, threshold).1
         == if threshold <= 0 || p < threshold then Proceed else if p == threshold then Warn else Terminate
    ensures threshold > 0 && p >= threshold ==> Unknown(turn).Some? && Update(st, turn, threshold).0.current == Unknown(turn)
  {
    var all, n := turns + [turn], |turns|;
    AfterPrefix(turns, turn, n, threshold);
    assert ActionAt(all, n, threshold) == Update(st, turn, threshold).1;
    if threshold > 0 {
      ActionByPosition(all, n, p, threshold);
    }
  }

  lemma {:induction false} PlaceIsTold(c: Config, m: Memory, turns: seq<Turn>, t: Input, p: nat)
    requires t.stream.ending.Complete? && t.stream.ending.calls != [] && Watches(turns, c.threshold, m.streak)
    requires InStreak(turns, TurnRead(t), p)
    ensures var o := ToolTurn(c, m, t.stream, t.stream.ending.calls, t.world); ToldAtPlace(c, t, o.piece, o.end, p)
  {
    assert TurnRead(t) == TurnOf(t.stream.ending.calls, t.world);
    DetectorIsTold(turns, TurnRead(t), c.threshold, m.streak, p);
  }

  lemma {:induction false} CallsAreTold(c: Config, m: Memory, turns: seq<Turn>, t: Input)
    requires t.stream.ending.Complete? && t.stream.ending.calls != [] && Watches(turns, c.threshold, m.streak)
    ensures var o := ToolTurn(c, m, t.stream, t.stream.ending.calls, t.world); ToldCalls(c, turns, t, o.piece, o.end)
  {
    var o := ToolTurn(c, m, t.stream, t.stream.ending.calls, t.world);
    forall p: nat | InStreak(turns, TurnRead(t), p)
      ensures ToldAtPlace(c, t, o.piece, o.end, p)
    {
      PlaceIsTold(c, m, turns, t, p);
    }
  }

  lemma {:induction false} StillWatches(c: Config, m: Memory, turns: seq<Turn>, t: Input)
    requires t.stream.ending.Complete? && t.stream.ending.calls != [] && Watches(turns, c.threshold, m.streak)
    ensures var o := ToolTurn(c, m, t.stream, t.stream.ending.calls, t.world);
            Watches(turns + [TurnRead(t)], c.threshold, o.memory.streak)
  {
    assert TurnRead(t) == TurnOf(t.stream.ending.calls, t.world);
    var p := StreakLength(turns + [TurnRead(t)], |turns| + 1);
    StreakLengthIsMaximal(turns + [TurnRead(t)], |turns| + 1, p);
    DetectorIsTold(turns, TurnRead(t), c.threshold, m.streak, p);
  }

  lemma BehindRequest(before: seq<Msg>, request: Msg, said: seq<Msg>, r: Retries)
    requires Agrees(before, r) && request.AssistantSays? && forall i | 0 <= i < |said| :: !said[i].Nudge?
    ensures Agrees(before + ([request] + said), if SomeExecuted(said, |said|) then NoRetries else r)
  {
    var b := [request] + said;
    assert forall i | 0 <= i < |said| :: b[i+1] == said[i];
    assert SomeExecuted(b, |b|) <==> SomeExecuted(said, |said|);
    QuietAgrees(before, b, r);
  }

  lemma CallsCount(c: Config, m: Memory, before: seq<Msg>, t: Input)
    requires t.stream.ending.Complete? && t.stream.ending.calls != [] && Agrees(before, m.retries)
    ensures var o := ToolTurn(c, m, t.stream, t.stream.ending.calls, t.world);
            Agrees(before + o.piece.said, o.memory.retries)
  {
    var calls, w := t.stream.ending.calls, t.world;
    var request := AssistantSays(Joined(t.stream.texts), calls, false);
    match Update(m.streak, TurnOf(calls, w), c.threshold).1
    case Terminate =>
      BehindRequest(before, request, [], m.retries);
      assert [request] + [] == [request];
    case Warn =>
      var name := if Update(m.streak, TurnOf(calls, w), c.threshold).0.current.Some? then Update(m.streak, TurnOf(calls, w), c.threshold).0.current.value else "";
      BehindRequest(before, request, [Guidance(name)], m.retries);
      assert [request] + [Guidance(name)] == [request, Guidance(name)];
    case Proceed =>
      PhaseExecutes(calls, w);
      BehindRequest(before, request, Phase(calls, w).said, m.retries);
  }

  /** The loop's memory agrees with the transcript and the turns. */
  predicate Recalls(c: Config, before: seq<Msg>, turns: seq<Turn>, m: Memory) {
    Agrees(before, m.retries) && Watches(turns, c.threshold, m.streak)
  }

  function TurnsWith(turns: seq<Turn>, t: Input): seq<Turn> {
    turns + if Streams(t) && t.stream.ending.Complete? && t.stream.ending.calls != [] then [TurnRead(t)] else []
  }

  lemma {:induction false} IterationIsTold(c: Config, m: Memory, before: seq<Msg>, turns: seq<Turn>, t: Input)
    requires Recalls(c, before, turns, m)
    ensures var o := Iteration(c, m, t);
            && Told(c, before, turns, t, o.piece, o.end)
            && (o.end.None? ==> Recalls(c, before + o.piece.said, TurnsWith(turns, t), o.memory))
  {
    var o := Iteration(c, m, t);
    assert turns + [] == turns;
    if !Streams(t) {
      EarlyIsTold(c, m, t);
      QuietAgrees(before, o.piece.said, m.retries);
    } else if !t.stream.ending.Complete? {
      BrokenIsTold(c, m, t);
      QuietAgrees(before, o.piece.said, m.retries);
    } else if t.stream.ending.calls == [] {
      PlainIsTold(c, m, before, t);
    } else {
      CallsAreTold(c, m, turns, t);
      StillWatches(c, m, turns, t);
      CallsCount(c, m, before, t);
    }
  }

  // ---- The whole run ----

  /** The loop takes its steps as told, whenever its memory recalls what went before. */
  ghost predicate Tells(c: Config, step: Step) {
    forall m, t, before, turns | Recalls(c, before, turns, m) ::
      && Told(c, before, turns, t, step(m, t).piece, step(m, t).end)
      && (step(m, t).end.None? ==> Recalls(c, before + step(m, t).piece.said, TurnsWith(turns, t), step(m, t).memory))
  }

  lemma LoopTells(c: Config)
    ensures Tells(c, StepOf(c))
  {
    forall m, t, before, turns | Recalls(c, before, turns, m)
      ensures Told(c, before, turns, t, StepOf(c)(m, t).piece, StepOf(c)(m, t).end)
      ensures StepOf(c)(m, t).end.None? ==> Recalls(c, before + StepOf(c)(m, t).piece.said, TurnsWith(turns, t), StepOf(c)(m, t).memory)
    {
      IterationIsTold(c, m, before, turns, t);
    }
  }

  lemma ToldOnce(c: Config, step: Step, m: Memory, t: Input, before: seq<Msg>, turns: seq<Turn>)
    requires Tells(c, step) && Recalls(c, before, turns, m)
    ensures Told(c, before, turns, t, step(m, t).piece, step(m, t).end)
    ensures step(m, t).end.None? ==> Recalls(c, before + step(m, t).piece.said, TurnsWith(turns, t), step(m, t).memory)
  {
  }

  lemma {:induction false} RunRecalls(c: Config, step: Step, user: Content, inputs: seq<Input>, n: nat)
    requires n <= |inputs| && Tells(c, step)
    ensures var p := RunAfter(step, user, inputs, n);
            p.end.None? ==> Recalls(c, p.piece.said, Turns(inputs, n), p.memory)
  {
    if n > 0 {
      RunRecalls(c, step, user, inputs, n - 1);
      var p := RunAfter(step, user, inputs, n - 1);
      if p.end.None? {
        ToldOnce(c, step, p.memory, inputs[n-1], p.piece.said, Turns(inputs, n - 1));
      }
    } else {
      NothingNudged(user);
    }
  }

  lemma NothingNudged(user: Content)
    ensures Agrees([UserSays(user)], NoRetries)
  {
    NoNudges([UserSays(user)], Planning, 1);
    NoNudges([UserSays(user)], Reasoning, 1);
    NoNudges([UserSays(user)], Empty, 1);
  }

  /** Iteration `n` of a run that is still going adds what is told of its input. */
  lemma IterationOfRun(c: Config, step: Step, user: Content, inputs: seq<Input>, n: nat) returns (b: Piece)
    requires n < |inputs| && Tells(c, step) && RunAfter(step, user, inputs, n).end.None?
    ensures RunAfter(step, user, inputs, n + 1).piece == Added(RunAfter(step, user, inputs, n).piece, b)
    ensures Told(c, RunAfter(step, user, inputs, n).piece.said, Turns(inputs, n), inputs[n], b, RunAfter(step, user, inputs, n + 1).end)
  {
    RunRecalls(c, step, user, inputs, n);
    var p := RunAfter(step, user, inputs, n);
    b := step(p.memory, inputs[n]).piece;
    ToldOnce(c, step, p.memory, inputs[n], p.piece.said, Turns(inputs, n));
  }

  /** The number of iterations a run goes through. */
  function Length(step: Step, user: Content, inputs: seq<Input>, n: nat): nat
    requires n <= |inputs|
  {
    if n == 0 then 0
    else if RunAfter(step, user, inputs, n - 1).end.Some? then Length(step, user, inputs, n - 1) else n
  }

  lemma {:induction false} GoesOnUntil(step: Step, user: Content, inputs: seq<Input>, n: nat)
    requires n <= |inputs|
    ensures var k := Length(step, user, inputs, n);
            && k <= n && RunAfter(step, user, inputs, n) == RunAfter(step, user, inputs, k)
            && (k > 0 ==> RunAfter(step, user, inputs, k - 1).end.None?)
            && (RunAfter(step, user, inputs, n).end.None? ==> k == n)
  {
    if n > 0 {
      GoesOnUntil(step, user, inputs, n - 1);
    }
  }

  /** How the `k`-th and last iteration left the run: ended by its input, or with none left to go. */
  ghost predicate EndsAsTold(c: Config, last: Progress, whole: Progress, turns: seq<Turn>, t: Input, b: Piece) {
    && last.end.None? && Told(c, last.piece.said, turns, t, b, whole.end)
    && whole.piece == Added(last.piece, b)
  }

  lemma EndedByInput(c: Config, step: Step, user: Content, inputs: seq<Input>, n: nat, whole: Progress) returns (b: Piece)
    requires n < |inputs| && Tells(c, step)
    requires RunAfter(step, user, inputs, n).end.None? && whole == RunAfter(step, user, inputs, n + 1)
    ensures EndsAsTold(c, RunAfter(step, user, inputs, n), whole, Turns(inputs, n), inputs[n], b)
  {
    b := IterationOfRun(c, step, user, inputs, n);
  }

  /** The run has used up its iterations. */
  ghost predicate RanOut(last: Progress, whole: Progress) {
    && last.end.None? && whole.end == Some("max_iterations")
    && whole.piece == Added(last.piece, Piece([], [ErrorEvent("max_iterations")], []))
  }

  /** The run as a whole, from where its last iteration left it. */
  ghost predicate Closes(last: Progress, whole: Progress) {
    if last.end.Some? then whole == last else RanOut(last, whole)
  }

  lemma WholeCloses(c: Config, user: Content, inputs: seq<Input>)
    requires Bound(c) <= |inputs|
    ensures Closes(RunAfter(StepOf(c), user, inputs, Bound(c)), WholeRun(c, user, inputs))
  {
  }

  /** Iteration `k` was the last, and its input ended the run; or the run has run out. */
  ghost predicate Explained(c: Config, step: Step, user: Content, inputs: seq<Input>, bound: nat, whole: Progress, k: nat, b: Piece)
    requires bound <= |inputs|
  {
    && k <= bound
    && if whole.end == Some("max_iterations") && k == bound && RunAfter(step, user, inputs, k).end.None? then RanOut(RunAfter(step, user, inputs, k), whole)
       else k > 0 && EndsAsTold(c, RunAfter(step, user, inputs, k - 1), whole, Turns(inputs, k - 1), inputs[k-1], b)
  }

  lemma EndIsExplained(c: Config, step: Step, user: Content, inputs: seq<Input>, bound: nat, whole: Progress) returns (k: nat, b: Piece)
    requires bound <= |inputs| && Tells(c, step) && Closes(RunAfter(step, user, inputs, bound), whole)
    ensures Explained(c, step, user, inputs, bound, whole, k, b)
  {
    k := Length(step, user, inputs, bound);
    GoesOnUntil(step, user, inputs, bound);
    b := Nothing;
    if RunAfter(step, user, inputs, bound).end.Some? {
      var n: nat := k - 1;
      b := EndedByInput(c, step, user, inputs, n, whole);
    }
  }

  /**
   Why a run ends: by the input of its last iteration, whose code it reports, or else, with no
   iteration left, by the limit.
   */
  lemma RunEndsAsTold(c: Config, user: Content, inputs: seq<Input>) returns (k: nat, b: Piece)
    requires Bound(c) <= |inputs|
    ensures Explained(c, StepOf(c), user, inputs, Bound(c), WholeRun(c, user, inputs), k, b)
  {
    LoopTells(c);
    WholeCloses(c, user, inputs);
    k, b := EndIsExplained(c, StepOf(c), user, inputs, Bound(c), WholeRun(c, user, inputs));
  }

  // ---- Replies and nudges in the transcript ----

  /** The reply at `i` is nudged on while there is room, else it is the answer and the last message. */
  predicate ReplyRead(c: Config, said: seq<Msg>, end: Option<string>, i: nat)
    requires i < |said| && Plain(said[i])
  {
    var k := c.classify(said[i].text);
    if Room(c, said, i, k) then i + 1 < |said| && said[i+1] == Nudge(k) else i == |said| - 1 && end == Some("done")
  }

  predicate NudgeRead(c: Config, said: seq<Msg>, i: nat)
    requires i < |said| && said[i].Nudge?
  {
    i > 0 && Plain(said[i-1]) && said[i].kind == c.classify(said[i-1].text)
  }

  predicate AllRead(c: Config, said: seq<Msg>, end: Option<string>) {
    && (forall i: nat | i < |said| && Plain(said[i]) :: ReplyRead(c, said, end, i))
    && (forall i: nat | i < |said| && said[i].Nudge? :: NudgeRead(c, said, i))
  }

  predicate NoReplies(b: seq<Msg>) {
    forall i | 0 <= i < |b| :: !Plain(b[i]) && !b[i].Nudge?
  }

  lemma {:induction false} RoomPrefix(c: Config, a: seq<Msg>, b: seq<Msg>, n: nat, k: Kind)
    requires n <= |a|
    ensures Room(c, a + b, n, k) <==> Room(c, a, n, k)
  {
    NudgesPrefix(a, b, Planning, n);
    NudgesPrefix(a, b, Reasoning, n);
    NudgesPrefix(a, b, Empty, n);
  }

  lemma OldStaysRead(c: Config, a: seq<Msg>, b: seq<Msg>, end: Option<string>)
    requires AllRead(c, a, None)
    ensures forall i: nat | i < |a| && Plain(a[i]) :: ReplyRead(c, a + b, end, i)
    ensures forall i: nat | i < |a| && a[i].Nudge? :: NudgeRead(c, a + b, i)
  {
    forall i: nat | i < |a| && Plain(a[i])
      ensures ReplyRead(c, a + b, end, i)
    {
      assert ReplyRead(c, a, None, i);
      RoomPrefix(c, a, b, i, c.classify(a[i].text));
    }
    forall i: nat | i < |a| && a[i].Nudge?
      ensures NudgeRead(c, a + b, i)
    {
      assert NudgeRead(c, a, i);
    }
  }

  lemma OthersAreRead(c: Config, a: seq<Msg>, b: seq<Msg>, end: Option<string>)
    requires AllRead(c, a, None) && NoReplies(b)
    ensures AllRead(c, a + b, end)
  {
    OldStaysRead(c, a, b, end);
    assert forall i | |a| <= i < |a + b| :: (a + b)[i] == b[i - |a|];
  }

  lemma PlainIsRead(c: Config, a: seq<Msg>, b: Piece, end: Option<string>, t: Input)
    requires AllRead(c, a, None) && ToldPlain(c, a, t, b, end)
    ensures AllRead(c, a + b.said, end)
  {
    OldStaysRead(c, a, b.said, end);
    RoomPrefix(c, a, b.said, |a|, c.classify(Joined(t.stream.texts)));
    assert (a + b.said)[|a|] == b.said[0];
  }

  lemma CallsAreNoReplies(c: Config, turns: seq<Turn>, t: Input, b: Piece, end: Option<string>)
    requires t.stream.ending.Complete? && t.stream.ending.calls != [] && ToldCalls(c, turns, t, b, end)
    ensures NoReplies(b.said)
  {
    var all := turns + [TurnRead(t)];
    var p := StreakLength(all, |all|);
    StreakLengthIsMaximal(all, |all|, p);
    assert InStreak(turns, TurnRead(t), p);
    PhaseExecutes(t.stream.ending.calls, t.world);
  }

  lemma ToldIsRead(c: Config, a: seq<Msg>, turns: seq<Turn>, t: Input, b: Piece, end: Option<string>)
    requires AllRead(c, a, None) && Told(c, a, turns, t, b, end)
    ensures AllRead(c, a + b.said, end)
  {
    if Streams(t) && t.stream.ending.Complete? && t.stream.ending.calls == [] {
      PlainIsRead(c, a, b, end, t);
    } else {
      if Streams(t) && t.stream.ending.Complete? {
        CallsAreNoReplies(c, turns, t, b, end);
      }
      OthersAreRead(c, a, b.said, end);
    }
  }

  lemma {:induction false} ReadSoFar(c: Config, step: Step, user: Content, inputs: seq<Input>, n: nat)
    requires n <= |inputs| && Tells(c, step)
    ensures var p := RunAfter(step, user, inputs, n); AllRead(c, p.piece.said, p.end)
  {
    if n > 0 {
      ReadSoFar(c, step, user, inputs, n - 1);
      var p := RunAfter(step, user, inputs, n - 1);
      if p.end.None? {
        var b := IterationOfRun(c, step, user, inputs, n - 1);
        ToldIsRead(c, p.piece.said, Turns(inputs, n - 1), inputs[n-1], b, RunAfter(step, user, inputs, n).end);
      }
    }
  }

  /**
   In the transcript of a whole run every complete reply without calls is followed by a nudge of
   its own kind exactly while fewer of that kind than its limit stand since the last execution;
   otherwise it is the last message and the run is done. Nudges stand nowhere else.
   */
  lemma RepliesAreNudged(c: Config, user: Content, inputs: seq<Input>)
    requires Bound(c) <= |inputs|
    ensures var p := WholeRun(c, user, inputs); AllRead(c, p.piece.said, p.end)
  {
    LoopTells(c);
    ReadSoFar(c, StepOf(c), user, inputs, Bound(c));
    var p := RunAfter(StepOf(c), user, inputs, Bound(c));
    assert p.piece.said + [] == p.piece.said;
    if p.end.None? {
      OthersAreRead(c, p.piece.said, [], Some("max_iterations"));
    }
  }

  // ---- Streamed text ----

  /** The text of a reply is its chunks put together, in order. */
  lemma {:induction false} TextIsJoined(a: seq<string>, b: seq<string>, x: string)
    ensures Joined([]) == "" && Joined([x]) == x
    ensures Joined(a + b) == Joined(a) + Joined(b)
    decreases |b|
  {
    assert [x][..0] == [];
    if b == [] {
      assert a + b == a;
    } else {
      TextIsJoined(a, b[..|b|-1], x);
      assert (a + b)[..|a + b|-1] == a + b[..|b|-1];
    }
  }
}
