/**
 One iteration of the agent loop as a function of what the outside world answers in it: the
 clock, the abort flag, the context engine, the model's stream, the approval hook, the tools.
 */
module RunModel {
  import opened Prelude
  import opened Approval
  import opened ToolPhase
  import opened ToolLoop
  import SessionObject
  import SessionTree
  import PyText

  type CompactResult = SessionObject.CompactResult
  type Content = SessionTree.Content
  type Block = SessionTree.Block

  /** What a run adds to the session, in the terms of the loop. */
  datatype Msg =
    | UserSays(content: Content)
    | AssistantSays(text: string, calls: seq<ToolCall>, partial: bool)
    | ToolSays(answer: Answer)
    | Nudge(kind: Kind)
    | Guidance(name: string)
    | Compacted(summary: string, tokensBefore: int)

  /** The user's entry: the text, or the attachments followed by the text unless that is blank. */
  function UserContent(text: string, attachments: seq<Block>): Content {
    if attachments == [] then SessionTree.Text(text)
    else SessionTree.Blocks(attachments + if PyText.Blank(text) then [] else [SessionTree.TextBlock(text)])
  }

  datatype Event =
    | TextChunk(text: string)
    | ToolCallStart(callId: string)
    | ApprovalRequest(callId: string, tool: string)
    | ToolCallEnd(answer: Answer)
    | Done(text: string)
    | ErrorEvent(code: string)

  predicate Terminal(e: Event) {
    e.Done? || e.ErrorEvent?
  }

  datatype Kind = Planning | Reasoning | Empty | Fine

  datatype Retries = Retries(planning: nat, reasoning: nat, empty: nat)

  const NoRetries := Retries(0, 0, 0)

  datatype Config = Config(maxIterations: int, planningLimit: int, reasoningLimit: int, emptyLimit: int,
                           threshold: int, classify: string -> Kind)

  datatype Ending = Complete(calls: seq<ToolCall>) | StreamTimeout | StreamAbort | LlmFailure(code: string, result: CompactResult)

  /** The texts streamed before the stream ended, none of them empty in the source. */
  datatype Stream = Stream(texts: seq<string>, ending: Ending)

  /** The outside world during the tool phase: the hook's ruling on the k-th gated call, the output of each call. */
  datatype World = World(setting: Setting, rulings: nat -> Ruling, outputs: nat -> string)

  datatype Input = Input(timedOut: bool, aborted: bool, pretrim: Option<CompactResult>, noTimeLeft: bool,
                         stream: Stream, world: World)

  /** What an iteration adds to the session, the event stream and the audit log. */
  datatype Piece = Piece(said: seq<Msg>, events: seq<Event>, audit: seq<Record>)

  const Nothing := Piece([], [], [])

  datatype Memory = Memory(retries: Retries, streak: Streak)
  datatype Outcome = Outcome(piece: Piece, memory: Memory, end: Option<string>)

  function Joined(texts: seq<string>): string {
    if texts == [] then "" else Joined(texts[..|texts|-1]) + texts[|texts|-1]
  }

  function Chunks(texts: seq<string>): seq<Event> {
    seq(|texts|, i requires 0 <= i < |texts| => TextChunk(texts[i]))
  }

  // ---- Compaction, as the loop sees it ----

  datatype Compaction = Failed(code: string) | Shrunk(summary: string, tokensBefore: int) | Unchanged

  function CompactionOf(r: CompactResult): Compaction {
    match r
    case Raised(_) => Failed("compaction_failed")
    case Report(ok, compacted, summary, tokensBefore, reasonCode) =>
      if !ok then Failed(if reasonCode != "" then reasonCode else "compaction_failed")
      else if compacted && summary != "" then Shrunk(summary, tokensBefore)
      else Unchanged
  }

  // ---- Turns without tool calls ----

  function LimitFor(c: Config, k: Kind): int {
    match k
    case Planning => c.planningLimit
    case Reasoning => c.reasoningLimit
    case Empty => c.emptyLimit
    case Fine => 0
  }

  function CountFor(r: Retries, k: Kind): nat {
    match k
    case Planning => r.planning
    case Reasoning => r.reasoning
    case Empty => r.empty
    case Fine => 0
  }

  function CountUp(r: Retries, k: Kind): Retries {
    match k
    case Planning => r.(planning := r.planning + 1)
    case Reasoning => r.(reasoning := r.reasoning + 1)
    case Empty => r.(empty := r.empty + 1)
    case Fine => r
  }

  predicate Retry(c: Config, r: Retries, k: Kind) {
    k != Fine && LimitFor(c, k) > 0 && CountFor(r, k) < LimitFor(c, k)
  }

  function PlainTurn(c: Config, m: Memory, s: Stream): Outcome {
    var text := Joined(s.texts);
    var k := c.classify(text);
    var reply := AssistantSays(text, [], false);
    if Retry(c, m.retries, k) then
      Outcome(Piece([reply, Nudge(k)], Chunks(s.texts), []), m.(retries := CountUp(m.retries, k)), None)
    else
      Outcome(Piece([reply], Chunks(s.texts) + [Done(text)], []), m, Some("done"))
  }

  // ---- Turns with tool calls ----

  function Starts(calls: seq<ToolCall>): seq<Event> {
    seq(|calls|, i requires 0 <= i < |calls| => ToolCallStart(calls[i].id))
  }

  function Requests(s: Setting, gated: seq<ToolCall>): seq<Event> {
    seq(|gated|, i requires 0 <= i < |gated| => ApprovalRequest(gated[i].id, Evaluate(s, gated[i].name).name))
  }

  function Finishes(answers: seq<Answer>): seq<Event> {
    seq(|answers|, i requires 0 <= i < |answers| => ToolCallEnd(answers[i]))
  }

  function Spoken(answers: seq<Answer>): seq<Msg> {
    seq(|answers|, i requires 0 <= i < |answers| => ToolSays(answers[i]))
  }

  function GatedCalls(s: Setting, calls: seq<ToolCall>): seq<ToolCall> {
    Pick(calls, GatedAt(s, calls), true, |calls|)
  }

  function Blocking(calls: seq<ToolCall>, w: World): nat -> bool
  {
    BlockedAt(w.setting, calls, w.rulings)
  }

  /** Some call is executed. */
  predicate AnyExecuted(calls: seq<ToolCall>, blocked: nat -> bool) {
    exists i: nat | i < |calls| :: !RefusedAt(calls, blocked)(i)
  }

  function Phase(calls: seq<ToolCall>, w: World): Piece
  {
    var answers := Answers(calls, Blocking(calls, w), w.outputs);
    Piece(Spoken(answers),
          Starts(calls) + (if w.setting.gate.Some? then Requests(w.setting, GatedCalls(w.setting, calls)) else []) + Finishes(answers),
          Audit(w.setting, calls, w.rulings))
  }

  function TurnOf(calls: seq<ToolCall>, w: World): Turn {
    Turn(seq(|calls|, i requires 0 <= i < |calls| => calls[i].name), w.setting.registry)
  }

  function ToolTurn(c: Config, m: Memory, s: Stream, calls: seq<ToolCall>, w: World): Outcome
  {
    var (streak, action) := Update(m.streak, TurnOf(calls, w), c.threshold);
    var request := AssistantSays(Joined(s.texts), calls, false);
    match action
    case Terminate => Outcome(Piece([request], Chunks(s.texts) + [ErrorEvent("tool_loop")], []), Memory(m.retries, streak), Some("tool_loop"))
    case Warn =>
      var name := if streak.current.Some? then streak.current.value else "";
      Outcome(Piece([request, Guidance(name)], Chunks(s.texts), []), Memory(m.retries, streak), None)
    case Proceed =>
      var p := Phase(calls, w);
      var retries := if AnyExecuted(calls, Blocking(calls, w)) then NoRetries else m.retries;
      Outcome(Piece([request] + p.said, Chunks(s.texts) + p.events, p.audit), Memory(retries, streak), None)
  }

  // ---- The whole iteration ----

  function Abandon(m: Memory, events: seq<Event>, said: seq<Msg>, code: string): Outcome {
    Outcome(Piece(said, events + [ErrorEvent(code)], []), m, Some(code))
  }

  function Partial(s: Stream): seq<Msg> {
    if Joined(s.texts) == "" then [] else [AssistantSays(Joined(s.texts), [], true)]
  }

  function AfterStream(c: Config, m: Memory, t: Input): Outcome
  {
    var s := t.stream;
    match s.ending
    case Complete(calls) => if calls == [] then PlainTurn(c, m, s) else ToolTurn(c, m, s, calls, t.world)
    case StreamTimeout => Abandon(m, Chunks(s.texts), Partial(s), "timeout")
    case StreamAbort => Abandon(m, Chunks(s.texts), Partial(s), "aborted")
    case LlmFailure(code, result) =>
      var compaction := if code == "context_overflow" then CompactionOf(result) else Unchanged;
      match compaction
      case Failed(why) => Abandon(m, Chunks(s.texts), Partial(s), why)
      case Shrunk(summary, tokens) => Outcome(Piece([Compacted(summary, tokens)], Chunks(s.texts), []), m, None)
      case Unchanged => Abandon(m, Chunks(s.texts), Partial(s), code)
  }

  function Iteration(c: Config, m: Memory, t: Input): Outcome
  {
    if t.timedOut then Abandon(m, [], [], "timeout")
    else if t.aborted then Abandon(m, [], [], "aborted")
    else
      match if t.pretrim.Some? then CompactionOf(t.pretrim.value) else Unchanged
      case Failed(why) => Abandon(m, [], [], why)
      case Shrunk(summary, tokens) => Outcome(Piece([Compacted(summary, tokens)], [], []), m, None)
      case Unchanged => if t.noTimeLeft then Abandon(m, [], [], "timeout") else AfterStream(c, m, t)
  }

  // ---- The whole run ----

  datatype Progress = Progress(piece: Piece, memory: Memory, end: Option<string>)

  function Added(a: Piece, b: Piece): Piece {
    Piece(a.said + b.said, a.events + b.events, a.audit + b.audit)
  }

  type Step = (Memory, Input) -> Outcome

  function StepOf(c: Config): Step {
    (m: Memory, t: Input) => Iteration(c, m, t)
  }

  /** The state after at most `n` iterations. */
  function RunAfter(step: Step, user: Content, inputs: seq<Input>, n: nat): Progress
    requires n <= |inputs|
  {
    if n == 0 then Progress(Piece([UserSays(user)], [], []), Memory(NoRetries, IDLE), None)
    else
      var p := RunAfter(step, user, inputs, n - 1);
      if p.end.Some? then p
      else
        var o := step(p.memory, inputs[n-1]);
        Progress(Added(p.piece, o.piece), o.memory, o.end)
  }

  function Bound(c: Config): nat {
    if c.maxIterations > 0 then c.maxIterations else 0
  }

  const OUT_OF_ITERATIONS := "max_iterations"

  function WholeRun(c: Config, user: Content, inputs: seq<Input>): Progress
    requires Bound(c) <= |inputs|
  {
    var p := RunAfter(StepOf(c), user, inputs, Bound(c));
    if p.end.Some? then p
    else Progress(Added(p.piece, Piece([], [ErrorEvent(OUT_OF_ITERATIONS)], [])), p.memory, Some(OUT_OF_ITERATIONS))
  }
}
