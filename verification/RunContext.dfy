/** What the model is shown of the session a run has grown. */
module RunContext {
  import opened Prelude
  import opened SessionTree
  import opened SessionContext
  import opened ContextShown
  import opened RunModel
  import opened RunTree
  import opened RunAnswers
  import ToolLoop
  import SessionObject

  /** How a message of the run looks to the model. */
  ghost predicate Presents(x: LlmMessage, m: Msg, w: Wording) {
    match m
    case UserSays(content) => x.role == User && x.toolCalls == [] && x.toolCallId == "" && ShowsContent(x.content, User, content)
    case AssistantSays(text, calls, _) => x == LlmMessage(Assistant, Plain(text), calls, "")
    case ToolSays(answer) => x == LlmMessage(Role.Tool, Parts([TextPart(w(m))]), [], answer.callId)
    case Compacted(_, _) => false
    case _ => x == LlmMessage(User, Plain(w(m)), [], "")
  }

  lemma RecordIsPresented(e: Entry, m: Msg, w: Wording)
    requires Records(e, m, w) && !m.Compacted?
    ensures e.Message? && Presents(ToLlm(e), m, w)
  {
    EntryIsShown(e);
  }

  /** The last compaction among the first `n` messages. */
  function LastCompacted(said: seq<Msg>, n: nat): (j: Option<nat>)
    requires n <= |said|
    ensures j.Some? ==> j.value < n && said[j.value].Compacted?
  {
    if n == 0 then None else if said[n-1].Compacted? then Some(n - 1) else LastCompacted(said, n - 1)
  }

  /** The context from position `h` on presents the messages from `lo` on, one for one. */
  ghost predicate PresentsFrom(ctx: seq<LlmMessage>, h: nat, said: seq<Msg>, lo: nat, n: nat, w: Wording) {
    && n <= |said| && lo <= n && |ctx| == h + n - lo
    && forall i: nat | lo <= i < n :: Presents(ctx[h + i - lo], said[i], w)
  }

  /** Behind a compaction: the summary, and the message right before it unless that is a compaction too. */
  ghost predicate Resumes(ctx: seq<LlmMessage>, said: seq<Msg>, j: nat, w: Wording)
    requires 0 < j < |said| && said[j].Compacted?
  {
    && 1 <= |ctx| && ctx[0] == LlmMessage(Assistant, Plain("[Previous conversation summary]\n" + said[j].summary), [], "")
    && (!said[j-1].Compacted? ==> 2 <= |ctx| && Presents(ctx[1], said[j-1], w))
  }

  function Resumed(said: seq<Msg>, j: nat): nat
    requires 0 < j < |said|
  {
    if said[j-1].Compacted? then 1 else 2
  }

  /** What the model is shown after the first `n` messages. */
  ghost predicate ContextAfter(ctx: seq<LlmMessage>, before: seq<LlmMessage>, said: seq<Msg>, n: nat, w: Wording)
    requires n <= |said| && (said != [] ==> !said[0].Compacted?)
  {
    match LastCompacted(said, n)
    case None => |before| <= |ctx| && ctx[..|before|] == before && PresentsFrom(ctx, |before|, said, 0, n, w)
    case Some(j) => Resumes(ctx, said, j, w) && PresentsFrom(ctx, Resumed(said, j), said, j + 1, n, w)
  }

  lemma OneMessageMore(ctx: seq<LlmMessage>, before: seq<LlmMessage>, said: seq<Msg>, n: nat, w: Wording, x: LlmMessage)
    requires n < |said| && !said[0].Compacted? && ContextAfter(ctx, before, said, n, w)
    requires !said[n].Compacted? && Presents(x, said[n], w)
    ensures ContextAfter(ctx + [x], before, said, n + 1, w)
  {
    if LastCompacted(said, n).None? {
      assert (ctx + [x])[..|before|] == ctx[..|before|];
    }
  }

  lemma CompactionMore(before: seq<LlmMessage>, said: seq<Msg>, n: nat, w: Wording, kept: seq<LlmMessage>)
    requires 0 < n < |said| && !said[0].Compacted? && said[n].Compacted?
    requires if said[n-1].Compacted? then kept == [] else |kept| == 1 && Presents(kept[0], said[n-1], w)
    ensures ContextAfter([Summary(said[n].summary)] + kept, before, said, n + 1, w)
  {
    assert LastCompacted(said, n + 1) == Some(n);
  }

  ghost function Context(t: Tree): seq<LlmMessage>
    requires RunnerBuilt(t)
  {
    RunnerBranch(t);
    ContextOf(BranchOf(t))
  }

  lemma LastRecord(t: Tree, base: Tree, said: seq<Msg>, w: Wording, n: nat) returns (e: Entry)
    requires 0 < n <= |said| && RunnerBuilt(base) && GrewTo(t, base, said, w, n)
    ensures Ends(t.entries, t.leaf)
    ensures BranchOf(t) != [] && BranchOf(t)[|BranchOf(t)|-1] == e && Records(e, said[n-1], w)
  {
    RunnerBranch(t);
    var log := LogOf(t);
    e := log[|log|-1];
    assert Records(log[|LogOf(base)| + (n - 1)], said[n-1], w);
  }

  /** What the model is shown of `t`, which has grown from `base` by the first `n` messages. */
  ghost predicate SeenAfter(t: Tree, base: Tree, said: seq<Msg>, n: nat, w: Wording)
    requires n <= |said| && (said != [] ==> !said[0].Compacted?)
  {
    RunnerBuilt(t) && RunnerBuilt(base) && ContextAfter(Context(t), Context(base), said, n, w)
  }

  lemma SeenAfterMessage(t: Tree, base: Tree, said: seq<Msg>, w: Wording, n: nat, id: Id)
    requires n < |said| && !said[0].Compacted? && SeenAfter(t, base, said, n, w)
    requires id !in t.entries && id != NoId && !said[n].Compacted?
    ensures SeenAfter(Appended(t, EntryOf(said[n], id, t.leaf, w)), base, said, n + 1, w)
  {
    var e := EntryOf(said[n], id, t.leaf, w);
    assert Records(e, said[n], w);
    RecordIsPresented(e, said[n], w);
    RunnerStaysBuilt(t, e);
    RunnerContextGrows(t, e);
    OneMessageMore(Context(t), Context(base), said, n, w, ToLlm(e));
  }

  lemma SeenAfterCompaction(t: Tree, base: Tree, said: seq<Msg>, w: Wording, n: nat, id: Id)
    requires n < |said| && !said[0].Compacted? && SeenAfter(t, base, said, n, w) && GrewTo(t, base, said, w, n)
    requires id !in t.entries && id != NoId && said[n].Compacted?
    ensures SeenAfter(Appended(t, EntryOf(said[n], id, t.leaf, w)), base, said, n + 1, w)
  {
    var e := EntryOf(said[n], id, t.leaf, w);
    RunnerStaysBuilt(t, e);
    var last := LastRecord(t, base, said, w, n);
    RunnerCompactionResets(t, e);
    if said[n-1].Compacted? {
      CompactionMore(Context(base), said, n, w, []);
    } else {
      RecordIsPresented(last, said[n-1], w);
      CompactionMore(Context(base), said, n, w, [ToLlm(last)]);
    }
  }

  lemma SeenOnce(t: Tree, base: Tree, said: seq<Msg>, w: Wording, n: nat, id: Id)
    requires n < |said| && !said[0].Compacted? && SeenAfter(t, base, said, n, w) && GrewTo(t, base, said, w, n)
    requires id !in t.entries && id != NoId
    ensures SeenAfter(Appended(t, EntryOf(said[n], id, t.leaf, w)), base, said, n + 1, w)
  {
    if said[n].Compacted? {
      SeenAfterCompaction(t, base, said, w, n, id);
    } else {
      SeenAfterMessage(t, base, said, w, n, id);
    }
  }

  /** The same after `n` messages, as a property of `n`. */
  ghost function Seen(base: Tree, said: seq<Msg>, ids: seq<Id>, w: Wording): nat -> bool {
    (n: nat) => n <= |said| == |ids| && (said != [] ==> !said[0].Compacted?) && SeenAfter(Grown(base, said, ids, w, n), base, said, n, w)
  }

  lemma SeenAtStart(base: Tree, said: seq<Msg>, ids: seq<Id>, w: Wording)
    requires RunnerBuilt(base) && |ids| == |said| && (said != [] ==> !said[0].Compacted?)
    ensures Seen(base, said, ids, w)(0)
  {
  }

  lemma SeenFurther(base: Tree, said: seq<Msg>, ids: seq<Id>, w: Wording, n: nat)
    requires AllFresh(base, said, ids, w) && n < |said| && Seen(base, said, ids, w)(n)
    ensures Seen(base, said, ids, w)(n + 1)
  {
    LogGrows(base, said, ids, w, n);
    assert FreshAt(base, said, ids, w, n);
    SeenOnce(Grown(base, said, ids, w, n), base, said, w, n, ids[n]);
  }

  lemma {:induction false} SeenOnwards(base: Tree, said: seq<Msg>, ids: seq<Id>, w: Wording, n: nat, end: nat)
    requires AllFresh(base, said, ids, w) && n <= end <= |said| && Seen(base, said, ids, w)(n)
    ensures Seen(base, said, ids, w)(end)
    decreases end - n
  {
    if n < end {
      SeenFurther(base, said, ids, w, n);
      SeenOnwards(base, said, ids, w, n + 1, end);
    }
  }

  /**
   The context of a session a run has grown: without a compaction the context before the run and
   every message of it; after one the summary, the message before it, and every message since.
   */
  lemma ContextOfRun(base: Tree, said: seq<Msg>, ids: seq<Id>, w: Wording, n: nat)
    requires RunnerBuilt(base) && AllFresh(base, said, ids, w) && n <= |said| && (said != [] ==> !said[0].Compacted?)
    ensures SeenAfter(Grown(base, said, ids, w, n), base, said, n, w)
  {
    SeenAtStart(base, said, ids, w);
    SeenOnwards(base, said, ids, w, 0, n);
  }

  // ---- Requests and replies, as the model sees them ----

  function ShownId(x: string): LlmMessage -> bool {
    (m: LlmMessage) => m.toolCallId == x
  }

  /** The message at `p` asks for tools, and the messages right behind it answer its calls, one each. */
  ghost predicate PairedAt(ctx: seq<LlmMessage>, p: nat) {
    && p < |ctx| && ctx[p].toolCalls != [] && p + |ctx[p].toolCalls| < |ctx|
    && (forall q | p < q <= p + |ctx[p].toolCalls| :: ctx[q].role == Role.Tool)
    && (forall x :: All(ctx[p+1..p+1+|ctx[p].toolCalls|], ShownId(x)) == All(ctx[p].toolCalls, HasId(x)))
  }

  lemma RepliesAreShown(shown: seq<LlmMessage>, said: seq<Msg>, w: Wording, x: string)
    requires |shown| == |said| && forall k | 0 <= k < |said| :: said[k].ToolSays? && Presents(shown[k], said[k], w)
    ensures All(shown, ShownId(x)) == All(said, Replies(x))
  {
    TallySame(shown, ShownId(x), said, Replies(x), |said|);
  }

  lemma SliceIsShown(ctx: seq<LlmMessage>, h: nat, said: seq<Msg>, lo: nat, w: Wording, i: nat, shown: seq<LlmMessage>, part: seq<Msg>)
    requires PresentsFrom(ctx, h, said, lo, |said|, w) && lo <= i && i + |part| <= |said| && |shown| == |part|
    requires shown == ctx[h+i-lo..h+i-lo+|part|] && part == said[i..i+|part|]
    ensures forall j | 0 <= j < |part| :: Presents(shown[j], part[j], w)
  {
    forall j | 0 <= j < |part|
      ensures Presents(shown[j], part[j], w)
    {
      assert Presents(ctx[h + (i + j) - lo], said[i + j], w);
    }
  }

  /** A request is shown with its replies exactly when the transcript has them right behind it. */
  lemma ShownAsAnswered(ctx: seq<LlmMessage>, h: nat, said: seq<Msg>, lo: nat, w: Wording, i: nat)
    requires PresentsFrom(ctx, h, said, lo, |said|, w) && lo <= i && Asks(said, i)
    ensures PairedAt(ctx, h + i - lo) <==> AnsweredAt(said, i)
  {
    var p, k := h + i - lo, |said[i].calls|;
    assert Presents(ctx[p], said[i], w) && ctx[p].toolCalls == said[i].calls;
    if i + k < |said| {
      var shown, replies := ctx[p+1..p+1+k], said[i+1..i+1+k];
      SliceIsShown(ctx, h, said, lo, w, i + 1, shown, replies);
      forall j | i < j <= i + k
        ensures ctx[p + j - i].role == Role.Tool <==> said[j].ToolSays?
      {
        assert Presents(ctx[h + j - lo], said[j], w);
      }
      ShownReplies(ctx, p, said, i, k, replies);
      if forall j | 0 <= j < k :: replies[j].ToolSays? {
        forall x
          ensures All(shown, ShownId(x)) == All(replies, Replies(x))
        {
          RepliesAreShown(shown, replies, w, x);
        }
      }
    }
  }

  lemma ShownReplies(ctx: seq<LlmMessage>, p: nat, said: seq<Msg>, i: nat, k: nat, replies: seq<Msg>)
    requires i + k < |said| && p + k < |ctx| && replies == said[i+1..i+1+k]
    requires forall j | i < j <= i + k :: ctx[p + j - i].role == Role.Tool <==> said[j].ToolSays?
    ensures (forall q | p < q <= p + k :: ctx[q].role == Role.Tool) <==> (forall j | i < j <= i + k :: said[j].ToolSays?)
    ensures (forall j | i < j <= i + k :: said[j].ToolSays?) <==> (forall j | 0 <= j < k :: replies[j].ToolSays?)
  {
    if forall q | p < q <= p + k :: ctx[q].role == Role.Tool {
      forall j | i < j <= i + k
        ensures said[j].ToolSays?
      {
        assert ctx[p + j - i].role == Role.Tool;
      }
    }
    if forall j | i < j <= i + k :: said[j].ToolSays? {
      forall q | p < q <= p + k
        ensures ctx[q].role == Role.Tool
      {
        assert said[i + q - p].ToolSays? && ctx[p + (i + q - p) - i].role == Role.Tool;
      }
    }
    if forall j | 0 <= j < k :: replies[j].ToolSays? {
      forall j | i < j <= i + k
        ensures said[j].ToolSays?
      {
        assert replies[j - i - 1] == said[j];
      }
    }
  }

  lemma {:induction false} FirstIsTheUser(step: Step, user: Content, inputs: seq<Input>, n: nat)
    requires n <= |inputs|
    ensures var said := RunAfter(step, user, inputs, n).piece.said; said != [] && said[0] == UserSays(user)
  {
    if n > 0 {
      FirstIsTheUser(step, user, inputs, n - 1);
    }
  }

  /** Where the part of the context starts that presents the run's messages, and the first of these. */
  ghost function Behind(before: seq<LlmMessage>, said: seq<Msg>): (start: (nat, nat))
    requires said != [] && !said[0].Compacted?
    ensures start.1 <= |said|
  {
    match LastCompacted(said, |said|)
    case None => (|before|, 0)
    case Some(j) => (Resumed(said, j), j + 1)
  }

  /**
   The context from `h` on presents the messages from `lo` on; requests among them are followed by
   their replies, one for each call under its id, exactly where the transcript has them.
   */
  ghost predicate Faithfully(ctx: seq<LlmMessage>, h: nat, said: seq<Msg>, lo: nat, w: Wording) {
    && PresentsFrom(ctx, h, said, lo, |said|, w)
    && forall i: nat | lo <= i && Asks(said, i) :: PairedAt(ctx, h + i - lo) <==> AnsweredAt(said, i)
  }

  lemma PresentedIsFaithful(ctx: seq<LlmMessage>, h: nat, said: seq<Msg>, lo: nat, w: Wording)
    requires PresentsFrom(ctx, h, said, lo, |said|, w)
    ensures Faithfully(ctx, h, said, lo, w)
  {
    forall i: nat | lo <= i && Asks(said, i)
      ensures PairedAt(ctx, h + i - lo) <==> AnsweredAt(said, i)
    {
      ShownAsAnswered(ctx, h, said, lo, w, i);
    }
  }

  /** Every message since the last compaction is presented faithfully. */
  lemma ModelSeesTheSession(base: Tree, said: seq<Msg>, ids: seq<Id>, w: Wording)
    requires RunnerBuilt(base) && AllFresh(base, said, ids, w) && said != [] && !said[0].Compacted?
    ensures var t := Grown(base, said, ids, w, |said|);
            && RunnerBuilt(t) && ContextAfter(Context(t), Context(base), said, |said|, w)
            && var start := Behind(Context(base), said);
               Faithfully(Context(t), start.0, said, start.1, w)
  {
    ContextOfRun(base, said, ids, w, |said|);
    var start := Behind(Context(base), said);
    PresentedIsFaithful(Context(Grown(base, said, ids, w, |said|)), start.0, said, start.1, w);
  }

  /**
   The model's view of a whole run: the first message is the user's, all messages since the last
   compaction are presented faithfully, and unless the run was warned about an unknown tool, every
   request among them is shown with its replies.
   */
  lemma ModelSeesTheRun(c: Config, user: Content, inputs: seq<Input>, base: Tree, ids: seq<Id>, w: Wording)
    requires Bound(c) <= |inputs| && RunnerBuilt(base)
    requires AllFresh(base, WholeRun(c, user, inputs).piece.said, ids, w)
    ensures var said := WholeRun(c, user, inputs).piece.said;
            && said != [] && said[0] == UserSays(user)
            && var t, start := Grown(base, said, ids, w, |said|), Behind(Context(base), said);
               && RunnerBuilt(t) && Faithfully(Context(t), start.0, said, start.1, w)
               && (!HasGuidance(said) ==> AllPairedFrom(Context(t), start.0))
  {
    var said := WholeRun(c, user, inputs).piece.said;
    FirstIsTheUser(StepOf(c), user, inputs, Bound(c));
    ModelSeesTheSession(base, said, ids, w);
    RequestsAreAnswered(c, user, inputs);
    var start := Behind(Context(base), said);
    AllPaired(Context(Grown(base, said, ids, w, |said|)), start.0, said, start.1, w);
  }

  ghost predicate AllPairedFrom(ctx: seq<LlmMessage>, h: nat) {
    forall p: nat | h <= p < |ctx| && ctx[p].toolCalls != [] :: PairedAt(ctx, p)
  }

  lemma AllPaired(ctx: seq<LlmMessage>, h: nat, said: seq<Msg>, lo: nat, w: Wording)
    requires Faithfully(ctx, h, said, lo, w)
    ensures (forall i | Asks(said, i) :: AnsweredAt(said, i)) ==> AllPairedFrom(ctx, h)
  {
    if forall i | Asks(said, i) :: AnsweredAt(said, i) {
      forall p: nat | h <= p < |ctx| && ctx[p].toolCalls != []
        ensures PairedAt(ctx, p)
      {
        var i := p - h + lo;
        assert Presents(ctx[h + i - lo], said[i], w);
        assert Asks(said, i) && AnsweredAt(said, i);
      }
    }
  }

  /**
   A compaction right behind a reply keeps that reply and drops its request: the model is shown
   the summary, then a tool message that answers nothing.
   */
  lemma KeptReplyAnswersNothing(base: Tree, said: seq<Msg>, ids: seq<Id>, w: Wording, j: nat)
    requires RunnerBuilt(base) && AllFresh(base, said, ids, w) && said != [] && !said[0].Compacted?
    requires 0 < j && LastCompacted(said, |said|) == Some(j) && said[j-1].ToolSays?
    ensures RunnerBuilt(Grown(base, said, ids, w, |said|))
    ensures var ctx := Context(Grown(base, said, ids, w, |said|));
            2 <= |ctx| && ctx[0].toolCalls == [] && ctx[1].role == Role.Tool && ctx[1].toolCallId == said[j-1].answer.callId
  {
    ContextOfRun(base, said, ids, w, |said|);
  }

  function ToolInput(texts: seq<string>, calls: seq<ToolCall>, w: World): Input {
    Input(false, false, None, false, Stream(texts, Complete(calls)), w)
  }

  function TrimmedInput(summary: string, stream: Stream, w: World): Input {
    Input(false, false, Some(SessionObject.Report(true, true, summary, 0, "")), false, stream, w)
  }

  lemma EndsInReply(c: Config, m: Memory, texts: seq<string>, calls: seq<ToolCall>, w: World)
    requires calls != [] && ToolLoop.Update(m.streak, TurnOf(calls, w), c.threshold).1 == ToolLoop.Proceed
    ensures var o := Iteration(c, m, ToolInput(texts, calls, w));
            o.end.None? && |o.piece.said| > 1 && o.piece.said[|o.piece.said|-1].ToolSays?
  {
    PhaseBalances(calls, w, "");
    PhaseSpeaks(calls, w);
    var phase := Phase(calls, w).said;
    assert ([AssistantSays(Joined(texts), calls, false)] + phase)[|phase|] == phase[|phase|-1];
  }

  lemma PhaseSpeaks(calls: seq<ToolCall>, w: World)
    ensures forall i | 0 <= i < |Phase(calls, w).said| :: Phase(calls, w).said[i].ToolSays?
  {
  }

  lemma TwoIterations(c: Config, user: Content, t: Input, u: Input)
    ensures var first := Iteration(c, Memory(NoRetries, ToolLoop.IDLE), t);
            var second := Iteration(c, first.memory, u);
            first.end.None? ==>
              && RunAfter(StepOf(c), user, [t, u], 2).piece.said == [UserSays(user)] + first.piece.said + second.piece.said
              && RunAfter(StepOf(c), user, [t, u], 2).end == second.end
  {
    assert RunAfter(StepOf(c), user, [t, u], 0) == Progress(Piece([UserSays(user)], [], []), Memory(NoRetries, ToolLoop.IDLE), None);
    assert RunAfter(StepOf(c), user, [t, u], 1).piece.said == [UserSays(user)] + Iteration(c, Memory(NoRetries, ToolLoop.IDLE), t).piece.said;
  }

  /** A turn that runs its tools, then a context that has to be trimmed: that is how it comes about. */
  lemma CompactionBehindReply(c: Config, user: Content, texts: seq<string>, calls: seq<ToolCall>, w: World, stream: Stream, summary: string)
    requires calls != [] && summary != "" && ToolLoop.Update(ToolLoop.IDLE, TurnOf(calls, w), c.threshold).1 == ToolLoop.Proceed
    ensures var p := RunAfter(StepOf(c), user, [ToolInput(texts, calls, w), TrimmedInput(summary, stream, w)], 2);
            && p.end.None? && 0 < |p.piece.said| - 1 && LastCompacted(p.piece.said, |p.piece.said|) == Some(|p.piece.said| - 1)
            && p.piece.said[|p.piece.said|-2].ToolSays?
  {
    EndsInReply(c, Memory(NoRetries, ToolLoop.IDLE), texts, calls, w);
    TwoIterations(c, user, ToolInput(texts, calls, w), TrimmedInput(summary, stream, w));
  }
}
