/** What the messages of a run become in the session log. */
module RunTree {
  import opened Prelude
  import opened SessionTree
  import opened SessionContext
  import opened RunModel

  /** How a message is worded, and the ids it gets. */
  type Wording = Msg -> string

  function EntryOf(m: Msg, id: Id, leaf: Option<Id>, w: Wording): Entry {
    match m
    case UserSays(content) => Message(id, leaf, User, content, [], "", false)
    case AssistantSays(text, calls, partial) => Message(id, leaf, Assistant, Text(text), calls, "", partial)
    case ToolSays(answer) => Message(id, leaf, Role.Tool, Text(w(m)), [], answer.callId, false)
    case Compacted(summary, tokens) =>
      SessionTree.Compaction(id, leaf, summary, if leaf.Some? then leaf.value else NoId, tokens)
    case _ => Message(id, leaf, User, Text(w(m)), [], "", false)
  }

  /** The tree after the first `n` messages. */
  function Grown(base: Tree, said: seq<Msg>, ids: seq<Id>, w: Wording, n: nat): Tree
    requires n <= |said| && n <= |ids|
  {
    if n == 0 then base
    else
      var t := Grown(base, said, ids, w, n - 1);
      Appended(t, EntryOf(said[n-1], ids[n-1], t.leaf, w))
  }

  predicate FreshAt(base: Tree, said: seq<Msg>, ids: seq<Id>, w: Wording, k: nat)
    requires k < |said| && k < |ids|
  {
    ids[k] !in Grown(base, said, ids, w, k).entries && ids[k] != NoId
  }

  predicate AllFresh(base: Tree, said: seq<Msg>, ids: seq<Id>, w: Wording) {
    |said| == |ids| && forall k: nat | k < |said| :: FreshAt(base, said, ids, w, k)
  }

  lemma {:induction false} GrownPrefix(base: Tree, said: seq<Msg>, ids: seq<Id>, w: Wording, m: Msg, id: Id, n: nat)
    requires n <= |said| == |ids|
    ensures Grown(base, said + [m], ids + [id], w, n) == Grown(base, said, ids, w, n)
  {
    if n > 0 {
      GrownPrefix(base, said, ids, w, m, id, n - 1);
    }
  }

  lemma GrowOnce(base: Tree, said: seq<Msg>, ids: seq<Id>, w: Wording, m: Msg, id: Id)
    requires AllFresh(base, said, ids, w)
    requires var t := Grown(base, said, ids, w, |said|); id !in t.entries && id != NoId
    ensures var t := Grown(base, said, ids, w, |said|);
            && AllFresh(base, said + [m], ids + [id], w)
            && Grown(base, said + [m], ids + [id], w, |said| + 1) == Appended(t, EntryOf(m, id, t.leaf, w))
  {
    GrownPrefix(base, said, ids, w, m, id, |said|);
    forall k: nat | k < |said| + 1
      ensures FreshAt(base, said + [m], ids + [id], w, k)
    {
      GrownPrefix(base, said, ids, w, m, id, k);
      if k < |said| {
        assert FreshAt(base, said, ids, w, k);
      }
    }
  }

  ghost function LogOf(t: Tree): seq<Entry>
    requires RunnerBuilt(t)
  {
    Log(t, |t.order|)
  }

  /** `e` is message `m` worded by `w`, whatever its id and parent. */
  ghost predicate Records(e: Entry, m: Msg, w: Wording) {
    e == EntryOf(m, e.id, e.parent, w)
  }

  /** `log` is `before` followed by the first `n` messages. */
  ghost predicate Continues(log: seq<Entry>, before: seq<Entry>, said: seq<Msg>, w: Wording, n: nat)
    requires n <= |said|
  {
    && |log| == |before| + n
    && (forall k | 0 <= k < |before| :: log[k] == before[k])
    && (forall k | 0 <= k < n :: Records(log[|before| + k], said[k], w))
  }

  ghost predicate GrewTo(t: Tree, base: Tree, said: seq<Msg>, w: Wording, n: nat)
    requires n <= |said| && RunnerBuilt(base)
  {
    RunnerBuilt(t) && Continues(LogOf(t), LogOf(base), said, w, n)
  }

  lemma ContinuesOnce(t: Tree, t': Tree, base: Tree, said: seq<Msg>, w: Wording, n: nat, id: Id)
    requires n < |said| && RunnerBuilt(base) && GrewTo(t, base, said, w, n)
    requires id !in t.entries && id != NoId && t' == Appended(t, EntryOf(said[n], id, t.leaf, w))
    ensures GrewTo(t', base, said, w, n + 1)
  {
    var e := EntryOf(said[n], id, t.leaf, w);
    RunnerStaysBuilt(t, e);
    assert Records(e, said[n], w);
    assert LogOf(t') == LogOf(t) + [e];
  }

  lemma NothingGrown(base: Tree, said: seq<Msg>, w: Wording)
    requires RunnerBuilt(base)
    ensures GrewTo(base, base, said, w, 0)
  {
  }

  lemma {:induction false} LogGrows(base: Tree, said: seq<Msg>, ids: seq<Id>, w: Wording, n: nat)
    requires RunnerBuilt(base) && AllFresh(base, said, ids, w) && n <= |said|
    ensures GrewTo(Grown(base, said, ids, w, n), base, said, w, n)
  {
    if n == 0 {
      NothingGrown(base, said, w);
    } else {
      LogGrows(base, said, ids, w, n - 1);
      assert FreshAt(base, said, ids, w, n - 1);
      ContinuesOnce(Grown(base, said, ids, w, n - 1), Grown(base, said, ids, w, n), base, said, w, n - 1, ids[n-1]);
    }
  }

  /**
   A run keeps the shape of the session: the tree stays acyclic with the whole log as its branch,
   and the log grows by exactly the run's messages, in order.
   */
  lemma RunsKeepTheShape(base: Tree, said: seq<Msg>, ids: seq<Id>, w: Wording)
    requires RunnerBuilt(base) && AllFresh(base, said, ids, w)
    ensures var t := Grown(base, said, ids, w, |said|);
            && RunnerBuilt(t) && Acyclic(t.entries) && SessionTree.Ends(t.entries, t.leaf)
            && BranchOf(t) == LogOf(t)
            && Continues(LogOf(t), LogOf(base), said, w, |said|)
  {
    LogGrows(base, said, ids, w, |said|);
    RunnerBranch(Grown(base, said, ids, w, |said|));
  }

  /** What an entry of the log keeps of its message, field by field. */
  predicate Keeps(e: Entry, m: Msg, w: Wording) {
    match m
    case UserSays(content) => e.Message? && e.role == User && e.content == content && e.toolCalls == [] && !e.partial
    case AssistantSays(text, calls, partial) =>
      e.Message? && e.role == Assistant && e.content == Text(text) && e.toolCalls == calls && e.partial == partial
    case ToolSays(answer) => e.Message? && e.role == Role.Tool && e.content == Text(w(m)) && e.toolCallId == answer.callId && !e.partial
    case Compacted(summary, tokens) =>
      e.Compaction? && e.summary == summary && e.tokensBefore == tokens && e.firstKept == if e.parent.Some? then e.parent.value else NoId
    case _ => e.Message? && e.role == User && e.content == Text(w(m)) && e.toolCalls == [] && !e.partial
  }

  lemma RecordKeeps(e: Entry, m: Msg, w: Wording)
    requires Records(e, m, w)
    ensures Keeps(e, m, w)
  {
  }

  /** Entry `i` of a log stands below the one before it. */
  ghost predicate Below(log: seq<Entry>, i: nat) {
    i < |log| && log[i].parent == if i == 0 then None else Some(log[i-1].id)
  }

  lemma LogIsLinked(t: Tree, i: nat)
    requires RunnerBuilt(t) && i < |t.order|
    ensures Below(LogOf(t), i)
  {
    assert ParentAt(t, i);
    assert t.order[i] in t.order;
    if i > 0 {
      assert t.order[i-1] in t.order;
    }
  }

  /** The log of the session a run has grown keeps the run's messages, each below the one before it. */
  lemma LogKeepsMessages(base: Tree, said: seq<Msg>, ids: seq<Id>, w: Wording, k: nat)
    requires RunnerBuilt(base) && AllFresh(base, said, ids, w) && k < |said|
    ensures RunnerBuilt(Grown(base, said, ids, w, |said|))
    ensures var log, i := LogOf(Grown(base, said, ids, w, |said|)), |base.order| + k;
            |log| == |base.order| + |said| && Keeps(log[i], said[k], w) && Below(log, i)
  {
    var t, i := Grown(base, said, ids, w, |said|), |base.order| + k;
    LogGrows(base, said, ids, w, |said|);
    assert Records(LogOf(t)[|LogOf(base)| + k], said[k], w);
    RecordKeeps(LogOf(t)[i], said[k], w);
    LogIsLinked(t, i);
  }
}
