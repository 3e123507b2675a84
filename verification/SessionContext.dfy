/** The conversation context of a branch and how appending and compacting change it. */
module SessionContext {
  import opened Prelude
  import opened PyText
  import opened SessionTree

  datatype Part = TextPart(text: string) | ImagePart(url: string)
  datatype LlmContent = Plain(text: string) | Parts(parts: seq<Part>)
  datatype LlmMessage = LlmMessage(role: Role, content: LlmContent, toolCalls: seq<ToolCall>, toolCallId: string)

  /** `_content_blocks_to_llm`: images become data URLs, blank text blocks are left out. */
  function PartsOf(blocks: seq<Block>): seq<Part> {
    if blocks == [] then []
    else
      var front := PartsOf(blocks[..|blocks|-1]);
      match blocks[|blocks|-1]
      case ImageBlock(mime, data) => front + [ImagePart("data:" + mime + ";base64," + data)]
      case TextBlock(text) => if Blank(text) then front else front + [TextPart(text)]
  }

  /** `_message_entry_to_dict`. */
  function ToLlm(e: Entry): LlmMessage
    requires e.Message?
  {
    var content := match e.content
      case Blocks(blocks) => Parts(PartsOf(blocks))
      case Text(text) => if e.role == Tool then Parts([TextPart(text)]) else Plain(text);
    LlmMessage(e.role, content, e.toolCalls, e.toolCallId)
  }

  function Summary(text: string): LlmMessage {
    LlmMessage(Assistant, Plain("[Previous conversation summary]\n" + text), [], "")
  }

  /** Index of the last compaction among the first `n` entries. */
  function LastCompaction(b: seq<Entry>, n: nat): (i: Option<nat>)
    requires n <= |b|
    ensures i.Some? ==> i.value < n && b[i.value].Compaction?
  {
    if n == 0 then None
    else if b[n-1].Compaction? then Some(n - 1)
    else LastCompaction(b, n - 1)
  }

  /** Index of the first entry with this id among the first `n`. */
  function FirstIndex(b: seq<Entry>, n: nat, id: Id): (i: Option<nat>)
    requires n <= |b|
    ensures i.Some? ==> i.value < n && b[i.value].id == id
  {
    if n == 0 then None
    else
      var earlier := FirstIndex(b, n - 1, id);
      if earlier.Some? then earlier
      else if b[n-1].id == id then Some(n - 1)
      else None
  }

  function OneMessage(e: Entry, skip: Option<Id>): seq<LlmMessage> {
    if e.Message? && Some(e.id) != skip then [ToLlm(e)] else []
  }

  /** The message entries at `lo..hi`, other than `skip`, as the model sees them. */
  function Messages(b: seq<Entry>, lo: nat, hi: nat, skip: Option<Id>): seq<LlmMessage>
    requires hi <= |b|
  {
    if hi <= lo then [] else Messages(b, lo, hi - 1, skip) + OneMessage(b[hi-1], skip)
  }

  /** Where the kept tail of a compacted branch starts. */
  function KeptFrom(b: seq<Entry>, i: nat): nat
    requires i < |b| && b[i].Compaction?
  {
    match FirstIndex(b, |b|, b[i].firstKept)
    case Some(k) => k
    case None => i + 1
  }

  /** `build_session_context` on a branch. */
  function ContextOf(b: seq<Entry>): seq<LlmMessage> {
    match LastCompaction(b, |b|)
    case None => Messages(b, 0, |b|, None)
    case Some(i) => [Summary(b[i].summary)] + Messages(b, KeptFrom(b, i), |b|, Some(b[i].id))
  }

  // ---------------------------------------------------------------- the incremental law

  /**
   The new id is the unresolved first-kept id of the latest compaction, and messages were
   appended since: those messages would drop out of the context.
   */
  predicate Hijacks(b: seq<Entry>, id: Id) {
    match LastCompaction(b, |b|)
    case None => false
    case Some(i) => b[i].firstKept == id && Messages(b, i + 1, |b|, Some(b[i].id)) != []
  }

  predicate Fresh(b: seq<Entry>, id: Id) {
    forall i | 0 <= i < |b| :: b[i].id != id
  }

  lemma {:induction false} FreshHasNoIndex(b: seq<Entry>, n: nat, id: Id)
    requires n <= |b| && forall i | 0 <= i < n :: b[i].id != id
    ensures FirstIndex(b, n, id).None?
  {
    if n > 0 {
      FreshHasNoIndex(b, n - 1, id);
    }
  }

  /** Looking only at the old part of a longer branch sees the old branch. */
  lemma {:induction false} PrefixSearch(b: seq<Entry>, e: Entry, n: nat, id: Id)
    requires n <= |b|
    ensures LastCompaction(b + [e], n) == LastCompaction(b, n)
    ensures FirstIndex(b + [e], n, id) == FirstIndex(b, n, id)
  {
    if n > 0 {
      PrefixSearch(b, e, n - 1, id);
    }
  }

  lemma {:induction false} PrefixMessages(b: seq<Entry>, e: Entry, lo: nat, hi: nat, skip: Option<Id>)
    requires hi <= |b|
    ensures Messages(b + [e], lo, hi, skip) == Messages(b, lo, hi, skip)
  {
    if lo < hi {
      PrefixMessages(b, e, lo, hi - 1, skip);
    }
  }

  lemma SearchSnoc(b: seq<Entry>, e: Entry, id: Id)
    ensures var b' := b + [e];
            && LastCompaction(b', |b'|) == (if e.Compaction? then Some(|b|) else LastCompaction(b, |b|))
            && FirstIndex(b', |b'|, id) == (if FirstIndex(b, |b|, id).Some? then FirstIndex(b, |b|, id)
                                            else if e.id == id then Some(|b|) else None)
  {
    PrefixSearch(b, e, |b|, id);
  }

  lemma MessagesSnoc(b: seq<Entry>, e: Entry, lo: nat, skip: Option<Id>)
    requires lo <= |b|
    ensures Messages(b + [e], lo, |b + [e]|, skip) == Messages(b, lo, |b|, skip) + OneMessage(e, skip)
  {
    PrefixMessages(b, e, lo, |b|, skip);
  }

  /** One entry more after the latest compaction at `i`, whose kept tail starts at `k`. */
  lemma ContextSnoc(b: seq<Entry>, i: nat, k: nat, e: Entry)
    requires i < |b| && LastCompaction(b, |b|) == Some(i) && !e.Compaction? && b[i].id != e.id
    requires k <= |b| && LastCompaction(b + [e], |b + [e]|) == Some(i) && KeptFrom(b + [e], i) == k
    ensures ContextOf(b + [e])
         == [Summary(b[i].summary)] + Messages(b, k, |b|, Some(b[i].id)) + OneMessage(e, None)
  {
    var head, kept, one := [Summary(b[i].summary)], Messages(b, k, |b|, Some(b[i].id)), OneMessage(e, None);
    MessagesSnoc(b, e, k, Some(b[i].id));
    assert (b + [e])[i] == b[i];
    assert head + (kept + one) == head + kept + one;
  }

  /** Where the kept tail starts after one more entry with a fresh id. */
  lemma KeptFromSnoc(b: seq<Entry>, i: nat, e: Entry)
    requires i < |b| && LastCompaction(b, |b|) == Some(i) && !e.Compaction? && Fresh(b, e.id)
    ensures LastCompaction(b + [e], |b + [e]|) == Some(i)
    ensures KeptFrom(b + [e], i) == if b[i].firstKept == e.id then |b| else KeptFrom(b, i)
    ensures b[i].firstKept == e.id ==> KeptFrom(b, i) == i + 1
    ensures KeptFrom(b, i) <= |b|
  {
    SearchSnoc(b, e, b[i].firstKept);
    FreshHasNoIndex(b, |b|, e.id);
    assert (b + [e])[i] == b[i];
  }

  lemma Cancels<T>(head: seq<T>, kept: seq<T>, one: seq<T>)
    ensures head + one == (head + kept) + one <==> kept == []
  {
    assert |(head + kept) + one| == |head + one| + |kept|;
    assert kept == [] ==> head + kept == head;
  }

  /** Any entry but a compaction, with a fresh id, adds what it shows unless it hijacks the tail. */
  lemma ContextGrows(b: seq<Entry>, e: Entry)
    requires !e.Compaction? && Fresh(b, e.id)
    ensures ContextOf(b + [e]) == ContextOf(b) + OneMessage(e, None) <==> !Hijacks(b, e.id)
  {
    SearchSnoc(b, e, NoId);
    var one := OneMessage(e, None);
    match LastCompaction(b, |b|)
    case None => MessagesSnoc(b, e, 0, None);
    case Some(i) =>
      var head, skip := [Summary(b[i].summary)], Some(b[i].id);
      KeptFromSnoc(b, i, e);
      var k := KeptFrom(b + [e], i);
      ContextSnoc(b, i, k, e);
      if b[i].firstKept == e.id {
        assert Messages(b, k, |b|, skip) == [];
        assert ContextOf(b + [e]) == head + one;
        Cancels(head, Messages(b, i + 1, |b|, skip), one);
      }
  }

  /**
   The context is incremental: appending a message with a fresh id adds exactly that message,
   with or without earlier compactions, if and only if the new id hijacks nothing.
   */
  lemma ContextIsIncremental(b: seq<Entry>, m: Entry)
    requires m.Message? && Fresh(b, m.id)
    ensures ContextOf(b + [m]) == ContextOf(b) + [ToLlm(m)] <==> !Hijacks(b, m.id)
  {
    ContextGrows(b, m);
  }

  /** Entries that are neither messages nor compactions add nothing, with the same exception. */
  lemma OtherEntriesAreSilent(b: seq<Entry>, o: Entry)
    requires o.Other? && Fresh(b, o.id)
    ensures ContextOf(b + [o]) == ContextOf(b) <==> !Hijacks(b, o.id)
  {
    ContextGrows(b, o);
    assert ContextOf(b) + [] == ContextOf(b);
  }

  /**
   Right after a compaction whose first-kept id is the previous leaf, the context is the
   summary and, if that leaf was a message, the message.
   */
  lemma CompactionResets(b: seq<Entry>, c: Entry)
    requires c.Compaction? && Fresh(b, c.id)
    requires forall i, j :: 0 <= i < j < |b| ==> b[i].id != b[j].id
    requires c.firstKept == if b == [] then NoId else b[|b|-1].id
    ensures ContextOf(b + [c]) == [Summary(c.summary)]
              + if b != [] && b[|b|-1].Message? then [ToLlm(b[|b|-1])] else []
  {
    var b', skip := b + [c], Some(c.id);
    PrefixSearch(b, c, |b|, c.firstKept);
    assert LastCompaction(b', |b'|) == Some(|b|) && b'[|b|] == c;
    assert OneMessage(c, skip) == [];
    if b == [] {
      assert Messages(b', KeptFrom(b', 0), 1, skip) == [];
    } else {
      var last := |b| - 1;
      FreshHasNoIndex(b, last, b[last].id);
      assert KeptFrom(b', |b|) == last;
      assert Messages(b', last, last, skip) == [];
      assert Messages(b', last, |b|, skip) == OneMessage(b[last], skip);
      assert Messages(b', last, |b'|, skip) == OneMessage(b[last], skip);
    }
  }

  // ---------------------------------------------------------------- trees built by the runner

  ghost function BranchOf(t: Tree): seq<Entry>
    requires Ends(t.entries, t.leaf)
  {
    Branch(t.entries, t.leaf)
  }

  /** What a run appends: a message below the leaf, or a compaction that keeps the leaf. */
  ghost predicate RunnerEntry(t: Tree, e: Entry) {
    && e.id !in t.entries && e.id != NoId
    && e.parent == t.leaf
    && (e.Compaction? ==> e.firstKept == if t.leaf.Some? then t.leaf.value else NoId)
  }

  ghost predicate RunnerBuilt(t: Tree) {
    && WellFormed(t)
    && (t.leaf.None? <==> t.order == [])
    && (t.order != [] ==> t.leaf == Some(t.order[|t.order|-1]))
    && NoId !in t.entries
    && (forall i | 0 <= i < |t.order| :: ParentAt(t, i))
  }

  ghost predicate ParentAt(t: Tree, i: nat)
    requires WellFormed(t) && i < |t.order|
  {
    assert t.order[i] in t.order;
    var e, before := t.entries[t.order[i]], if i == 0 then None else Some(t.order[i-1]);
    && e.parent == before
    && (e.Compaction? ==> e.firstKept == if before.Some? then before.value else NoId)
  }

  /** The entries in append order. */
  ghost function Log(t: Tree, n: nat): seq<Entry>
    requires WellFormed(t) && n <= |t.order|
  {
    seq(n, i requires 0 <= i < n => assert t.order[i] in t.order; t.entries[t.order[i]])
  }

  lemma EmptyIsRunnerBuilt()
    ensures RunnerBuilt(EmptyTree)
  {
  }

  lemma RunnerStaysBuilt(t: Tree, e: Entry)
    requires RunnerBuilt(t) && RunnerEntry(t, e)
    ensures RunnerBuilt(Appended(t, e))
    ensures Log(Appended(t, e), |t.order| + 1) == Log(t, |t.order|) + [e]
  {
    AppendKeepsWellFormed(t, e);
    var t' := Appended(t, e);
    assert t'.order[|t.order|] == e.id;
    forall i | 0 <= i < |t'.order|
      ensures ParentAt(t', i)
    {
      if i < |t.order| {
        assert ParentAt(t, i);
        assert t.order[i] in t.order;
      }
    }
    assert forall i | 0 <= i < |t.order| :: t.order[i] in t.order && t.order[i] != e.id;
  }

  /** In a tree built by runs, the branch of the leaf is the whole log in append order. */
  lemma {:induction false} BranchIsLog(t: Tree, n: nat)
    requires RunnerBuilt(t) && n <= |t.order|
    ensures var cur := if n == 0 then None else Some(t.order[n-1]);
            && Grounded(t.entries, cur, n) && Walk(t.entries, cur, n) == Log(t, n)
            && Stop(t.entries, cur, n) == None
    decreases n
  {
    if n > 0 {
      BranchIsLog(t, n - 1);
      assert ParentAt(t, n - 1);
      assert t.order[n-1] in t.order;
      assert Log(t, n) == Log(t, n - 1) + [t.entries[t.order[n-1]]];
    }
  }

  lemma RunnerBranch(t: Tree)
    requires RunnerBuilt(t)
    ensures Ends(t.entries, t.leaf) && BranchOf(t) == Log(t, |t.order|) && Root(t.entries, t.leaf) == None
    ensures Acyclic(t.entries)
  {
    var n := |t.order|;
    BranchIsLog(t, n);
    WalkIsUnique(t.entries, t.leaf, n, Fuel(t.entries, t.leaf));
    forall id | id in t.entries
      ensures Ends(t.entries, Some(id))
    {
      var i :| 0 <= i < |t.order| && t.order[i] == id;
      BranchIsLog(t, i + 1);
    }
  }

  lemma LogIsFresh(t: Tree, id: Id)
    requires RunnerBuilt(t) && id !in t.entries
    ensures Fresh(Log(t, |t.order|), id)
  {
    forall i | 0 <= i < |t.order|
      ensures Log(t, |t.order|)[i].id != id
    {
      assert t.order[i] in t.order;
    }
  }

  lemma {:induction false} LastCompactionKeeps(t: Tree, n: nat)
    requires RunnerBuilt(t) && n <= |t.order|
    ensures var b := Log(t, |t.order|);
            var i := LastCompaction(b, n);
            i.Some? ==> b[i.value].firstKept == NoId || b[i.value].firstKept in t.entries
    decreases n
  {
    if n > 0 {
      assert ParentAt(t, n - 1);
      if n > 1 {
        assert t.order[n-2] in t.order;
      }
      LastCompactionKeeps(t, n - 1);
    }
  }

  /**
   For runs the incremental law has no exception: every message a run appends extends the
   context the model is shown by exactly that message.
   */
  lemma RunnerContextGrows(t: Tree, m: Entry)
    requires RunnerBuilt(t) && RunnerEntry(t, m) && m.Message?
    ensures Ends(t.entries, t.leaf) && Ends(Appended(t, m).entries, Appended(t, m).leaf)
    ensures ContextOf(BranchOf(Appended(t, m))) == ContextOf(BranchOf(t)) + [ToLlm(m)]
  {
    RunnerStaysBuilt(t, m);
    RunnerBranch(t);
    RunnerBranch(Appended(t, m));
    var b := BranchOf(t);
    LogIsFresh(t, m.id);
    LastCompactionKeeps(t, |t.order|);
    ContextIsIncremental(b, m);
  }

  /** A compaction made by a run leaves the summary and at most the previous leaf. */
  lemma RunnerCompactionResets(t: Tree, c: Entry)
    requires RunnerBuilt(t) && RunnerEntry(t, c) && c.Compaction?
    ensures Ends(t.entries, t.leaf) && Ends(Appended(t, c).entries, Appended(t, c).leaf)
    ensures var b := BranchOf(t);
            ContextOf(BranchOf(Appended(t, c))) == [Summary(c.summary)]
              + if b != [] && b[|b|-1].Message? then [ToLlm(b[|b|-1])] else []
  {
    RunnerStaysBuilt(t, c);
    RunnerBranch(t);
    RunnerBranch(Appended(t, c));
    var b := BranchOf(t);
    BranchHasNoRepeats(t.entries, t.leaf);
    LogIsFresh(t, c.id);
    CompactionResets(b, c);
  }
}
