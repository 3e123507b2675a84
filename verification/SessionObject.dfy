/** `SessionTree` as the program has it: an object whose fields are updated in place. */
module SessionObject {
  import opened Prelude
  import opened SessionTree
  import opened SessionContext

  datatype AppendResult = Ok(id: Id) | DuplicateId(id: Id)

  /** What `context_engine.compact` reports, or the exception it raised. */
  datatype CompactResult =
    | Raised(reason: string)
    | Report(ok: bool, compacted: bool, summary: string, tokensBefore: int, reasonCode: string)

  datatype CompactionOutcome = CompactionOutcome(ok: bool, compacted: bool, errorCode: string)

  function Reversed<T>(s: seq<T>): (r: seq<T>)
    ensures |r| == |s| && forall i | 0 <= i < |s| :: r[i] == s[|s|-1-i]
  {
    if s == [] then [] else [s[|s|-1]] + Reversed(s[..|s|-1])
  }

  class Session {
    var entries: map<Id, Entry>
    var order: seq<Id>
    var leafId: Option<Id>

    function View(): Tree
      reads this
    {
      Tree(entries, order, leafId)
    }

    constructor ()
      ensures View() == EmptyTree
    {
      entries, order, leafId := map[], [], None;
    }

    /** `SessionTree.append`. */
    method Append(e: Entry) returns (r: AppendResult)
      modifies this
      ensures r == if e.id in old(entries) then DuplicateId(e.id) else Ok(e.id)
      ensures View() == if e.id in old(entries) then old(View()) else Appended(old(View()), e)
    {
      if e.id in entries {
        return DuplicateId(e.id);
      }
      entries := entries[e.id := e];
      order := order + [e.id];
      leafId := Some(e.id);
      return Ok(e.id);
    }

    /** The entry the walk starts from: `from_id or self.leaf_id`, with empty text falsy. */
    function Start(fromId: Option<Id>): Option<Id>
      reads this
    {
      if fromId.Some? && fromId != Some(NoId) then fromId else leafId
    }

    /** `get_branch`. The source loops forever on a cycle, so callers owe it an acyclic tree. */
    method GetBranch(fromId: Option<Id>) returns (branch: seq<Entry>)
      requires Ends(entries, Start(fromId))
      ensures branch == Branch(entries, if fromId.Some? && fromId.value != Id("") then fromId else leafId)
    {
      var start := Start(fromId);
      var path: seq<Entry>, current := [], start;
      ghost var n := Fuel(entries, start);
      while current.Some? && current.value in entries
        invariant Grounded(entries, current, n)
        invariant Branch(entries, start) == Walk(entries, current, n) + Reversed(path)
        decreases n
      {
        var entry := entries[current.value];
        assert (path + [entry])[..|path|] == path;
        assert Walk(entries, current, n) == Walk(entries, entry.parent, n - 1) + [entry];
        path := path + [entry];
        current := entry.parent;
        n := n - 1;
      }
      branch := Reversed(path);
    }

    /** `build_session_context`. */
    method BuildSessionContext() returns (messages: seq<LlmMessage>)
      requires Ends(entries, leafId)
      ensures messages == ContextOf(Branch(entries, leafId))
    {
      var branch := GetBranch(None);
      var latest: Option<nat> := None;
      for i := 0 to |branch|
        invariant latest == LastCompaction(branch, i)
      {
        if branch[i].Compaction? {
          latest := Some(i);
        }
      }
      messages := [];
      var from, skip: Option<Id> := 0, None;
      if latest.Some? {
        var compaction := branch[latest.value];
        messages := [Summary(compaction.summary)];
        var firstKept: Option<nat> := None;
        for i := 0 to |branch|
          invariant firstKept == FirstIndex(branch, i, compaction.firstKept)
        {
          if firstKept.None? && branch[i].id == compaction.firstKept {
            firstKept := Some(i);
          }
        }
        from := if firstKept.Some? then firstKept.value else latest.value + 1;
        skip := Some(compaction.id);
      }
      ghost var head := messages;
      for i := from to |branch|
        invariant messages == head + Messages(branch, from, i, skip)
      {
        if branch[i].Message? && Some(branch[i].id) != skip {
          messages := messages + [ToLlm(branch[i])];
        }
      }
    }

    /**
     `_try_compaction`. `during` is whatever the tree became while the engine ran; a failed
     or raising engine leaves the tree exactly as it was before the call, a successful one
     with a summary adds one compaction entry below the leaf, anything else adds nothing.
     */
    method TryCompaction(result: CompactResult, during: Tree, freshId: Id) returns (outcome: CompactionOutcome)
      requires result.Report? && result.ok ==> freshId !in during.entries
      modifies this
      ensures outcome.ok == (result.Report? && result.ok)
      ensures outcome.compacted == (outcome.ok && result.compacted && result.summary != "")
      ensures !outcome.ok ==> View() == old(View()) && outcome.errorCode != ""
      ensures outcome.ok && !outcome.compacted ==> View() == during
      ensures outcome.compacted ==>
                View() == Appended(during, Compaction(freshId, during.leaf, result.summary,
                                     if during.leaf.Some? then during.leaf.value else NoId, result.tokensBefore))
    {
      var checkpoint := View();
      entries, order, leafId := during.entries, during.order, during.leaf;
      match result
      case Raised(reason) =>
        Restore(checkpoint);
        return CompactionOutcome(false, false, "compaction_failed");
      case Report(ok, compacted, summary, tokensBefore, reasonCode) =>
        if !ok {
          Restore(checkpoint);
          return CompactionOutcome(false, false, if reasonCode != "" then reasonCode else "compaction_failed");
        }
        if compacted && summary != "" {
          var kept := if leafId.Some? then leafId.value else NoId;
          var r := Append(Compaction(freshId, leafId, summary, kept, tokensBefore));
          return CompactionOutcome(true, true, "");
        }
        return CompactionOutcome(true, false, "");
    }

    method Restore(checkpoint: Tree)
      modifies this
      ensures View() == checkpoint
    {
      entries, order, leafId := checkpoint.entries, checkpoint.order, checkpoint.leaf;
    }
  }
}
