/**
 The session log: entries linked to their parent, an append order, a current leaf, and the
 conversation context rebuilt from the branch that ends in the leaf.
 */
module SessionTree {
  import opened Prelude

  /** An entry id; the source uses hexadecimal text, and `""` for "no entry". */
  datatype Id = Id(text: string)

  const NoId := Id("")

  datatype Role = User | Assistant | Tool
  datatype Block = TextBlock(text: string) | ImageBlock(mime: string, data: string)
  datatype Content = Text(text: string) | Blocks(blocks: seq<Block>)
  datatype ToolCall = ToolCall(id: string, name: string, arguments: string)

  datatype Entry =
    | Message(id: Id, parent: Option<Id>, role: Role, content: Content,
              toolCalls: seq<ToolCall>, toolCallId: string, partial: bool)
    | Compaction(id: Id, parent: Option<Id>, summary: string, firstKept: Id, tokensBefore: int)
    | Other(id: Id, parent: Option<Id>)

  type Entries = map<Id, Entry>

  datatype Tree = Tree(entries: Entries, order: seq<Id>, leaf: Option<Id>)

  const EmptyTree := Tree(map[], [], None)

  // ---------------------------------------------------------------- walking to the root

  /** Following parents from `cur` ends within `n` steps, at no parent or at a missing one. */
  ghost predicate Grounded(es: Entries, cur: Option<Id>, n: nat)
    decreases n
  {
    cur.None? || cur.value !in es || (n > 0 && Grounded(es, es[cur.value].parent, n - 1))
  }

  ghost predicate Ends(es: Entries, cur: Option<Id>) {
    exists n: nat :: Grounded(es, cur, n)
  }

  /** No entry is its own ancestor: the walk from every entry ends. */
  ghost predicate Acyclic(es: Entries) {
    forall id | id in es :: Ends(es, Some(id))
  }

  /** The entries met on the way up, root first. */
  ghost function Walk(es: Entries, cur: Option<Id>, n: nat): seq<Entry>
    requires Grounded(es, cur, n)
    decreases n
  {
    if cur.None? || cur.value !in es then []
    else Walk(es, es[cur.value].parent, n - 1) + [es[cur.value]]
  }

  /** Where the walk stops: `None`, or an id that has no entry. */
  ghost function Stop(es: Entries, cur: Option<Id>, n: nat): Option<Id>
    requires Grounded(es, cur, n)
    decreases n
  {
    if cur.None? || cur.value !in es then cur else Stop(es, es[cur.value].parent, n - 1)
  }

  lemma {:induction false} WalkIsUnique(es: Entries, cur: Option<Id>, m: nat, n: nat)
    requires Grounded(es, cur, m) && Grounded(es, cur, n)
    ensures Walk(es, cur, m) == Walk(es, cur, n) && Stop(es, cur, m) == Stop(es, cur, n)
    decreases m
  {
    if cur.Some? && cur.value in es {
      WalkIsUnique(es, es[cur.value].parent, m - 1, n - 1);
    }
  }

  lemma {:induction false} GroundedLonger(es: Entries, cur: Option<Id>, m: nat, n: nat)
    requires Grounded(es, cur, m) && m <= n
    ensures Grounded(es, cur, n)
    decreases m
  {
    if cur.Some? && cur.value in es {
      GroundedLonger(es, es[cur.value].parent, m - 1, n - 1);
    }
  }

  ghost function Fuel(es: Entries, cur: Option<Id>): (n: nat)
    requires Ends(es, cur)
    ensures Grounded(es, cur, n)
  {
    var n: nat :| Grounded(es, cur, n);
    n
  }

  ghost function Branch(es: Entries, cur: Option<Id>): seq<Entry>
    requires Ends(es, cur)
  {
    Walk(es, cur, Fuel(es, cur))
  }

  ghost function Root(es: Entries, cur: Option<Id>): Option<Id>
    requires Ends(es, cur)
  {
    Stop(es, cur, Fuel(es, cur))
  }

  /** The recursion `get_branch` performs, free of the step bound. */
  lemma BranchUnfolds(es: Entries, id: Id)
    requires id in es && Ends(es, Some(id))
    ensures Ends(es, es[id].parent)
    ensures Branch(es, Some(id)) == Branch(es, es[id].parent) + [es[id]]
    ensures Root(es, Some(id)) == Root(es, es[id].parent)
  {
    var n := Fuel(es, Some(id));
    assert Grounded(es, es[id].parent, n - 1);
    WalkIsUnique(es, es[id].parent, n - 1, Fuel(es, es[id].parent));
  }

  lemma BranchStops(es: Entries, cur: Option<Id>)
    requires cur.None? || cur.value !in es
    ensures Ends(es, cur) && Branch(es, cur) == [] && Root(es, cur) == cur
  {
    assert Grounded(es, cur, 0);
  }

  // ---------------------------------------------------------------- the branch is a chain

  /** Each key holds the entry of that id. */
  ghost predicate Keyed(es: Entries) {
    forall id | id in es :: es[id].id == id
  }

  ghost predicate Chain(b: seq<Entry>) {
    forall i | 1 <= i < |b| :: b[i].parent == Some(b[i-1].id)
  }

  /**
   `get_branch` yields the path from the root to the start: each entry's parent precedes it,
   the first one's parent is absent or unknown, it ends in the start and repeats nothing.
   */
  lemma {:induction false} BranchIsChain(es: Entries, cur: Option<Id>, n: nat)
    requires Keyed(es) && Grounded(es, cur, n)
    ensures var b := Walk(es, cur, n);
            && Chain(b)
            && (forall e | e in b :: e.id in es && es[e.id] == e)
            && (b == [] <==> cur.None? || cur.value !in es)
            && (b != [] ==> Some(b[|b|-1].id) == cur && b[0].parent == Stop(es, cur, n))
            && (forall i | 0 <= i < |b| :: Grounded(es, Some(b[i].id), i + 1) && |Walk(es, Some(b[i].id), i + 1)| == i + 1)
    decreases n
  {
    if cur.Some? && cur.value in es {
      var up := es[cur.value].parent;
      BranchIsChain(es, up, n - 1);
      var above, b := Walk(es, up, n - 1), Walk(es, cur, n);
      assert b == above + [es[cur.value]];
      assert forall i | 0 <= i < |above| :: b[i] == above[i];
      if above == [] {
        assert Grounded(es, up, 0);
      } else {
        assert Grounded(es, up, |above|);
        WalkIsUnique(es, up, |above|, n - 1);
      }
      assert Grounded(es, cur, |b|);
      WalkIsUnique(es, cur, |b|, n);
    }
  }

  lemma BranchHasNoRepeats(es: Entries, cur: Option<Id>)
    requires Keyed(es) && Ends(es, cur)
    ensures forall i, j :: 0 <= i < j < |Branch(es, cur)| ==> Branch(es, cur)[i].id != Branch(es, cur)[j].id
  {
    var b := Branch(es, cur);
    BranchIsChain(es, cur, Fuel(es, cur));
    forall i, j | 0 <= i < j < |b|
      ensures b[i].id != b[j].id
    {
      if b[i].id == b[j].id {
        WalkIsUnique(es, Some(b[i].id), i + 1, j + 1);
        assert false;
      }
    }
  }

  // ---------------------------------------------------------------- appending

  function Appended(t: Tree, e: Entry): Tree {
    Tree(t.entries[e.id := e], t.order + [e.id], Some(e.id))
  }

  /** `order` lists the entries once each; the leaf is one of them. */
  ghost predicate WellFormed(t: Tree) {
    && Keyed(t.entries)
    && NoDuplicates(t.order)
    && (forall id :: id in t.order <==> id in t.entries)
    && (t.leaf.Some? ==> t.leaf.value in t.entries)
  }

  lemma AppendKeepsWellFormed(t: Tree, e: Entry)
    requires WellFormed(t) && e.id !in t.entries
    ensures WellFormed(Appended(t, e))
  {
    var t' := Appended(t, e);
    assert forall id :: id in t'.order <==> id in t.order || id == e.id;
  }

  /** Walks that do not stop at the new id are unchanged by adding it. */
  lemma {:induction false} WalkIgnoresNew(es: Entries, e: Entry, cur: Option<Id>, n: nat)
    requires e.id !in es && Grounded(es, cur, n) && Stop(es, cur, n) != Some(e.id)
    ensures var es' := es[e.id := e];
            Grounded(es', cur, n) && Walk(es', cur, n) == Walk(es, cur, n) && Stop(es', cur, n) == Stop(es, cur, n)
    decreases n
  {
    if cur.Some? && cur.value in es {
      WalkIgnoresNew(es, e, es[cur.value].parent, n - 1);
    }
  }

  /** Walks that do stop there go on through the new entry's parent. */
  lemma {:induction false} WalkThroughNew(es: Entries, e: Entry, cur: Option<Id>, n: nat, k: nat)
    requires e.id !in es && Grounded(es, cur, n) && Stop(es, cur, n) == Some(e.id)
    ensures Grounded(es[e.id := e], e.parent, k) ==> Grounded(es[e.id := e], cur, n + 1 + k)
    ensures Grounded(es[e.id := e], cur, k) ==> k > 0 && Grounded(es[e.id := e], e.parent, k - 1)
    decreases n
  {
    var es' := es[e.id := e];
    if cur.Some? && cur.value in es {
      var up := es[cur.value].parent;
      WalkThroughNew(es, e, up, n - 1, k);
      if Grounded(es', cur, k) {
        WalkThroughNew(es, e, up, n - 1, k - 1);
        GroundedLonger(es', e.parent, k - 2, k - 1);
      }
    } else if Grounded(es', e.parent, k) {
      GroundedLonger(es', e.parent, k, n + k);
    }
  }

  lemma {:induction false} CycleNeverEnds(es: Entries, e: Entry, n: nat, k: nat)
    requires e.id !in es && Grounded(es, e.parent, n) && Stop(es, e.parent, n) == Some(e.id)
    ensures !Grounded(es[e.id := e], Some(e.id), k)
    decreases k
  {
    if k > 0 {
      WalkThroughNew(es, e, e.parent, n, k - 1);
      if k > 1 {
        CycleNeverEnds(es, e, n, k - 1);
        assert Grounded(es[e.id := e], Some(e.id), k - 1) == Grounded(es[e.id := e], e.parent, k - 2);
      }
    }
  }

  lemma NewEntryEnds(es: Entries, e: Entry, id: Id)
    requires Acyclic(es) && e.id !in es && Ends(es, e.parent) && Root(es, e.parent) != Some(e.id)
    requires id in es[e.id := e]
    ensures Ends(es[e.id := e], Some(id))
  {
    var es', up := es[e.id := e], Fuel(es, e.parent);
    WalkIgnoresNew(es, e, e.parent, up);
    if id == e.id {
      assert Grounded(es', Some(id), up + 1);
    } else {
      var n := Fuel(es, Some(id));
      if Stop(es, Some(id), n) == Some(e.id) {
        WalkThroughNew(es, e, Some(id), n, up);
      } else {
        WalkIgnoresNew(es, e, Some(id), n);
      }
    }
  }

  lemma ParentEnds(es: Entries, p: Option<Id>)
    requires Acyclic(es)
    ensures Ends(es, p)
  {
    if p.None? || p.value !in es {
      BranchStops(es, p);
    }
  }

  /**
   Exactly when an append with a fresh id keeps every branch finite: the new id must not be
   the missing parent at the top of the new entry's own line. Parents that are absent or
   already present always qualify.
   */
  lemma AppendKeepsAcyclic(t: Tree, e: Entry)
    requires Acyclic(t.entries) && e.id !in t.entries
    ensures Ends(t.entries, e.parent)
    ensures Acyclic(Appended(t, e).entries) <==> Root(t.entries, e.parent) != Some(e.id)
  {
    var es := t.entries;
    var es' := es[e.id := e];
    ParentEnds(es, e.parent);
    if Root(es, e.parent) != Some(e.id) {
      forall id | id in es'
        ensures Ends(es', Some(id))
      {
        NewEntryEnds(es, e, id);
      }
    } else {
      forall k: nat
        ensures !Grounded(es', Some(e.id), k)
      {
        CycleNeverEnds(es, e, Fuel(es, e.parent), k);
      }
      assert !Ends(es', Some(e.id));
    }
  }

  /** Appending below the leaf extends the branch by the new entry. */
  lemma AppendExtendsBranch(t: Tree, e: Entry)
    requires Acyclic(t.entries) && e.id !in t.entries && e.parent == t.leaf
    requires Ends(t.entries, t.leaf) && Root(t.entries, t.leaf) != Some(e.id)
    ensures var t' := Appended(t, e);
            Ends(t'.entries, t'.leaf) && Branch(t'.entries, t'.leaf) == Branch(t.entries, t.leaf) + [e]
  {
    var t', n := Appended(t, e), Fuel(t.entries, t.leaf);
    WalkIgnoresNew(t.entries, e, t.leaf, n);
    assert Grounded(t'.entries, t'.leaf, n + 1);
    WalkIsUnique(t'.entries, t'.leaf, n + 1, Fuel(t'.entries, t'.leaf));
  }
}
