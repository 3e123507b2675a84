/** Streamed tool-call fragments and the calls assembled from them. */
module ToolCallAssembly {
  import opened Prelude
  import opened PyText

  /** One normalised delta; empty text stands for an absent field, which the merge skips alike. */
  datatype Delta = Delta(index: int, id: string, kind: string, name: string, arguments: string)

  datatype Slot = Slot(id: string, kind: string, name: string, arguments: string)

  const EmptySlot := Slot("", "function", "", "")

  type Slots = map<int, Slot>

  function Or(x: string, otherwise: string): string {
    if x != "" then x else otherwise
  }

  function Patched(slot: Slot, d: Delta): Slot {
    Slot(Or(d.id, slot.id), Or(d.kind, slot.kind), Or(d.name, slot.name), slot.arguments + d.arguments)
  }

  function Merged(b: Slots, d: Delta): Slots {
    b[d.index := Patched(if d.index in b then b[d.index] else EmptySlot, d)]
  }

  /** `merge_tool_call_deltas`. */
  function MergeAll(b: Slots, ds: seq<Delta>): Slots {
    if ds == [] then b else Merged(MergeAll(b, ds[..|ds|-1]), ds[|ds|-1])
  }

  /** One merge per streamed chunk. */
  function MergeChunks(b: Slots, chunks: seq<seq<Delta>>): Slots {
    if chunks == [] then b else MergeAll(MergeChunks(b, chunks[..|chunks|-1]), chunks[|chunks|-1])
  }

  function Flatten(chunks: seq<seq<Delta>>): seq<Delta> {
    if chunks == [] then [] else Flatten(chunks[..|chunks|-1]) + chunks[|chunks|-1]
  }

  // ---------------------------------------------------------------- what one index receives

  /** The deltas of index `i`, in order of arrival. */
  function Fragments(ds: seq<Delta>, i: int): seq<Delta> {
    if ds == [] then []
    else
      var front, d := Fragments(ds[..|ds|-1], i), ds[|ds|-1];
      if d.index == i then front + [d] else front
  }

  /** Argument text is joined, every other field is the last non-empty one. */
  function SlotOf(fs: seq<Delta>): Slot {
    if fs == [] then EmptySlot else Patched(SlotOf(fs[..|fs|-1]), fs[|fs|-1])
  }

  function Arguments(fs: seq<Delta>): string {
    if fs == [] then "" else Arguments(fs[..|fs|-1]) + fs[|fs|-1].arguments
  }

  /** The last non-empty text, or nothing. */
  function LastText(texts: seq<string>): string {
    if texts == [] then "" else if texts[|texts|-1] != "" then texts[|texts|-1] else LastText(texts[..|texts|-1])
  }

  function Ids(fs: seq<Delta>): seq<string> {
    seq(|fs|, i requires 0 <= i < |fs| => fs[i].id)
  }

  function Names(fs: seq<Delta>): seq<string> {
    seq(|fs|, i requires 0 <= i < |fs| => fs[i].name)
  }

  lemma {:induction false} FieldsAreLast(fs: seq<Delta>)
    ensures SlotOf(fs) == Slot(LastText(Ids(fs)), SlotOf(fs).kind, LastText(Names(fs)), Arguments(fs))
  {
    if fs != [] {
      FieldsAreLast(fs[..|fs|-1]);
      assert Ids(fs)[..|fs|-1] == Ids(fs[..|fs|-1]) && Names(fs)[..|fs|-1] == Names(fs[..|fs|-1]);
    }
  }

  predicate LastAt(texts: seq<string>, last: string, k: nat) {
    k < |texts| && texts[k] == last && forall j | k < j < |texts| :: texts[j] == ""
  }

  /** It is the last one that is not empty, and empty only when all are. */
  ghost predicate IsLast(texts: seq<string>, last: string) {
    if last == "" then forall k | 0 <= k < |texts| :: texts[k] == "" else exists k :: LastAt(texts, last, k)
  }

  lemma {:induction false} LastTextAt(texts: seq<string>) returns (k: nat)
    requires LastText(texts) != ""
    ensures LastAt(texts, LastText(texts), k)
  {
    if texts[|texts|-1] != "" {
      k := |texts| - 1;
    } else {
      k := LastTextAt(texts[..|texts|-1]);
    }
  }

  lemma {:induction false} NoText(texts: seq<string>)
    requires LastText(texts) == ""
    ensures forall k | 0 <= k < |texts| :: texts[k] == ""
  {
    if texts != [] {
      NoText(texts[..|texts|-1]);
    }
  }

  lemma LastTextIsLast(texts: seq<string>)
    ensures IsLast(texts, LastText(texts))
  {
    if LastText(texts) != "" {
      var k := LastTextAt(texts);
    } else {
      NoText(texts);
    }
  }

  /** Arguments are joined in order; id and name are the last non-empty ones. */
  lemma SlotFields(fs: seq<Delta>)
    ensures SlotOf(fs).arguments == Arguments(fs)
    ensures IsLast(Ids(fs), SlotOf(fs).id) && IsLast(Names(fs), SlotOf(fs).name)
  {
    FieldsAreLast(fs);
    LastTextIsLast(Ids(fs));
    LastTextIsLast(Names(fs));
  }

  /** The buffer holds, per index, exactly what that index's own fragments amount to. */
  lemma {:induction false} AssembledPerIndex(ds: seq<Delta>, i: int)
    ensures i in MergeAll(map[], ds) <==> Fragments(ds, i) != []
    ensures i in MergeAll(map[], ds) ==> MergeAll(map[], ds)[i] == SlotOf(Fragments(ds, i))
  {
    if ds != [] {
      var front, d := ds[..|ds|-1], ds[|ds|-1];
      AssembledPerIndex(front, i);
      if d.index == i {
        var fs := Fragments(ds, i);
        assert fs[..|fs|-1] == Fragments(front, i);
      }
    }
  }

  /**
   How the stream is cut into chunks, and how fragments of different calls interleave, does
   not matter: the same fragments per index give the same calls.
   */
  lemma AssemblyIsPerIndex(xs: seq<Delta>, ys: seq<Delta>)
    requires forall i :: Fragments(xs, i) == Fragments(ys, i)
    ensures MergeAll(map[], xs) == MergeAll(map[], ys)
  {
    var a, b := MergeAll(map[], xs), MergeAll(map[], ys);
    forall i
      ensures i in a <==> i in b
      ensures i in a ==> a[i] == b[i]
    {
      AssembledPerIndex(xs, i);
      AssembledPerIndex(ys, i);
    }
  }

  lemma {:induction false} MergeAppend(b: Slots, xs: seq<Delta>, ys: seq<Delta>)
    ensures MergeAll(b, xs + ys) == MergeAll(MergeAll(b, xs), ys)
    decreases |ys|
  {
    if ys == [] {
      assert xs + ys == xs;
    } else {
      assert (xs + ys)[..|xs + ys|-1] == xs + ys[..|ys|-1];
      MergeAppend(b, xs, ys[..|ys|-1]);
    }
  }

  lemma {:induction false} ChunkBoundariesDoNotMatter(b: Slots, chunks: seq<seq<Delta>>)
    ensures MergeChunks(b, chunks) == MergeAll(b, Flatten(chunks))
    decreases |chunks|
  {
    if chunks != [] {
      ChunkBoundariesDoNotMatter(b, chunks[..|chunks|-1]);
      MergeAppend(b, Flatten(chunks[..|chunks|-1]), chunks[|chunks|-1]);
    }
  }

  lemma PairUnfolds(b: Slots, x: Delta, y: Delta)
    ensures MergeAll(b, [x, y]) == Merged(Merged(b, x), y)
  {
    assert [x][..0] == [] && MergeAll(b, [x]) == Merged(b, x);
    assert [x, y][..1] == [x];
  }

  lemma MergedCommute(c: Slots, x: Delta, y: Delta)
    requires x.index != y.index
    ensures MergeAll(c, [x, y]) == MergeAll(c, [y, x])
  {
    PairUnfolds(c, x, y);
    PairUnfolds(c, y, x);
    assert Merged(Merged(c, x), y) == Merged(Merged(c, y), x);
  }

  /** Any two neighbouring deltas of different calls may be swapped, in any buffer. */
  lemma DifferentCallsCommute(b: Slots, before: seq<Delta>, x: Delta, y: Delta, after: seq<Delta>)
    requires x.index != y.index
    ensures MergeAll(b, before + [x, y] + after) == MergeAll(b, before + [y, x] + after)
  {
    MergeAppend(b, before + [x, y], after);
    MergeAppend(b, before + [y, x], after);
    MergeAppend(b, before, [x, y]);
    MergeAppend(b, before, [y, x]);
    MergedCommute(MergeAll(b, before), x, y);
  }

  // ---------------------------------------------------------------- finalising

  datatype FinalCall = FinalCall(id: string, name: string, arguments: string)

  ghost predicate Ascending(s: seq<int>) {
    forall i, j :: 0 <= i < j < |s| ==> s[i] < s[j]
  }

  /** `json.dumps(json.loads(text))`, or nothing when the text does not parse. */
  type Reformat = string -> Option<string>

  function FinalOf(i: int, slot: Slot, json: Reformat): FinalCall {
    var raw := Or(slot.arguments, "{}");
    FinalCall(Or(slot.id, "call_" + Str(i)), slot.name, match json(raw) case Some(t) => t case None => raw)
  }

  lemma {:induction false} AscendingIsUnique(s: seq<int>, t: seq<int>)
    requires Ascending(s) && Ascending(t)
    requires forall x :: x in s <==> x in t
    ensures s == t
  {
    assert s != [] ==> s[0] in s;
    assert t != [] ==> t[0] in t;
    if s != [] && t != [] {
      assert s[0] in t && t[0] in s;
      var i :| 0 <= i < |s| && s[i] == t[0];
      var j :| 0 <= j < |t| && t[j] == s[0];
      assert s[0] == t[0];
      forall x
        ensures x in s[1..] <==> x in t[1..]
      {
        TailMembers(s, x);
        TailMembers(t, x);
      }
      AscendingIsUnique(s[1..], t[1..]);
      assert s == [s[0]] + s[1..] && t == [t[0]] + t[1..];
    }
  }

  lemma TailMembers(s: seq<int>, x: int)
    requires Ascending(s) && s != []
    ensures x in s[1..] <==> x in s && x != s[0]
  {
    assert s == [s[0]] + s[1..];
    if x in s[1..] {
      var k :| 0 <= k < |s[1..]| && s[1..][k] == x;
      assert s[0] < s[k+1];
    }
  }

  class ToolCallBuffer {
    var slots: map<int, Slot>

    constructor ()
      ensures slots == map[]
    {
      slots := map[];
    }

    method Merge(deltas: seq<Delta>)
      modifies this
      ensures slots == MergeAll(old(slots), deltas)
    {
      assert deltas[..0] == [];
      for k := 0 to |deltas|
        invariant slots == MergeAll(old(slots), deltas[..k])
      {
        var d := deltas[k];
        var slot := if d.index in slots then slots[d.index] else EmptySlot;
        if d.id != "" {
          slot := slot.(id := d.id);
        }
        if d.kind != "" {
          slot := slot.(kind := d.kind);
        }
        if d.name != "" {
          slot := slot.(name := d.name);
        }
        if d.arguments != "" {
          slot := slot.(arguments := slot.arguments + d.arguments);
        }
        assert deltas[..k+1][..k] == deltas[..k];
        assert d.arguments == "" ==> slot.arguments + d.arguments == slot.arguments;
        slots := slots[d.index := slot];
      }
      assert deltas[..|deltas|] == deltas;
    }

    /** `finalize_tool_calls`: one call per index, in strictly increasing order of index. */
    method Finalize(json: Reformat) returns (calls: seq<FinalCall>, order: seq<int>)
      ensures Ascending(order) && forall i :: i in order <==> i in slots
      ensures |calls| == |order|
      ensures forall k | 0 <= k < |order| :: order[k] in slots && calls[k] == FinalOf(order[k], slots[order[k]], json)
    {
      calls, order := [], [];
      var rest := slots.Keys;
      while rest != {}
        invariant TakenInOrder(slots, rest, order)
        invariant |calls| == |order|
        invariant forall k | 0 <= k < |order| :: order[k] in slots && calls[k] == FinalOf(order[k], slots[order[k]], json)
        decreases rest
      {
        var i := Least(rest);
        TakeLeast(slots, rest, order, i);
        calls := calls + [FinalOf(i, slots[i], json)];
        order := order + [i];
        rest := rest - {i};
      }
    }
  }

  /** The indices not in `rest` have been taken, in increasing order, before all that remain. */
  ghost predicate TakenInOrder(slots: Slots, rest: set<int>, order: seq<int>) {
    && rest <= slots.Keys && Ascending(order)
    && (forall i :: i in order <==> i in slots && i !in rest)
    && (forall i, k | i in rest && 0 <= k < |order| :: order[k] < i)
  }

  lemma TakeLeast(slots: Slots, rest: set<int>, order: seq<int>, i: int)
    requires TakenInOrder(slots, rest, order) && i in rest && forall j | j in rest :: i <= j
    ensures TakenInOrder(slots, rest - {i}, order + [i])
  {
    var more := order + [i];
    assert forall x :: x in more <==> x in order || x == i;
    assert forall k | 0 <= k < |order| :: more[k] == order[k] && order[k] < i;
  }

  /** Calls the provider sent without ids still get ids that tell them apart. */
  lemma FallbackIdsDiffer(i: int, a: Slot, j: int, b: Slot, json: Reformat)
    requires a.id == "" && b.id == "" && i != j
    ensures FinalOf(i, a, json).id != FinalOf(j, b, json).id
  {
    assert FinalOf(i, a, json).id[5..] == Str(i) && FinalOf(j, b, json).id[5..] == Str(j);
    if Str(i) == Str(j) {
      StrInjective(i, j);
    }
  }

  predicate Fallback(i: int, id: string) {
    id == "call_" + Str(i)
  }

  /** The ids the provider sent are pairwise different, and none is the fallback of a call it sent without. */
  ghost predicate IdsTellApart(slots: Slots) {
    && (forall i, j | i in slots && j in slots && i != j && slots[i].id != "" :: slots[i].id != slots[j].id)
    && (forall i, j | i in slots && j in slots && slots[i].id == "" :: !Fallback(i, slots[j].id))
  }

  /** What `Finalize` returns for a buffer. */
  ghost predicate FinalizedFrom(slots: Slots, json: Reformat, calls: seq<FinalCall>, order: seq<int>) {
    && Ascending(order) && (forall i :: i in order <==> i in slots) && |calls| == |order|
    && forall k | 0 <= k < |order| :: order[k] in slots && calls[k] == FinalOf(order[k], slots[order[k]], json)
  }

  lemma TwoFinalIds(i: int, a: Slot, j: int, b: Slot, json: Reformat)
    requires i != j
    ensures FinalOf(i, a, json).id != FinalOf(j, b, json).id
       <==> if a.id != "" then (if b.id != "" then a.id != b.id else !Fallback(j, a.id))
            else (b.id != "" ==> !Fallback(i, b.id))
  {
    if a.id == "" && b.id == "" {
      FallbackIdsDiffer(i, a, j, b, json);
    }
  }

  /** The finalized calls have pairwise different ids exactly under that condition. */
  lemma WhenFinalIdsDiffer(slots: Slots, json: Reformat, calls: seq<FinalCall>, order: seq<int>)
    requires FinalizedFrom(slots, json, calls, order)
    ensures (forall k, l | 0 <= k < l < |calls| :: calls[k].id != calls[l].id) <==> IdsTellApart(slots)
  {
    forall k, l | 0 <= k < l < |calls|
      ensures calls[k].id != calls[l].id <==> FinalOf(order[k], slots[order[k]], json).id != FinalOf(order[l], slots[order[l]], json).id
      ensures order[k] != order[l]
    {
    }
    if IdsTellApart(slots) {
      forall k, l | 0 <= k < l < |calls|
        ensures calls[k].id != calls[l].id
      {
        TwoFinalIds(order[k], slots[order[k]], order[l], slots[order[l]], json);
      }
    } else {
      var i, j := Clashing(slots);
      var k :| 0 <= k < |order| && order[k] == i;
      var l :| 0 <= l < |order| && order[l] == j;
      TwoFinalIds(i, slots[i], j, slots[j], json);
      assert calls[k].id == calls[l].id;
      if l < k {
        assert calls[l].id == calls[k].id;
      }
    }
  }

  lemma Clashing(slots: Slots) returns (i: int, j: int)
    requires !IdsTellApart(slots)
    ensures i in slots && j in slots && i != j
    ensures if slots[i].id != "" then slots[i].id == slots[j].id else slots[j].id != "" && Fallback(i, slots[j].id)
  {
    if a, b :| a in slots && b in slots && a != b && slots[a].id != "" && slots[a].id == slots[b].id {
      i, j := a, b;
    } else {
      i, j :| i in slots && j in slots && slots[i].id == "" && Fallback(i, slots[j].id);
      assert "call_" + Str(i) != "";
    }
  }

  /** A provider id can be the fallback of another call. */
  lemma FallbackCanCollide(json: Reformat)
    ensures FinalOf(0, EmptySlot.(id := "call_1"), json).id == FinalOf(1, EmptySlot, json).id
  {
    assert Str(1) == "1";
  }

  // ---- From the stream to the finalized calls ----

  /**
   What a stream amounts to: the call of each index carries the last id the provider gave it, else a
   generated one, the last name, and its argument text joined in order, normalised when it is JSON and
   "{}" when there is none.
   */
  lemma StreamIsFinalized(ds: seq<Delta>, json: Reformat, calls: seq<FinalCall>, order: seq<int>, k: nat)
    requires FinalizedFrom(MergeAll(map[], ds), json, calls, order) && k < |order|
    ensures var fs := Fragments(ds, order[k]);
            var text := if Arguments(fs) == "" then "{}" else Arguments(fs);
            && fs != [] && calls[k].name == LastText(Names(fs))
            && calls[k].arguments == (if json(text).Some? then json(text).value else text)
            && calls[k].id == if LastText(Ids(fs)) == "" then "call_" + Str(order[k]) else LastText(Ids(fs))
  {
    AssembledPerIndex(ds, order[k]);
    FieldsAreLast(Fragments(ds, order[k]));
  }
}
