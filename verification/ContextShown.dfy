/** What the model is shown of a branch, told message by message and block by block. */
module ContextShown {
  import opened PyText
  import opened Prelude
  import opened SessionTree
  import opened SessionContext

  /** Images, and texts that are more than white space. */
  predicate Visible(b: Block) {
    b.ImageBlock? || exists c | c in b.text :: !IsSpace(c)
  }

  predicate ShowsBlock(p: Part, b: Block) {
    match b
    case ImageBlock(mime, data) => p == ImagePart("data:" + mime + ";base64," + data)
    case TextBlock(text) => p == TextPart(text)
  }

  /** The parts are the blocks at positions `at`, in order: all the visible ones and no others. */
  predicate ShowsBlocksAt(parts: seq<Part>, blocks: seq<Block>, at: seq<nat>) {
    && |at| == |parts| && Increasing(at)
    && (forall k | 0 <= k < |at| :: at[k] < |blocks| && Visible(blocks[at[k]]) && ShowsBlock(parts[k], blocks[at[k]]))
    && (forall j: nat | j < |blocks| && Visible(blocks[j]) :: j in at)
  }

  ghost predicate ShowsContent(shown: LlmContent, role: Role, stored: Content) {
    match stored
    case Text(text) => shown == if role == Role.Tool then Parts([TextPart(text)]) else Plain(text)
    case Blocks(blocks) => shown.Parts? && exists at :: ShowsBlocksAt(shown.parts, blocks, at)
  }

  /** Role, calls and call id are the entry's own, and so is the content. */
  ghost predicate Shows(m: LlmMessage, e: Entry) {
    && e.Message? && m.role == e.role && m.toolCalls == e.toolCalls && m.toolCallId == e.toolCallId
    && ShowsContent(m.content, e.role, e.content)
  }

  /** The messages are the message entries at positions `at`, in order: all from `lo` on, but for `skip`. */
  ghost predicate ShowsFrom(ms: seq<LlmMessage>, b: seq<Entry>, lo: nat, skip: Option<Id>, at: seq<nat>) {
    && |at| == |ms| && Increasing(at)
    && (forall k | 0 <= k < |at| :: lo <= at[k] < |b| && Some(b[at[k]].id) != skip && Shows(ms[k], b[at[k]]))
    && (forall j: nat | lo <= j < |b| && b[j].Message? && Some(b[j].id) != skip :: j in at)
  }

  predicate NoCompaction(b: seq<Entry>) {
    forall i | 0 <= i < |b| :: !b[i].Compaction?
  }

  predicate Latest(b: seq<Entry>, i: nat) {
    i < |b| && b[i].Compaction? && forall j | i < j < |b| :: !b[j].Compaction?
  }

  /** The tail that compaction `i` keeps starts at its first-kept entry, or right behind it when there is none. */
  predicate KeepsFrom(b: seq<Entry>, i: nat, lo: nat)
    requires i < |b| && b[i].Compaction?
  {
    if exists k | 0 <= k < |b| :: b[k].id == b[i].firstKept then
      lo < |b| && b[lo].id == b[i].firstKept && forall k | 0 <= k < lo :: b[k].id != b[i].firstKept
    else lo == i + 1
  }

  lemma Extended(at: seq<nat>, n: nat)
    requires Increasing(at) && forall k | 0 <= k < |at| :: at[k] < n
    ensures Increasing(at + [n])
  {
  }

  lemma {:induction false} PartsAreVisible(blocks: seq<Block>) returns (at: seq<nat>)
    ensures ShowsBlocksAt(PartsOf(blocks), blocks, at)
  {
    at := [];
    if blocks != [] {
      var front, last := blocks[..|blocks|-1], blocks[|blocks|-1];
      at := PartsAreVisible(front);
      if Visible(last) {
        Extended(at, |front|);
        at := at + [|front|];
      }
    }
  }

  lemma EntryIsShown(e: Entry)
    requires e.Message?
    ensures Shows(ToLlm(e), e)
  {
    if e.content.Blocks? {
      var at := PartsAreVisible(e.content.blocks);
      assert ShowsBlocksAt(PartsOf(e.content.blocks), e.content.blocks, at);
    }
  }

  lemma ShownOneMore(ms: seq<LlmMessage>, b: seq<Entry>, e: Entry, lo: nat, skip: Option<Id>, at: seq<nat>)
    requires ShowsFrom(ms, b, lo, skip, at) && lo <= |b| && e.Message? && Some(e.id) != skip
    ensures ShowsFrom(ms + [ToLlm(e)], b + [e], lo, skip, at + [|b|])
  {
    EntryIsShown(e);
    Extended(at, |b|);
    var more := at + [|b|];
    forall j: nat | lo <= j < |b + [e]| && (b + [e])[j].Message? && Some((b + [e])[j].id) != skip
      ensures j in more
    {
      if j < |b| {
        assert j in at;
      } else {
        assert more[|at|] == j;
      }
    }
  }

  lemma HiddenOneMore(ms: seq<LlmMessage>, b: seq<Entry>, e: Entry, lo: nat, skip: Option<Id>, at: seq<nat>)
    requires ShowsFrom(ms, b, lo, skip, at) && !(e.Message? && Some(e.id) != skip)
    ensures ShowsFrom(ms, b + [e], lo, skip, at)
  {
  }

  lemma {:induction false} MessagesAreShown(b: seq<Entry>, lo: nat, hi: nat, skip: Option<Id>) returns (at: seq<nat>)
    requires hi <= |b|
    ensures ShowsFrom(Messages(b, lo, hi, skip), b[..hi], lo, skip, at)
  {
    at := [];
    if lo < hi {
      at := MessagesAreShown(b, lo, hi - 1, skip);
      var ms, e := Messages(b, lo, hi - 1, skip), b[hi-1];
      assert b[..hi] == b[..hi-1] + [e];
      if e.Message? && Some(e.id) != skip {
        ShownOneMore(ms, b[..hi-1], e, lo, skip, at);
        at := at + [hi - 1];
      } else {
        HiddenOneMore(ms, b[..hi-1], e, lo, skip, at);
        assert ms + [] == ms;
      }
    }
  }

  lemma {:induction false} LatestIsFound(b: seq<Entry>, n: nat)
    requires n <= |b|
    ensures match LastCompaction(b, n)
            case None => NoCompaction(b[..n])
            case Some(i) => Latest(b[..n], i)
  {
    if n > 0 {
      LatestIsFound(b, n - 1);
      assert forall j | 0 <= j < n - 1 :: b[..n][j] == b[..n-1][j];
    }
  }

  lemma {:induction false} FirstIsFound(b: seq<Entry>, n: nat, id: Id)
    requires n <= |b|
    ensures match FirstIndex(b, n, id)
            case None => forall k | 0 <= k < n :: b[k].id != id
            case Some(i) => forall k | 0 <= k < i :: b[k].id != id
  {
    if n > 0 {
      FirstIsFound(b, n - 1, id);
    }
  }

  /** Without a compaction the model is shown every message entry of the branch, in order. */
  lemma ContextShowsBranch(b: seq<Entry>) returns (at: seq<nat>)
    requires NoCompaction(b)
    ensures ShowsFrom(ContextOf(b), b, 0, None, at)
  {
    LatestIsFound(b, |b|);
    at := MessagesAreShown(b, 0, |b|, None);
    assert b[..|b|] == b;
  }

  /** After compactions it is shown the latest summary and the message entries of the kept tail. */
  lemma ContextShowsTail(b: seq<Entry>, i: nat, lo: nat) returns (at: seq<nat>)
    requires Latest(b, i) && KeepsFrom(b, i, lo)
    ensures ContextOf(b) != []
    ensures ContextOf(b)[0] == LlmMessage(Assistant, Plain("[Previous conversation summary]\n" + b[i].summary), [], "")
    ensures ShowsFrom(ContextOf(b)[1..], b, lo, Some(b[i].id), at)
  {
    LatestIsFound(b, |b|);
    FirstIsFound(b, |b|, b[i].firstKept);
    assert b[..|b|] == b;
    assert LastCompaction(b, |b|) == Some(i) && KeptFrom(b, i) == lo;
    at := MessagesAreShown(b, lo, |b|, Some(b[i].id));
    assert ContextOf(b)[1..] == Messages(b, lo, |b|, Some(b[i].id));
  }

  /** Nothing is shown of an empty branch. */
  lemma EmptyContext()
    ensures ContextOf([]) == []
  {
  }
}
