/**
 Approval of tool calls by a person, on both channels. A hook handles the gated calls one after
 the other: it opens a pending entry, waits for a reply or the deadline, and closes the entry.
 Everything that happens during one await is a window: the replies arriving in it, in order.
 A wait that ends with no reply for its entry ended by the deadline.
 */
module Approval {

  const APPROVE := "approve"
  const DENY := "deny"

  datatype Reply<K> = Reply(key: K, approved: bool, operator: string)
  datatype Call = Call(id: string, tool: string)
  datatype Record = Record(tool: string, callId: string, tier: string, decision: string, decidedBy: string)
  datatype Ruling = Ruling(decision: string, decidedBy: string)

  datatype Verdict = Open | Settled(approved: bool, operator: string)

  /** A pending entry, as a value; no originator on the web. */
  datatype Entry = Entry(originator: string, verdict: Verdict)

  const NOBODY := ""

  /** The check of the card callback: a named operator other than the originator is turned away. */
  predicate Admits(originator: string, operator: string) {
    operator == NOBODY || originator == NOBODY || operator == originator
  }

  /** The reply is for this entry and gets past the check. */
  predicate Counts<K(==)>(key: K, originator: string, r: Reply<K>) {
    r.key == key && Admits(originator, r.operator)
  }

  function Told<K>(e: Entry, r: Reply<K>): Entry {
    e.(verdict := Settled(r.approved, r.operator))
  }

  /** A pending entry after the given replies: the last one that counts prevails. */
  function Settle<K(==)>(key: K, e: Entry, replies: seq<Reply<K>>): Entry
    decreases |replies|
  {
    if replies == [] then e
    else Settle(key, if Counts(key, e.originator, replies[0]) then Told(e, replies[0]) else e, replies[1..])
  }

  ghost predicate Mentions<K(!new)>(key: K, originator: string, replies: seq<Reply<K>>) {
    exists i :: 0 <= i < |replies| && Counts(key, originator, replies[i])
  }

  /** `i` is the last reply that counts. */
  ghost predicate LastFor<K(!new)>(key: K, originator: string, replies: seq<Reply<K>>, i: int) {
    && 0 <= i < |replies| && Counts(key, originator, replies[i])
    && forall j :: i < j < |replies| ==> !Counts(key, originator, replies[j])
  }

  lemma {:induction false} SettleAppend<K>(key: K, e: Entry, a: seq<Reply<K>>, b: seq<Reply<K>>)
    ensures Settle(key, e, a + b) == Settle(key, Settle(key, e, a), b)
    decreases |a|
  {
    if a == [] {
      assert a + b == b;
    } else {
      assert (a + b)[0] == a[0] && (a + b)[1..] == a[1..] + b;
      SettleAppend(key, if Counts(key, e.originator, a[0]) then Told(e, a[0]) else e, a[1..], b);
    }
  }

  lemma {:induction false} SettleIsLast<K(!new)>(key: K, e: Entry, replies: seq<Reply<K>>)
    ensures Settle(key, e, replies).originator == e.originator
    ensures !Mentions(key, e.originator, replies) ==> Settle(key, e, replies) == e
    ensures forall i :: LastFor(key, e.originator, replies, i) ==>
              Settle(key, e, replies).verdict == Settled(replies[i].approved, replies[i].operator)
    ensures Mentions(key, e.originator, replies) ==> Settle(key, e, replies).verdict.Settled?
    decreases |replies|
  {
    if replies != [] {
      var rest := replies[1..];
      var f := if Counts(key, e.originator, replies[0]) then Told(e, replies[0]) else e;
      SettleIsLast(key, f, rest);
      assert forall j :: 0 <= j < |rest| ==> rest[j] == replies[j+1];
      if Mentions(key, e.originator, rest) {
        var j :| 0 <= j < |rest| && Counts(key, e.originator, rest[j]);
        assert Counts(key, e.originator, replies[j+1]);
      }
      forall i | LastFor(key, e.originator, replies, i)
        ensures Settle(key, e, replies).verdict == Settled(replies[i].approved, replies[i].operator)
      {
        if i > 0 {
          assert rest[i-1] == replies[i];
          assert LastFor(key, e.originator, rest, i - 1);
        } else {
          assert !Mentions(key, e.originator, rest);
        }
      }
    }
  }

  lemma {:induction false} LastExists<K(!new)>(key: K, originator: string, replies: seq<Reply<K>>) returns (i: int)
    requires Mentions(key, originator, replies)
    ensures LastFor(key, originator, replies, i)
    decreases |replies|
  {
    var n := |replies| - 1;
    if Counts(key, originator, replies[n]) {
      i := n;
    } else {
      var j :| 0 <= j < |replies| && Counts(key, originator, replies[j]);
      assert replies[..n][j] == replies[j];
      i := LastExists(key, originator, replies[..n]);
      assert replies[..n][i] == replies[i];
    }
  }

  /** One reply: it reaches its entry when it gets past the check, and is dropped without an entry. */
  function Hear<K(==)>(entries: map<K, Entry>, r: Reply<K>): map<K, Entry> {
    if r.key in entries && Admits(entries[r.key].originator, r.operator) then entries[r.key := Told(entries[r.key], r)] else entries
  }

  function Heard<K(==)>(entries: map<K, Entry>, replies: seq<Reply<K>>): map<K, Entry>
    decreases |replies|
  {
    if replies == [] then entries else Heard(Hear(entries, replies[0]), replies[1..])
  }

  /** Each entry hears exactly the replies for its own key. */
  lemma {:induction false} HeardAt<K>(entries: map<K, Entry>, replies: seq<Reply<K>>, k: K)
    ensures k in Heard(entries, replies) <==> k in entries
    ensures k in entries ==> Heard(entries, replies)[k] == Settle(k, entries[k], replies)
    decreases |replies|
  {
    if replies != [] {
      HeardAt(Hear(entries, replies[0]), replies[1..], k);
    }
  }

  lemma {:induction false} HeardAppend<K>(entries: map<K, Entry>, a: seq<Reply<K>>, b: seq<Reply<K>>)
    ensures Heard(entries, a + b) == Heard(Heard(entries, a), b)
    decreases |a|
  {
    if a == [] {
      assert a + b == b;
    } else {
      assert (a + b)[0] == a[0] && (a + b)[1..] == a[1..] + b;
      HeardAppend(Hear(entries, a[0]), a[1..], b);
    }
  }

  /** Opening and closing one entry does not disturb the others. */
  lemma {:induction false} HeardMinus<K>(entries: map<K, Entry>, gone: set<K>, replies: seq<Reply<K>>)
    ensures Heard(entries - gone, replies) == Heard(entries, replies) - gone
    decreases |replies|
  {
    if replies != [] {
      var r := replies[0];
      HeardMinus(Hear(entries, r), gone, replies[1..]);
      assert Hear(entries, r) - gone == Hear(entries - gone, r);
    }
  }

  lemma OpenedAndClosed<K>(entries: map<K, Entry>, key: K, e: Entry, replies: seq<Reply<K>>)
    ensures Heard(entries[key := e], replies) - {key} == Heard(entries, replies) - {key}
  {
    assert entries[key := e] - {key} == entries - {key};
    HeardMinus(entries[key := e], {key}, replies);
    HeardMinus(entries, {key}, replies);
  }

  lemma MinusTwice<K>(entries: map<K, Entry>, gone: set<K>, key: K)
    ensures entries - gone - {key} == entries - (gone + {key})
  {
  }

  /** The table of pending entries of one channel. */
  class Table<K(==)> {
    var pending: map<K, Entry>

    constructor ()
      ensures pending == map[]
    {
      pending := map[];
    }

    /** `create_pending`: an entry under the same key is replaced. */
    method CreatePending(key: K, originator: string)
      modifies this
      ensures pending == old(pending)[key := Entry(originator, Open)]
    {
      pending := pending[key := Entry(originator, Open)];
    }

    /** `discard_pending` and `discard`. */
    method Discard(key: K)
      modifies this
      ensures pending == old(pending) - {key}
    {
      pending := pending - {key};
    }

    /** `set_approval_decision` and `set_decision`. */
    method SetDecision(reply: Reply<K>) returns (found: bool)
      modifies this
      ensures found == (reply.key in old(pending))
      ensures pending == if found then old(pending)[reply.key := Told(old(pending)[reply.key], reply)] else old(pending)
    {
      found := reply.key in pending;
      if found {
        pending := pending[reply.key := Told(pending[reply.key], reply)];
      }
    }

    /**
     A click on a card, or a reply on the web. The card carries the originator its entry was
     opened with; the check comes before the entry is looked up.
     */
    method Receive(reply: Reply<K>)
      modifies this
      ensures pending == Hear(old(pending), reply)
      ensures var entries, key := old(pending), reply.key;
              if key !in entries || (reply.operator != "" && entries[key].originator != "" && reply.operator != entries[key].originator) then
                pending == entries
              else pending == entries[key := Entry(entries[key].originator, Settled(reply.approved, reply.operator))]
    {
      if reply.key in pending && !Admits(pending[reply.key].originator, reply.operator) {
        return;
      }
      var found := SetDecision(reply);
    }

    /** One await: the replies of the window arrive. */
    method Await(window: seq<Reply<K>>)
      modifies this
      ensures pending == Heard(old(pending), window)
    {
      for i := 0 to |window|
        invariant pending == Heard(old(pending), window[..i])
      {
        Receive(window[i]);
        assert window[..i+1] == window[..i] + [window[i]];
        HeardAppend(old(pending), window[..i], [window[i]]);
      }
      assert window[..|window|] == window;
    }
  }
}
