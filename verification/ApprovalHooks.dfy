/**
 The two approval hooks. Both ask for one call at a time, give one decision and write one audit
 record per call, and leave no entry behind.
 */
module ApprovalHooks {
  import opened Prelude
  import opened Approval
  import opened PyText

  const BY_TIMEOUT := "auto:timeout"
  const BY_POST_FAILURE := "auto:post-failed"
  const BY_USER := "user"

  function WebKey(conversation: string, callId: string): string {
    conversation + ":" + callId
  }

  function Said(approved: bool): string {
    if approved then APPROVE else DENY
  }

  function WebRuling(key: string, window: seq<Reply<string>>): Ruling {
    match Settle(key, Entry(NOBODY, Open), window).verdict
    case Open => Ruling(DENY, BY_TIMEOUT)
    case Settled(approved, _) => Ruling(Said(approved), BY_USER)
  }

  type Keyed = (string, string)

  /**
   The awaits of one Feishu call: posting the card, waiting, and then the awaits before and after
   the entry is discarded (stopping the countdown, patching the card).
   */
  datatype FeishuWait = FeishuWait(
    posted: bool, posting: seq<Reply<Keyed>>, waiting: seq<Reply<Keyed>>,
    closing: seq<Reply<Keyed>>, closed: seq<Reply<Keyed>>)

  function Named(operator: string): string {
    if operator == "" then BY_USER else operator
  }

  /** The replies that can decide a call. */
  function Deciding(w: FeishuWait): seq<Reply<Keyed>> {
    w.posting + w.waiting
  }

  /** `_resolve_originator`, without a resolver: the third part of a Feishu session id. */
  function Originator(session: string): string {
    var parts := Split(session, ':', |session|);
    if |parts| >= 3 && parts[0] == "feishu" then parts[2] else NOBODY
  }

  /** The entry a Feishu call opens. */
  function Card(key: Keyed): Entry {
    Entry(Originator(key.0), Open)
  }

  function FeishuRuling(key: Keyed, w: FeishuWait): Ruling {
    if !w.posted then Ruling(DENY, BY_POST_FAILURE)
    else
      var woken := Settle(key, Card(key), Deciding(w));
      match woken.verdict
      case Open => Ruling(DENY, BY_TIMEOUT)
      case Settled(approved, operator) =>
        var late := Settle(key, woken, w.closing).verdict;
        Ruling(Said(approved), if late.Settled? then Named(late.operator) else BY_USER)
  }

  /** Every reply that arrives during a call. */
  function AllReplies(w: FeishuWait): seq<Reply<Keyed>> {
    if w.posted then Deciding(w) + w.closing + w.closed else w.posting
  }

  function RecordOf(call: Call, tier: string, r: Ruling): Record {
    Record(call.tool, call.id, tier, r.decision, r.decidedBy)
  }

  // ---- What the rulings mean ----

  /** On the web a call is approved exactly when the last reply in its own window approves it. */
  lemma WebApproves(key: string, window: seq<Reply<string>>)
    ensures WebRuling(key, window).decision == APPROVE
       <==> exists i :: LastFor(key, NOBODY, window, i) && window[i].approved
    ensures WebRuling(key, window).decidedBy == BY_TIMEOUT <==> !Mentions(key, NOBODY, window)
  {
    SettleIsLast(key, Entry(NOBODY, Open), window);
    if Mentions(key, NOBODY, window) {
      var i := LastExists(key, NOBODY, window);
      assert LastFor(key, NOBODY, window, i);
    }
  }

  function UpTo<K>(windows: seq<seq<Reply<K>>>, n: nat): seq<Reply<K>>
    requires n <= |windows|
  {
    if n == 0 then [] else UpTo(windows, n - 1) + windows[n-1]
  }

  /**
   All requests are announced before the first wait, so a person may answer the `i`-th while an
   earlier one is still waited for. Taking the person's last word since the announcement as the
   intended decision, the hook gives it unless that last word was an approval given too early.
   */
  lemma EarlyApprovalIsLost(key: string, windows: seq<seq<Reply<string>>>, i: nat)
    requires i < |windows|
    ensures WebRuling(key, windows[i]).decision == WebRuling(key, UpTo(windows, i + 1)).decision
       <==> (Mentions(key, NOBODY, windows[i]) || WebRuling(key, UpTo(windows, i)).decision == DENY)
  {
    var e := Entry(NOBODY, Open);
    SettleAppend(key, e, UpTo(windows, i), windows[i]);
    SettleIsLast(key, e, UpTo(windows, i));
    SettleIsLast(key, Settle(key, e, UpTo(windows, i)), windows[i]);
    SettleIsLast(key, e, windows[i]);
    if Mentions(key, NOBODY, windows[i]) {
      var j := LastExists(key, NOBODY, windows[i]);
    }
  }

  /**
   A Feishu call is approved exactly when its card was posted and the last click up to the
   wake-up that got past the originator check approves it.
   */
  lemma FeishuApproves(key: Keyed, w: FeishuWait)
    ensures FeishuRuling(key, w).decision == APPROVE
       <==> w.posted && exists i :: LastFor(key, Originator(key.0), Deciding(w), i) && Deciding(w)[i].approved
  {
    SettleIsLast(key, Card(key), Deciding(w));
    if Mentions(key, Originator(key.0), Deciding(w)) {
      var i := LastExists(key, Originator(key.0), Deciding(w));
      assert LastFor(key, Originator(key.0), Deciding(w), i);
    }
  }

  /** The audit record carries the operator of the last click before the entry is closed, not of the one that decided. */
  lemma FeishuNamesLast(key: Keyed, w: FeishuWait, i: int)
    requires w.posted && LastFor(key, Originator(key.0), Deciding(w), i)
    ensures FeishuRuling(key, w).decidedBy == Named(Deciding(w)[i].operator)
       <==> forall j :: LastFor(key, Originator(key.0), w.closing, j) ==>
              Named(w.closing[j].operator) == Named(Deciding(w)[i].operator)
    ensures FeishuRuling(key, w).decision == Said(Deciding(w)[i].approved)
    ensures forall j :: LastFor(key, Originator(key.0), w.closing, j) ==>
              FeishuRuling(key, w).decidedBy == Named(w.closing[j].operator)
  {
    var who := Originator(key.0);
    SettleIsLast(key, Card(key), Deciding(w));
    SettleIsLast(key, Settle(key, Card(key), Deciding(w)), w.closing);
    if Mentions(key, who, w.closing) {
      var j := LastExists(key, who, w.closing);
      assert LastFor(key, who, w.closing, j);
    }
  }

  /** A session with an originator has calls decided in his name, in nobody's, or by no click at all. */
  lemma OnlyOriginatorIsNamed(key: Keyed, w: FeishuWait)
    requires Originator(key.0) != NOBODY
    ensures FeishuRuling(key, w).decidedBy in {Originator(key.0), BY_USER, BY_TIMEOUT, BY_POST_FAILURE}
  {
    var who := Originator(key.0);
    SettleIsLast(key, Card(key), Deciding(w));
    if w.posted && Mentions(key, who, Deciding(w)) {
      var i := LastExists(key, who, Deciding(w));
      FeishuNamesLast(key, w, i);
      if Mentions(key, who, w.closing) {
        var j := LastExists(key, who, w.closing);
        assert Admits(who, w.closing[j].operator);
      }
      assert Admits(who, Deciding(w)[i].operator);
    }
  }

  /**
   The record misses the operator of the deciding click exactly when the last click while the
   entry is being closed is nameless and the deciding one was not, or the reverse.
   */
  lemma FeishuNamesDecider(key: Keyed, w: FeishuWait, i: int)
    requires Originator(key.0) !in {NOBODY, BY_USER}
    requires w.posted && LastFor(key, Originator(key.0), Deciding(w), i)
    ensures FeishuRuling(key, w).decidedBy == Named(Deciding(w)[i].operator)
       <==> forall j :: LastFor(key, Originator(key.0), w.closing, j) ==>
              (w.closing[j].operator == NOBODY <==> Deciding(w)[i].operator == NOBODY)
  {
    var who := Originator(key.0);
    FeishuNamesLast(key, w, i);
    assert Admits(who, Deciding(w)[i].operator);
    forall j | LastFor(key, who, w.closing, j)
      ensures (w.closing[j].operator == NOBODY <==> Deciding(w)[i].operator == NOBODY)
         <==> Named(w.closing[j].operator) == Named(Deciding(w)[i].operator)
    {
      assert Admits(who, w.closing[j].operator);
    }
  }

  function OneClick(key: Keyed, approved: bool, operator: string): seq<Reply<Keyed>> {
    [Reply(key, approved, operator)]
  }

  lemma OneClickIsLast(key: Keyed, approved: bool, operator: string)
    requires Admits(Originator(key.0), operator)
    ensures LastFor(key, Originator(key.0), OneClick(key, approved, operator), 0)
  {
  }

  /** An approval by the originator that a later nameless click records as nobody's, in any session that has one. */
  lemma DeciderCanGoUnnamed(key: Keyed)
    requires Originator(key.0) !in {NOBODY, BY_USER}
    ensures var w := FeishuWait(true, [], OneClick(key, true, Originator(key.0)), OneClick(key, false, NOBODY), []);
            && FeishuRuling(key, w) == Ruling(APPROVE, BY_USER)
            && FeishuRuling(key, w.(closing := [])) == Ruling(APPROVE, Originator(key.0))
  {
    var who := Originator(key.0);
    var w := FeishuWait(true, [], OneClick(key, true, who), OneClick(key, false, NOBODY), []);
    assert Deciding(w) == OneClick(key, true, who) == Deciding(w.(closing := []));
    OneClickIsLast(key, true, who);
    OneClickIsLast(key, false, NOBODY);
    FeishuNamesLast(key, w, 0);
    FeishuNamesLast(key, w.(closing := []), 0);
  }

  lemma NoColonAfter(c: string, i: string, n: int)
    requires ':' !in i && |c| < n < |WebKey(c, i)|
    ensures WebKey(c, i)[n] != ':'
  {
    assert WebKey(c, i)[n] == i[n - |c| - 1];
  }

  /** Web entries of different conversations share a key only through a colon in a call id. */
  lemma WebKeysDiffer(c: string, i: string, d: string, j: string)
    requires ':' !in i && ':' !in j
    ensures WebKey(c, i) == WebKey(d, j) <==> c == d && i == j
  {
    var k, l := WebKey(c, i), WebKey(d, j);
    if k == l {
      assert k[|c|] == ':' && l[|d|] == ':';
      assert |c| >= |d| && |d| >= |c| by {
        if |c| < |d| { NoColonAfter(c, i, |d|); }
        if |d| < |c| { NoColonAfter(d, j, |c|); }
      }
      assert c == k[..|c|] && d == l[..|c|];
      assert i == k[|c|+1..] && j == l[|c|+1..];
    }
  }

  lemma WebKeysCollide()
    ensures WebKey("a", "b:c") == WebKey("a:b", "c")
  {
    assert WebKey("a", "b:c") == "a:b:c" == WebKey("a:b", "c");
  }

  /** The session a chat message runs under; `None` stands for the refusal. */
  function WebSession(user: string, conversation: string): Option<string> {
    if StartsWith(conversation, "web:") then
      if StartsWith(conversation, "web:" + user + ":") then Some(conversation) else None
    else
      Some("web:" + user + ":" + conversation)
  }

  /**
   The hook files the entry under the session, the client's reply is looked up under the
   conversation it was sent for: they meet only when the client already uses the prefixed form.
   */
  lemma ReplyMeetsEntry(user: string, conversation: string, callId: string)
    requires WebSession(user, conversation).Some?
    ensures WebKey(WebSession(user, conversation).value, callId) == WebKey(conversation, callId)
       <==> StartsWith(conversation, "web:")
  {
    if !StartsWith(conversation, "web:") {
      assert |WebKey(WebSession(user, conversation).value, callId)| > |WebKey(conversation, callId)|;
    }
  }

  /** A prefixed conversation id is taken as it is from its own user and refused from any other; a bare one is prefixed. */
  lemma SessionIsOwn(user: string, conversation: string, other: string)
    ensures WebSession(user, "web:" + user + ":" + conversation) == Some("web:" + user + ":" + conversation)
    ensures ':' !in user && ':' !in other && user != other ==> WebSession(user, "web:" + other + ":" + conversation) == None
    ensures !StartsWith(conversation, "web:") ==> WebSession(user, conversation) == Some("web:" + user + ":" + conversation)
  {
    var own, foreign := "web:" + user + ":" + conversation, "web:" + other + ":" + conversation;
    assert own[..4] == "web:" && own[..|"web:" + user + ":"|] == "web:" + user + ":";
    assert foreign[..4] == "web:" && foreign[4..] == WebKey(other, conversation);
    if ':' !in user && ':' !in other && StartsWith(foreign, "web:" + user + ":") {
      UserIsRead(user, other, conversation);
    }
  }

  lemma NoColonBefore(front: string, text: string)
    requires ':' !in front && front <= text
    ensures forall k | 0 <= k < |front| :: text[k] != ':'
  {
    forall k | 0 <= k < |front|
      ensures text[k] != ':'
    {
      assert text[k] == front[k] && front[k] in front;
    }
  }

  lemma UserIsRead(user: string, other: string, conversation: string)
    requires ':' !in user && ':' !in other
    requires StartsWith("web:" + other + ":" + conversation, "web:" + user + ":")
    ensures user == other
  {
    var mine, theirs := "web:" + user + ":", "web:" + other + ":" + conversation;
    var text := theirs[4..];
    assert theirs[..|mine|] == mine && mine[4..] == user + ":" && text == other + ":" + conversation;
    assert text[..|user| + 1] == theirs[4..|mine|] == user + ":";
    assert text[|user|] == (user + ":")[|user|] == ':' && text[|other|] == ':';
    assert user == text[..|user|] && other == text[..|other|];
    NoColonBefore(user, text);
    NoColonBefore(other, text);
  }

  // ---- The hooks ----

  function WebRecords(conversation: string, calls: seq<Call>, tier: string, windows: seq<seq<Reply<string>>>, n: nat): seq<Record>
    requires n <= |calls| == |windows|
  {
    seq(n, i requires 0 <= i < n => RecordOf(calls[i], tier, WebRuling(WebKey(conversation, calls[i].id), windows[i])))
  }

  function WebKeys(conversation: string, calls: seq<Call>, n: nat): set<string>
    requires n <= |calls|
  {
    set i | 0 <= i < n :: WebKey(conversation, calls[i].id)
  }

  lemma WebKeysGrow(conversation: string, calls: seq<Call>, n: nat)
    requires n < |calls|
    ensures WebKeys(conversation, calls, n + 1) == WebKeys(conversation, calls, n) + {WebKey(conversation, calls[n].id)}
  {
  }

  lemma WebTurn(before: map<string, Entry>, conversation: string, calls: seq<Call>, windows: seq<seq<Reply<string>>>, n: nat)
    requires n < |calls| == |windows|
    ensures Heard(Heard(before, UpTo(windows, n)) - WebKeys(conversation, calls, n), windows[n]) - {WebKey(conversation, calls[n].id)}
         == Heard(before, UpTo(windows, n + 1)) - WebKeys(conversation, calls, n + 1)
  {
    HeardAppend(before, UpTo(windows, n), windows[n]);
    HeardMinus(Heard(before, UpTo(windows, n)), WebKeys(conversation, calls, n), windows[n]);
    WebKeysGrow(conversation, calls, n);
    MinusTwice(Heard(before, UpTo(windows, n + 1)), WebKeys(conversation, calls, n), WebKey(conversation, calls[n].id));
  }

  /** The table after the first `n` calls: their entries are gone, the others have heard all replies. */
  ghost predicate WebStands(before: map<string, Entry>, now: map<string, Entry>, conversation: string, calls: seq<Call>, windows: seq<seq<Reply<string>>>, n: nat)
    requires n <= |calls| == |windows|
  {
    now == Heard(before, UpTo(windows, n)) - WebKeys(conversation, calls, n)
  }

  /** What the loop over the calls has gathered after the first `n`. */
  ghost predicate WebRuled(conversation: string, calls: seq<Call>, tier: string, windows: seq<seq<Reply<string>>>, n: nat, decisions: seq<string>, own: seq<Record>)
    requires n <= |calls| == |windows|
  {
    && |decisions| == n && own == WebRecords(conversation, calls, tier, windows, n)
    && forall i | 0 <= i < n :: decisions[i] == WebRuling(WebKey(conversation, calls[i].id), windows[i]).decision
  }

  lemma WebRuledMore(conversation: string, calls: seq<Call>, tier: string, windows: seq<seq<Reply<string>>>, n: nat, decisions: seq<string>, own: seq<Record>)
    requires n < |calls| == |windows| && WebRuled(conversation, calls, tier, windows, n, decisions, own)
    ensures var ruling := WebRuling(WebKey(conversation, calls[n].id), windows[n]);
            WebRuled(conversation, calls, tier, windows, n + 1, decisions + [ruling.decision], own + [RecordOf(calls[n], tier, ruling)])
  {
  }

  class WebToolApprovalHook {
    const table: Table<string>
    var audit: seq<Record>

    constructor (table: Table<string>)
      ensures this.table == table && audit == []
    {
      this.table, audit := table, [];
    }

    /** `_wait_for_user_decision`. */
    method WaitForUserDecision(conversation: string, call: Call, tier: string, window: seq<Reply<string>>) returns (decision: string)
      modifies this, table
      ensures table.pending == Heard(old(table.pending), window) - {WebKey(conversation, call.id)}
      ensures decision == WebRuling(WebKey(conversation, call.id), window).decision
      ensures audit == old(audit) + [RecordOf(call, tier, WebRuling(WebKey(conversation, call.id), window))]
    {
      var key := WebKey(conversation, call.id);
      ghost var before := table.pending;
      table.CreatePending(key, NOBODY);
      table.Await(window);
      HeardAt(before[key := Entry(NOBODY, Open)], window, key);
      OpenedAndClosed(before, key, Entry(NOBODY, Open), window);
      var verdict := table.pending[key].verdict;
      var ruling := if verdict.Settled? then Ruling(Said(verdict.approved), BY_USER) else Ruling(DENY, BY_TIMEOUT);
      table.Discard(key);
      audit := audit + [RecordOf(call, tier, ruling)];
      decision := ruling.decision;
    }

    /** One turn of the loop over the calls. */
    method NextDecision(conversation: string, calls: seq<Call>, tier: string, windows: seq<seq<Reply<string>>>, n: nat, ghost before: map<string, Entry>) returns (decision: string)
      requires n < |calls| == |windows|
      requires WebStands(before, table.pending, conversation, calls, windows, n)
      modifies this, table
      ensures WebStands(before, table.pending, conversation, calls, windows, n + 1)
      ensures decision == WebRuling(WebKey(conversation, calls[n].id), windows[n]).decision
      ensures audit == old(audit) + [RecordOf(calls[n], tier, WebRuling(WebKey(conversation, calls[n].id), windows[n]))]
    {
      decision := WaitForUserDecision(conversation, calls[n], tier, windows[n]);
      WebTurn(before, conversation, calls, windows, n);
    }

    /** `before_tool_execution`. */
    method BeforeToolExecution(conversation: string, calls: seq<Call>, tier: string, windows: seq<seq<Reply<string>>>) returns (decisions: seq<string>)
      requires |windows| == |calls|
      modifies this, table
      ensures table.pending == Heard(old(table.pending), UpTo(windows, |windows|)) - WebKeys(conversation, calls, |calls|)
      ensures |decisions| == |calls|
      ensures forall i | 0 <= i < |calls| :: decisions[i] == WebRuling(WebKey(conversation, calls[i].id), windows[i]).decision
      ensures audit == old(audit) + WebRecords(conversation, calls, tier, windows, |calls|)
    {
      decisions := [];
      ghost var own: seq<Record> := [];
      for n := 0 to |calls|
        invariant WebStands(old(table.pending), table.pending, conversation, calls, windows, n)
        invariant WebRuled(conversation, calls, tier, windows, n, decisions, own) && audit == old(audit) + own
      {
        WebRuledMore(conversation, calls, tier, windows, n, decisions, own);
        var decision := NextDecision(conversation, calls, tier, windows, n, old(table.pending));
        decisions := decisions + [decision];
        own := own + [RecordOf(calls[n], tier, WebRuling(WebKey(conversation, calls[n].id), windows[n]))];
      }
    }
  }

  function FeishuKeys(conversation: string, calls: seq<Call>, n: nat): set<Keyed>
    requires n <= |calls|
  {
    set i | 0 <= i < n :: (conversation, calls[i].id)
  }

  function FeishuRecords(conversation: string, calls: seq<Call>, tier: string, waits: seq<FeishuWait>, n: nat): seq<Record>
    requires n <= |calls| == |waits|
  {
    seq(n, i requires 0 <= i < n => RecordOf(calls[i], tier, FeishuRuling((conversation, calls[i].id), waits[i])))
  }

  function AllUpTo(waits: seq<FeishuWait>, n: nat): seq<Reply<Keyed>>
    requires n <= |waits|
  {
    if n == 0 then [] else AllUpTo(waits, n - 1) + AllReplies(waits[n-1])
  }

  lemma FeishuFrame(before: map<Keyed, Entry>, key: Keyed, w: FeishuWait)
    requires w.posted
    ensures Heard(Heard(Heard(before[key := Card(key)], Deciding(w)), w.closing) - {key}, w.closed)
         == Heard(before, AllReplies(w)) - {key}
  {
    var entered := before[key := Card(key)];
    HeardAppend(entered, Deciding(w), w.closing);
    HeardAppend(entered, Deciding(w) + w.closing, w.closed);
    HeardMinus(Heard(entered, Deciding(w) + w.closing), {key}, w.closed);
    OpenedAndClosed(before, key, Card(key), AllReplies(w));
  }

  lemma FeishuKeysGrow(conversation: string, calls: seq<Call>, n: nat)
    requires n < |calls|
    ensures FeishuKeys(conversation, calls, n + 1) == FeishuKeys(conversation, calls, n) + {(conversation, calls[n].id)}
  {
  }

  lemma FeishuTurn(before: map<Keyed, Entry>, conversation: string, calls: seq<Call>, windows: seq<FeishuWait>, n: nat)
    requires n < |calls| == |windows|
    ensures Heard(Heard(before, AllUpTo(windows, n)) - FeishuKeys(conversation, calls, n), AllReplies(windows[n])) - {(conversation, calls[n].id)}
         == Heard(before, AllUpTo(windows, n + 1)) - FeishuKeys(conversation, calls, n + 1)
  {
    HeardAppend(before, AllUpTo(windows, n), AllReplies(windows[n]));
    HeardMinus(Heard(before, AllUpTo(windows, n)), FeishuKeys(conversation, calls, n), AllReplies(windows[n]));
    FeishuKeysGrow(conversation, calls, n);
    MinusTwice(Heard(before, AllUpTo(windows, n + 1)), FeishuKeys(conversation, calls, n), (conversation, calls[n].id));
  }

  /** The table after the first `n` calls: their entries are gone, the others have heard all replies. */
  ghost predicate FeishuStands(before: map<Keyed, Entry>, now: map<Keyed, Entry>, conversation: string, calls: seq<Call>, waits: seq<FeishuWait>, n: nat)
    requires n <= |calls| == |waits|
  {
    now == Heard(before, AllUpTo(waits, n)) - FeishuKeys(conversation, calls, n)
  }

  /** What the loop over the calls has gathered after the first `n`. */
  ghost predicate FeishuRuled(conversation: string, calls: seq<Call>, tier: string, waits: seq<FeishuWait>, n: nat, decisions: seq<string>, own: seq<Record>)
    requires n <= |calls| == |waits|
  {
    && |decisions| == n && own == FeishuRecords(conversation, calls, tier, waits, n)
    && forall i | 0 <= i < n :: decisions[i] == FeishuRuling((conversation, calls[i].id), waits[i]).decision
  }

  lemma FeishuRuledMore(conversation: string, calls: seq<Call>, tier: string, waits: seq<FeishuWait>, n: nat, decisions: seq<string>, own: seq<Record>)
    requires n < |calls| == |waits| && FeishuRuled(conversation, calls, tier, waits, n, decisions, own)
    ensures var ruling := FeishuRuling((conversation, calls[n].id), waits[n]);
            FeishuRuled(conversation, calls, tier, waits, n + 1, decisions + [ruling.decision], own + [RecordOf(calls[n], tier, ruling)])
  {
  }

  class FeishuToolApprovalHook {
    const table: Table<Keyed>
    var audit: seq<Record>

    constructor (table: Table<Keyed>)
      ensures this.table == table && audit == []
    {
      this.table, audit := table, [];
    }

    /** `_wait_for_user_decision`. */
    method WaitForUserDecision(conversation: string, call: Call, tier: string, w: FeishuWait) returns (decision: string)
      modifies this, table
      ensures table.pending == Heard(old(table.pending), AllReplies(w)) - {(conversation, call.id)}
      ensures decision == FeishuRuling((conversation, call.id), w).decision
      ensures audit == old(audit) + [RecordOf(call, tier, FeishuRuling((conversation, call.id), w))]
    {
      var key := (conversation, call.id);
      ghost var before := table.pending;
      table.CreatePending(key, Originator(conversation));
      table.Await(w.posting);
      var ruling;
      OpenedAndClosed(before, key, Card(key), w.posting);
      if !w.posted {
        table.Discard(key);
        ruling := Ruling(DENY, BY_POST_FAILURE);
      } else {
        table.Await(w.waiting);
        HeardAppend(before[key := Card(key)], w.posting, w.waiting);
        HeardAt(before[key := Card(key)], Deciding(w), key);
        var woken := table.pending[key];
        table.Await(w.closing);
        HeardAt(Heard(before[key := Card(key)], Deciding(w)), w.closing, key);
        SettleIsLast(key, woken, w.closing);
        var late := table.pending[key].verdict;
        ruling := if woken.verdict.Settled? then Ruling(Said(woken.verdict.approved), if late.Settled? then Named(late.operator) else BY_USER)
                  else Ruling(DENY, BY_TIMEOUT);
        table.Discard(key);
        table.Await(w.closed);
        FeishuFrame(before, key, w);
      }
      audit := audit + [RecordOf(call, tier, ruling)];
      decision := ruling.decision;
    }

    /** One turn of the loop over the calls. */
    method NextDecision(conversation: string, calls: seq<Call>, tier: string, waits: seq<FeishuWait>, n: nat, ghost before: map<Keyed, Entry>) returns (decision: string)
      requires n < |calls| == |waits|
      requires FeishuStands(before, table.pending, conversation, calls, waits, n)
      modifies this, table
      ensures FeishuStands(before, table.pending, conversation, calls, waits, n + 1)
      ensures decision == FeishuRuling((conversation, calls[n].id), waits[n]).decision
      ensures audit == old(audit) + [RecordOf(calls[n], tier, FeishuRuling((conversation, calls[n].id), waits[n]))]
    {
      decision := WaitForUserDecision(conversation, calls[n], tier, waits[n]);
      FeishuTurn(before, conversation, calls, waits, n);
    }

    /** `before_tool_execution`. */
    method BeforeToolExecution(conversation: string, calls: seq<Call>, tier: string, waits: seq<FeishuWait>) returns (decisions: seq<string>)
      requires |waits| == |calls|
      modifies this, table
      ensures table.pending == Heard(old(table.pending), AllUpTo(waits, |waits|)) - FeishuKeys(conversation, calls, |calls|)
      ensures |decisions| == |calls|
      ensures forall i | 0 <= i < |calls| :: decisions[i] == FeishuRuling((conversation, calls[i].id), waits[i]).decision
      ensures audit == old(audit) + FeishuRecords(conversation, calls, tier, waits, |calls|)
    {
      decisions := [];
      ghost var own: seq<Record> := [];
      for n := 0 to |calls|
        invariant FeishuStands(old(table.pending), table.pending, conversation, calls, waits, n)
        invariant FeishuRuled(conversation, calls, tier, waits, n, decisions, own) && audit == old(audit) + own
      {
        FeishuRuledMore(conversation, calls, tier, waits, n, decisions, own);
        var decision := NextDecision(conversation, calls, tier, waits, n, old(table.pending));
        decisions := decisions + [decision];
        own := own + [RecordOf(calls[n], tier, FeishuRuling((conversation, calls[n].id), waits[n]))];
      }
    }
  }
}
