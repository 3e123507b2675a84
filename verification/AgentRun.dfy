/** The agent loop as the program runs it, step by step over one session. */
module AgentRun {
  import opened Approval
  import opened ToolRegistry
  import opened ToolPhase
  import opened RunModel
  import opened ApprovalHooks

  /** Call `k` among the gated ones comes from a position with `k` gated ones before it. */
  lemma {:induction false} PickSource<T>(xs: seq<T>, p: nat -> bool, n: nat, k: nat) returns (i: nat)
    requires n <= |xs| && k < |Pick(xs, p, true, n)|
    ensures i < n && p(i) && HowMany(p, i) == k && xs[i] == Pick(xs, p, true, n)[k]
  {
    if p(n - 1) && k == |Pick(xs, p, true, n - 1)| {
      i := n - 1;
      PickLength(xs, p, n - 1);
    } else {
      i := PickSource(xs, p, n - 1, k);
    }
  }

  /** The ruling on the `k`-th gated call. */
  function GatedRuling(w: World, k: nat): Ruling {
    if w.setting.gate.None? then Ruling(DENY, "auto:no-hook") else w.rulings(k)
  }

  function GatedRecord(w: World, call: ToolCall, k: nat): Record {
    Record(Evaluate(w.setting, call.name).name, call.id, TierName(Tier.Approval), GatedRuling(w, k).decision, GatedRuling(w, k).decidedBy)
  }

  function GatedRecords(w: World, gated: seq<ToolCall>): seq<Record> {
    seq(|gated|, k requires 0 <= k < |gated| => GatedRecord(w, gated[k], k))
  }

  lemma GatedRecordsArePicked(calls: seq<ToolCall>, w: World)
    ensures var all := AllRecords(w.setting, calls, w.rulings);
            GatedRecords(w, GatedCalls(w.setting, calls)) == Pick(all, GatedAt(w.setting, calls), true, |all|)
  {
    var all, p, gated := AllRecords(w.setting, calls, w.rulings), GatedAt(w.setting, calls), GatedCalls(w.setting, calls);
    PickLength(all, p, |all|);
    PickLength(calls, p, |calls|);
    forall k | 0 <= k < |gated|
      ensures GatedRecords(w, gated)[k] == Pick(all, p, true, |all|)[k]
    {
      var i := PickSource(calls, p, |calls|, k);
      PickedAt(all, p, |all|, i);
    }
  }

  /** `denied` holds the ids of the calls blocked so far: by screening, and among the first `k` gated ones. */
  ghost predicate DeniedSoFar(calls: seq<ToolCall>, w: World, gated: seq<ToolCall>, denied: set<string>, n: nat, k: nat)
    requires n <= |calls| && k <= |gated|
  {
    forall x :: x in denied <==>
      || (exists i: nat | i < n :: ScreenedOut(w.setting, calls[i]) && calls[i].id == x)
      || (exists j: nat | j < k :: RuledOut(w, j) && gated[j].id == x)
  }

  predicate ScreenedOut(s: Setting, call: ToolCall) {
    Screen(s, call.name).Auto? && Screen(s, call.name).decision == DENY
  }

  predicate RuledOut(w: World, k: nat) {
    GatedRuling(w, k).decision == DENY
  }

  lemma DeniedAreRefused(calls: seq<ToolCall>, w: World, denied: set<string>, i: nat)
    requires DeniedSoFar(calls, w, GatedCalls(w.setting, calls), denied, |calls|, |GatedCalls(w.setting, calls)|)
    requires i < |calls| && calls[i].id in denied
    ensures Refused(calls, Blocking(calls, w), i)
  {
    var gated, blocked, x := GatedCalls(w.setting, calls), Blocking(calls, w), calls[i].id;
    if j: nat :| j < |calls| && ScreenedOut(w.setting, calls[j]) && calls[j].id == x {
      assert blocked(j);
    } else {
      var k: nat :| k < |gated| && RuledOut(w, k) && gated[k].id == x;
      var j := PickSource(calls, GatedAt(w.setting, calls), |calls|, k);
      assert blocked(j) && calls[j].id == x;
    }
  }

  lemma RefusedAreDenied(calls: seq<ToolCall>, w: World, denied: set<string>, i: nat)
    requires DeniedSoFar(calls, w, GatedCalls(w.setting, calls), denied, |calls|, |GatedCalls(w.setting, calls)|)
    requires Refused(calls, Blocking(calls, w), i)
    ensures calls[i].id in denied
  {
    var gated, blocked, p := GatedCalls(w.setting, calls), Blocking(calls, w), GatedAt(w.setting, calls);
    var j: nat :| j < |calls| && blocked(j) && calls[j].id == calls[i].id;
    if p(j) {
      PickedAt(calls, p, |calls|, j);
      assert RuledOut(w, HowMany(p, j)) && gated[HowMany(p, j)].id == calls[i].id;
    } else {
      assert ScreenedOut(w.setting, calls[j]);
    }
  }

  /** The calls as the run hands them to the hook. */
  function HookCalls(s: Setting, gated: seq<ToolCall>): seq<Call> {
    seq(|gated|, k requires 0 <= k < |gated| => Call(gated[k].id, Evaluate(s, gated[k].name).name))
  }

  // ---- The phase under a hook ----

  /** The world of a tool phase whose gated calls are ruled on by the web hook, one window each. */
  function WebWorld(conversation: string, s: Setting, calls: seq<ToolCall>, windows: seq<seq<Reply<string>>>, outputs: nat -> string): World
    requires |windows| == |GatedCalls(s, calls)|
  {
    var gated := GatedCalls(s, calls);
    World(s, (k: nat) => if k < |gated| then WebRuling(WebKey(conversation, gated[k].id), windows[k]) else Ruling(DENY, BY_TIMEOUT), outputs)
  }

  /** And by the Feishu hook. */
  function FeishuWorld(conversation: string, s: Setting, calls: seq<ToolCall>, waits: seq<FeishuWait>, outputs: nat -> string): World
    requires |waits| == |GatedCalls(s, calls)|
  {
    var gated := GatedCalls(s, calls);
    World(s, (k: nat) => if k < |gated| then FeishuRuling((conversation, gated[k].id), waits[k]) else Ruling(DENY, BY_TIMEOUT), outputs)
  }

  /** The records the phase counts on for gated calls are the ones the web hook writes. */
  lemma WebHookFits(conversation: string, s: Setting, calls: seq<ToolCall>, windows: seq<seq<Reply<string>>>, outputs: nat -> string)
    requires s.gate.Some? && |windows| == |GatedCalls(s, calls)|
    ensures var gated := GatedCalls(s, calls);
            WebRecords(conversation, HookCalls(s, gated), TierName(Tier.Approval), windows, |gated|)
            == GatedRecords(WebWorld(conversation, s, calls, windows, outputs), gated)
  {
    var gated, w := GatedCalls(s, calls), WebWorld(conversation, s, calls, windows, outputs);
    var records := WebRecords(conversation, HookCalls(s, gated), TierName(Tier.Approval), windows, |gated|);
    forall k | 0 <= k < |gated|
      ensures records[k] == GatedRecord(w, gated[k], k)
    {
      assert records[k] == RecordOf(HookCalls(s, gated)[k], TierName(Tier.Approval), w.rulings(k));
    }
  }

  /** And likewise the Feishu hook. */
  lemma FeishuHookFits(conversation: string, s: Setting, calls: seq<ToolCall>, waits: seq<FeishuWait>, outputs: nat -> string)
    requires s.gate.Some? && |waits| == |GatedCalls(s, calls)|
    ensures var gated := GatedCalls(s, calls);
            FeishuRecords(conversation, HookCalls(s, gated), TierName(Tier.Approval), waits, |gated|)
            == GatedRecords(FeishuWorld(conversation, s, calls, waits, outputs), gated)
  {
    var gated, w := GatedCalls(s, calls), FeishuWorld(conversation, s, calls, waits, outputs);
    var records := FeishuRecords(conversation, HookCalls(s, gated), TierName(Tier.Approval), waits, |gated|);
    forall k | 0 <= k < |gated|
      ensures records[k] == GatedRecord(w, gated[k], k)
    {
      assert records[k] == RecordOf(HookCalls(s, gated)[k], TierName(Tier.Approval), w.rulings(k));
    }
  }

  /** The last reply that reaches the entry `key` approves. */
  ghost predicate LastApproves<K(!new)>(key: K, originator: string, replies: seq<Reply<K>>) {
    exists i | 0 <= i < |replies| :: LastFor(key, originator, replies, i) && replies[i].approved
  }

  lemma GatedIsPicked(s: Setting, calls: seq<ToolCall>, j: nat)
    requires GatedAt(s, calls)(j)
    ensures HowMany(GatedAt(s, calls), j) < |GatedCalls(s, calls)|
    ensures GatedCalls(s, calls)[HowMany(GatedAt(s, calls), j)] == calls[j]
  {
    PickedAt(calls, GatedAt(s, calls), |calls|, j);
  }

  /** What lets call `j` through on the web: screening, or the person's last word in its own window. */
  ghost predicate WebLets(conversation: string, s: Setting, calls: seq<ToolCall>, windows: seq<seq<Reply<string>>>, j: nat)
    requires j < |calls| && |windows| == |GatedCalls(s, calls)|
  {
    if GatedAt(s, calls)(j) then
      GatedIsPicked(s, calls, j);
      LastApproves(WebKey(conversation, calls[j].id), NOBODY, windows[HowMany(GatedAt(s, calls), j)])
    else !ScreenedOut(s, calls[j])
  }

  /** What lets call `j` through on Feishu. */
  ghost predicate FeishuLets(conversation: string, s: Setting, calls: seq<ToolCall>, waits: seq<FeishuWait>, j: nat)
    requires j < |calls| && |waits| == |GatedCalls(s, calls)|
  {
    if GatedAt(s, calls)(j) then
      GatedIsPicked(s, calls, j);
      var wait := waits[HowMany(GatedAt(s, calls), j)];
      wait.posted && LastApproves((conversation, calls[j].id), Originator(conversation), Deciding(wait))
    else !ScreenedOut(s, calls[j])
  }

  lemma WebLetsUnblocked(conversation: string, s: Setting, calls: seq<ToolCall>, windows: seq<seq<Reply<string>>>, outputs: nat -> string, j: nat)
    requires s.gate.Some? && |windows| == |GatedCalls(s, calls)| && j < |calls|
    ensures WebLets(conversation, s, calls, windows, j)
       <==> !Blocking(calls, WebWorld(conversation, s, calls, windows, outputs))(j)
  {
    if GatedAt(s, calls)(j) {
      GatedIsPicked(s, calls, j);
      WebApproves(WebKey(conversation, calls[j].id), windows[HowMany(GatedAt(s, calls), j)]);
    }
  }

  lemma FeishuLetsUnblocked(conversation: string, s: Setting, calls: seq<ToolCall>, waits: seq<FeishuWait>, outputs: nat -> string, j: nat)
    requires s.gate.Some? && |waits| == |GatedCalls(s, calls)| && j < |calls|
    ensures FeishuLets(conversation, s, calls, waits, j)
       <==> !Blocking(calls, FeishuWorld(conversation, s, calls, waits, outputs))(j)
  {
    if GatedAt(s, calls)(j) {
      GatedIsPicked(s, calls, j);
      FeishuApproves((conversation, calls[j].id), waits[HowMany(GatedAt(s, calls), j)]);
    }
  }

  /**
   Under the web hook a call is executed exactly when every call under its id is let through: by
   screening, or by a person whose last reply in that call's own window approves it.
   */
  lemma WebRunsWhatIsApproved(conversation: string, s: Setting, calls: seq<ToolCall>, windows: seq<seq<Reply<string>>>, outputs: nat -> string, i: nat)
    requires s.gate.Some? && |windows| == |GatedCalls(s, calls)| && i < |calls|
    ensures AnswerAt(calls, Blocking(calls, WebWorld(conversation, s, calls, windows, outputs)), outputs, i).Output?
       <==> forall j: nat | j < |calls| && calls[j].id == calls[i].id :: WebLets(conversation, s, calls, windows, j)
  {
    forall j: nat | j < |calls|
      ensures WebLets(conversation, s, calls, windows, j)
         <==> !Blocking(calls, WebWorld(conversation, s, calls, windows, outputs))(j)
    {
      WebLetsUnblocked(conversation, s, calls, windows, outputs, j);
    }
  }

  /** Under the Feishu hook likewise, where the card must have been posted and the click have passed the originator check. */
  lemma FeishuRunsWhatIsApproved(conversation: string, s: Setting, calls: seq<ToolCall>, waits: seq<FeishuWait>, outputs: nat -> string, i: nat)
    requires s.gate.Some? && |waits| == |GatedCalls(s, calls)| && i < |calls|
    ensures AnswerAt(calls, Blocking(calls, FeishuWorld(conversation, s, calls, waits, outputs)), outputs, i).Output?
       <==> forall j: nat | j < |calls| && calls[j].id == calls[i].id :: FeishuLets(conversation, s, calls, waits, j)
  {
    forall j: nat | j < |calls|
      ensures FeishuLets(conversation, s, calls, waits, j)
         <==> !Blocking(calls, FeishuWorld(conversation, s, calls, waits, outputs))(j)
    {
      FeishuLetsUnblocked(conversation, s, calls, waits, outputs, j);
    }
  }
}
