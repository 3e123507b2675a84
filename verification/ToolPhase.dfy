/**
 What becomes of the tool calls of one turn: the tier each is judged under, whether a person is
 asked, and which calls are refused and which executed.
 */
module ToolPhase {
  import opened Prelude
  import opened ToolRegistry
  import opened Approval
  import SessionTree

  type ToolCall = SessionTree.ToolCall

  /** The answer of `should_gate`. */
  datatype Gate = Gates | Passes | Raises

  /** The settings a turn is judged under; no gate means no approval hook is configured. */
  datatype Setting = Setting(registry: Registry, perTurn: Option<Tier>, gate: Option<string -> Gate>)

  datatype Source = PerTurn | ChannelDefault | Forced
  datatype Evaluated = Evaluated(name: string, tier: Tier, source: Source, server: Option<string>)

  function Rank(t: Tier): nat {
    match t
    case ReadOnly => 2
    case Approval => 1
    case Yolo => 0
  }

  function TierName(t: Tier): string {
    match t
    case ReadOnly => "read-only"
    case Approval => "approval"
    case Yolo => "yolo"
  }

  function TurnTier(s: Setting): Tier {
    if s.perTurn.Some? then s.perTurn.value else Tier.Approval
  }

  function ForcedTier(s: Setting, name: string): Option<Tier> {
    var tool := Get(s.registry, name);
    if tool.Some? && tool.value.imported then tool.value.forced else None
  }

  function Evaluate(s: Setting, name: string): Evaluated {
    var tool, forced := Get(s.registry, name), ForcedTier(s, name);
    var canonical := if tool.Some? then tool.value.name else name;
    if forced.Some? && Rank(forced.value) > Rank(TurnTier(s)) then
      Evaluated(canonical, forced.value, Forced, if tool.Some? then Some(tool.value.server) else None)
    else
      Evaluated(canonical, TurnTier(s), if s.perTurn.Some? then PerTurn else ChannelDefault, None)
  }

  datatype Screening = Auto(decision: string, decidedBy: string) | Gated

  function Screen(s: Setting, name: string): Screening {
    var e := Evaluate(s, name);
    match e.tier
    case Yolo => Auto(APPROVE, "auto:yolo")
    case ReadOnly =>
      var tool := Get(s.registry, name);
      if tool.None? || tool.value.toolClass == Write then Auto(DENY, "auto:read-only")
      else Auto(APPROVE, "auto:read-only")
    case Approval =>
      if e.source == Forced then Gated
      else if s.gate.None? || s.gate.value(e.name) == Passes then Auto(APPROVE, "auto:not-gated")
      else Gated
  }

  /** A server can tighten the tier of a turn, never loosen it. */
  lemma TierIsTheStricter(s: Setting, name: string)
    ensures var e, forced := Evaluate(s, name), ForcedTier(s, name);
            && Rank(e.tier) == (if forced.Some? && Rank(forced.value) > Rank(TurnTier(s)) then Rank(forced.value) else Rank(TurnTier(s)))
            && (e.tier == TurnTier(s) || Some(e.tier) == forced)
            && (e.source == Forced <==> Rank(e.tier) > Rank(TurnTier(s)))
            && (e.source == Forced ==> e.server.Some? && Get(s.registry, name).Some? && Get(s.registry, name).value.imported)
  {
  }

  /** Exactly the calls that go through without anybody being asked. */
  lemma UnattendedApproval(s: Setting, name: string)
    ensures (Screen(s, name).Auto? && Screen(s, name).decision == APPROVE)
       <==> match TurnTier(s)
            case Yolo =>
              (ForcedTier(s, name) in {None, Some(Yolo)})
              || (ForcedTier(s, name) == Some(ReadOnly) && Get(s.registry, name).value.toolClass != Write)
            case Approval =>
              if ForcedTier(s, name) == Some(ReadOnly) then Get(s.registry, name).value.toolClass != Write
              else s.gate.None? || s.gate.value(Evaluate(s, name).name) == Passes
            case ReadOnly => Get(s.registry, name).Some? && Get(s.registry, name).value.toolClass != Write
  {
  }

  // ---- Splitting a list by a test on positions ----

  /** The elements at positions below `n` where `p` is `want`, in order. */
  function Pick<T>(xs: seq<T>, p: nat -> bool, want: bool, n: nat): seq<T>
    requires n <= |xs|
  {
    if n == 0 then []
    else if p(n - 1) == want then Pick(xs, p, want, n - 1) + [xs[n-1]]
    else Pick(xs, p, want, n - 1)
  }

  function HowMany(p: nat -> bool, n: nat): nat {
    if n == 0 then 0 else HowMany(p, n - 1) + if p(n - 1) then 1 else 0
  }

  lemma {:induction false} HowManyGrows(p: nat -> bool, i: nat, n: nat)
    requires i < n && p(i)
    ensures HowMany(p, i) < HowMany(p, n)
  {
    if i < n - 1 {
      HowManyGrows(p, i, n - 1);
    } else {
      assert HowMany(p, n) == HowMany(p, i) + 1;
    }
  }

  lemma {:induction false} PickLength<T>(xs: seq<T>, p: nat -> bool, n: nat)
    requires n <= |xs|
    ensures |Pick(xs, p, true, n)| == HowMany(p, n) && |Pick(xs, p, false, n)| == n - HowMany(p, n)
  {
    if n > 0 {
      PickLength(xs, p, n - 1);
    }
  }

  /** The element at position `i` comes after as many picked ones as there are before it. */
  lemma {:induction false} PickedAt<T>(xs: seq<T>, p: nat -> bool, n: nat, i: nat)
    requires i < n <= |xs| && p(i)
    ensures HowMany(p, i) < |Pick(xs, p, true, n)| && Pick(xs, p, true, n)[HowMany(p, i)] == xs[i]
  {
    PickLength(xs, p, n);
    if i < n - 1 {
      PickedAt(xs, p, n - 1, i);
    } else {
      PickLength(xs, p, i);
      HowManyGrows(p, i, n);
    }
  }

  ghost function Count<T(!new)>(xs: seq<T>, n: nat, x: T): nat
    requires n <= |xs|
  {
    if n == 0 then 0 else Count(xs, n - 1, x) + if xs[n-1] == x then 1 else 0
  }

  /** The same elements, each as often. */
  ghost predicate Rearranged<T(!new)>(a: seq<T>, b: seq<T>) {
    |a| == |b| && forall x :: Count(a, |a|, x) == Count(b, |b|, x)
  }

  lemma {:induction false} CountConcat<T(!new)>(a: seq<T>, b: seq<T>, n: nat, x: T)
    requires n <= |a + b|
    ensures Count(a + b, n, x) == if n <= |a| then Count(a, n, x) else Count(a, |a|, x) + Count(b, n - |a|, x)
  {
    if n > 0 {
      CountConcat(a, b, n - 1, x);
    }
  }

  lemma {:induction false} PartsCount<T(!new)>(xs: seq<T>, p: nat -> bool, n: nat, x: T)
    requires n <= |xs|
    ensures var yes, no := Pick(xs, p, true, n), Pick(xs, p, false, n);
            Count(yes, |yes|, x) + Count(no, |no|, x) == Count(xs, n, x)
  {
    if n > 0 {
      PartsCount(xs, p, n - 1, x);
      var grown := Pick(xs, p, p(n - 1), n - 1);
      CountConcat(grown, [xs[n-1]], |grown|, x);
    }
  }

  /** Every element lands in exactly one of the two parts, as often as it occurs. */
  lemma Shuffled<T(!new)>(xs: seq<T>, p: nat -> bool, first: bool)
    ensures Rearranged(Pick(xs, p, first, |xs|) + Pick(xs, p, !first, |xs|), xs)
  {
    var a, b := Pick(xs, p, first, |xs|), Pick(xs, p, !first, |xs|);
    PickLength(xs, p, |xs|);
    forall x
      ensures Count(a + b, |a + b|, x) == Count(xs, |xs|, x)
    {
      PartsCount(xs, p, |xs|, x);
      CountConcat(a, b, |a + b|, x);
    }
  }

  // ---- Decisions ----

  function GatedAt(s: Setting, calls: seq<ToolCall>): nat -> bool {
    (i: nat) => i < |calls| && Screen(s, calls[i].name).Gated?
  }

  /** The ruling on call `i`: its own screening, the missing hook, or the hook's ruling on the k-th gated call. */
  function RulingAt(s: Setting, calls: seq<ToolCall>, rulings: nat -> Ruling, i: nat): Ruling
    requires i < |calls|
  {
    match Screen(s, calls[i].name)
    case Auto(decision, decidedBy) => Ruling(decision, decidedBy)
    case Gated =>
      if s.gate.None? then Ruling(DENY, "auto:no-hook")
      else rulings(HowMany(GatedAt(s, calls), i))
  }

  /** The audit record of call `i`, written by the run itself or by the hook. */
  function RecordAt(s: Setting, calls: seq<ToolCall>, rulings: nat -> Ruling, i: nat): Record
    requires i < |calls|
  {
    var e, r := Evaluate(s, calls[i].name), RulingAt(s, calls, rulings, i);
    Record(e.name, calls[i].id, TierName(e.tier), r.decision, r.decidedBy)
  }

  /** Only the literal "deny" blocks. */
  function BlockedAt(s: Setting, calls: seq<ToolCall>, rulings: nat -> Ruling): nat -> bool
  {
    (i: nat) => i < |calls| && RulingAt(s, calls, rulings, i).decision == DENY
  }

  /** A call is refused when some blocked call has its id. */
  predicate Refused(calls: seq<ToolCall>, blocked: nat -> bool, i: nat) {
    i < |calls| && exists j: nat | j < |calls| :: blocked(j) && calls[j].id == calls[i].id
  }

  function RefusedAt(calls: seq<ToolCall>, blocked: nat -> bool): nat -> bool {
    (i: nat) => Refused(calls, blocked, i)
  }

  /** What a call is answered with: a refusal, or the output of its tool. */
  datatype Answer = Refusal(callId: string) | Output(callId: string, text: string)

  function AnswerAt(calls: seq<ToolCall>, blocked: nat -> bool, outputs: nat -> string, i: nat): Answer
    requires i < |calls|
  {
    if Refused(calls, blocked, i) then Refusal(calls[i].id) else Output(calls[i].id, outputs(i))
  }

  function AllRecords(s: Setting, calls: seq<ToolCall>, rulings: nat -> Ruling): seq<Record>
  {
    seq(|calls|, i requires 0 <= i < |calls| => RecordAt(s, calls, rulings, i))
  }

  function AllAnswers(calls: seq<ToolCall>, blocked: nat -> bool, outputs: nat -> string): seq<Answer>
  {
    seq(|calls|, i requires 0 <= i < |calls| => AnswerAt(calls, blocked, outputs, i))
  }

  /** Audit order: the screened calls first, then the gated ones. */
  function Audit(s: Setting, calls: seq<ToolCall>, rulings: nat -> Ruling): seq<Record>
  {
    var all, gated := AllRecords(s, calls, rulings), GatedAt(s, calls);
    Pick(all, gated, false, |all|) + Pick(all, gated, true, |all|)
  }

  /** Answer order: the refused calls first, then the executed ones. */
  function Answers(calls: seq<ToolCall>, blocked: nat -> bool, outputs: nat -> string): seq<Answer>
  {
    var all, refused := AllAnswers(calls, blocked, outputs), RefusedAt(calls, blocked);
    Pick(all, refused, true, |all|) + Pick(all, refused, false, |all|)
  }

  /** Each call has exactly one audit record and exactly one answer. */
  lemma EachCallOnce(s: Setting, calls: seq<ToolCall>, rulings: nat -> Ruling, outputs: nat -> string)
    ensures var blocked := BlockedAt(s, calls, rulings);
            && Rearranged(Audit(s, calls, rulings), AllRecords(s, calls, rulings))
            && Rearranged(Answers(calls, blocked, outputs), AllAnswers(calls, blocked, outputs))
  {
    var blocked := BlockedAt(s, calls, rulings);
    var records, answers := AllRecords(s, calls, rulings), AllAnswers(calls, blocked, outputs);
    Shuffled(records, GatedAt(s, calls), false);
    Shuffled(answers, RefusedAt(calls, blocked), true);
  }

  /** What the audit record of call `i` says about it. */
  lemma AuditedDecision(s: Setting, calls: seq<ToolCall>, rulings: nat -> Ruling, i: nat)
    requires i < |calls|
    ensures RecordAt(s, calls, rulings, i).callId == calls[i].id
    ensures RecordAt(s, calls, rulings, i).decision == DENY <==> BlockedAt(s, calls, rulings)(i)
  {
  }

  /** The audit trail tells which calls ran: a call is refused exactly when its record says deny. */
  predicate Tells(s: Setting, calls: seq<ToolCall>, rulings: nat -> Ruling) {
    forall i: nat | i < |calls| :: Refused(calls, BlockedAt(s, calls, rulings), i) <==> BlockedAt(s, calls, rulings)(i)
  }

  /** Whether a call will be blocked, as far as that is settled before anybody is asked. */
  function Fate(s: Setting, name: string): Option<bool> {
    match Screen(s, name)
    case Auto(decision, _) => Some(decision == DENY)
    case Gated => if s.gate.None? then Some(true) else None
  }

  predicate Clash(calls: seq<ToolCall>, i: nat, j: nat) {
    i < j < |calls| && calls[i].id == calls[j].id
  }

  /** The two calls are let through or denied alike, without anybody being asked. */
  predicate Alike(s: Setting, calls: seq<ToolCall>, i: nat, j: nat)
    requires i < |calls| && j < |calls|
  {
    Fate(s, calls[i].name).Some? && Fate(s, calls[i].name) == Fate(s, calls[j].name)
  }

  lemma FateIsKept(s: Setting, calls: seq<ToolCall>, rulings: nat -> Ruling, i: nat)
    requires i < |calls|
    ensures Fate(s, calls[i].name).Some? ==> BlockedAt(s, calls, rulings)(i) == Fate(s, calls[i].name).value
    ensures Fate(s, calls[i].name).None? ==>
              GatedAt(s, calls)(i) && BlockedAt(s, calls, rulings)(i) == (rulings(HowMany(GatedAt(s, calls), i)).decision == DENY)
  {
  }

  lemma SplitMisleads(s: Setting, calls: seq<ToolCall>, rulings: nat -> Ruling, i: nat, j: nat)
    requires Clash(calls, i, j) && BlockedAt(s, calls, rulings)(i) != BlockedAt(s, calls, rulings)(j)
    ensures !Tells(s, calls, rulings)
  {
    var let, stopped := if BlockedAt(s, calls, rulings)(i) then j else i, if BlockedAt(s, calls, rulings)(i) then i else j;
    assert BlockedAt(s, calls, rulings)(stopped) && calls[stopped].id == calls[let].id;
    assert Refused(calls, BlockedAt(s, calls, rulings), let);
  }

  /** Two calls under one id whose fates are open or differ: some rulings of the hook make the audit trail mislead. */
  lemma OpenClashMisleads(s: Setting, calls: seq<ToolCall>, i: nat, j: nat) returns (rulings: nat -> Ruling)
    requires Clash(calls, i, j) && !Alike(s, calls, i, j)
    ensures !Tells(s, calls, rulings)
  {
    var gated := GatedAt(s, calls);
    var fate, other := Fate(s, calls[i].name), Fate(s, calls[j].name);
    var denied := Ruling(DENY, "");
    var passed := Ruling(APPROVE, "");
    if fate.None? && other.None? {
      var k := HowMany(gated, i);
      HowManyGrows(gated, i, j);
      rulings := (n: nat) => if n == k then denied else passed;
    } else {
      var settled := if fate.Some? then fate.value else other.value;
      rulings := (n: nat) => if settled then passed else denied;
    }
    FateIsKept(s, calls, rulings, i);
    FateIsKept(s, calls, rulings, j);
    SplitMisleads(s, calls, rulings, i, j);
  }

  lemma AlikeTells(s: Setting, calls: seq<ToolCall>, rulings: nat -> Ruling)
    requires forall i: nat, j: nat | Clash(calls, i, j) :: Alike(s, calls, i, j)
    ensures Tells(s, calls, rulings)
  {
    var blocked := BlockedAt(s, calls, rulings);
    forall i: nat | i < |calls|
      ensures Refused(calls, blocked, i) <==> blocked(i)
    {
      if j: nat :| j < |calls| && blocked(j) && calls[j].id == calls[i].id {
        FateIsKept(s, calls, rulings, i);
        FateIsKept(s, calls, rulings, j);
        assert i != j ==> Clash(calls, if i < j then i else j, if i < j then j else i);
      }
    }
  }

  /**
   In a given setting the audit trail tells which calls ran, whatever the hook will rule, exactly
   when any two calls under one id are let through or denied alike before anybody is asked.
   */
  lemma AuditTellsExecution(s: Setting, calls: seq<ToolCall>)
    ensures (forall rulings :: Tells(s, calls, rulings))
       <==> (forall i: nat, j: nat | Clash(calls, i, j) :: Alike(s, calls, i, j))
  {
    if i: nat, j: nat :| Clash(calls, i, j) && !Alike(s, calls, i, j) {
      var rulings := OpenClashMisleads(s, calls, i, j);
      assert !Tells(s, calls, rulings);
    } else {
      forall rulings
        ensures Tells(s, calls, rulings)
      {
        AlikeTells(s, calls, rulings);
      }
    }
  }

  ghost predicate DistinctIds(calls: seq<ToolCall>) {
    forall i: nat, j: nat :: !Clash(calls, i, j)
  }

  /** It does so in every setting exactly when the calls have pairwise different ids. */
  lemma DistinctIdsTellExecution(calls: seq<ToolCall>)
    ensures (forall s, rulings :: Tells(s, calls, rulings)) <==> DistinctIds(calls)
  {
    if i: nat, j: nat :| Clash(calls, i, j) {
      var askAll := Setting(map[], None, Some(_ => Gates));
      assert Fate(askAll, calls[i].name).None?;
      var rulings := OpenClashMisleads(askAll, calls, i, j);
      assert !Tells(askAll, calls, rulings);
    } else {
      forall s, rulings
        ensures Tells(s, calls, rulings)
      {
        AlikeTells(s, calls, rulings);
      }
    }
  }

  /** A call audited as approved that is refused nevertheless. */
  ghost predicate Misleading(s: Setting, calls: seq<ToolCall>, rulings: nat -> Ruling, i: nat) {
    && i < |calls|
    && RecordAt(s, calls, rulings, i).decision == APPROVE
    && Refused(calls, BlockedAt(s, calls, rulings), i)
  }

  /** Two calls under one id mislead. */
  lemma SharedIdRefusesApproved(rulings: nat -> Ruling)
    ensures exists s: Setting, calls: seq<ToolCall> :: Misleading(s, calls, rulings, 1)
  {
    var look := Tool("look", Read, false, None, "");
    var s := Setting(map["look" := look], Some(ReadOnly), None);
    var calls := [SessionTree.ToolCall("x", "unknown", ""), SessionTree.ToolCall("x", "look", "")];
    assert Screen(s, "unknown") == Auto(DENY, "auto:read-only");
    assert Screen(s, "look") == Auto(APPROVE, "auto:read-only");
    assert BlockedAt(s, calls, rulings)(0);
    assert Misleading(s, calls, rulings, 1);
  }
}
