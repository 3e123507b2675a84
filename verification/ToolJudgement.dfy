/**
 How a tool call is judged, told from the registry, the two tiers and the gate alone: who is
 asked, under which name, and what the record says.
 */
module ToolJudgement {
  import opened Prelude
  import opened Approval
  import opened ToolRegistry
  import opened ToolPhase
  import opened RunModel
  import opened AgentRun

  /** A call under `name` means tool `own`; a name that resolves to nothing means itself. */
  predicate Means(r: Registry, name: string, own: string, tool: Option<Tool>) {
    && Get(r, name) == tool
    && if tool.Some? then own in r && r[own] == tool.value else own == name
  }

  /** The tier the server of an imported tool insists on. */
  function ServerTier(tool: Option<Tool>): Option<Tier> {
    if tool.Some? && tool.value.imported then tool.value.forced else None
  }

  /** The tool is known not to write. */
  predicate Harmless(tool: Option<Tool>) {
    tool.Some? && tool.value.toolClass != Write
  }

  /** Only reading is allowed, because the turn or the server says so. */
  predicate Locked(s: Setting, tool: Option<Tool>) {
    s.perTurn == Some(ReadOnly) || ServerTier(tool) == Some(ReadOnly)
  }

  /** Neither the turn nor the server wants anything held back. */
  predicate Free(s: Setting, tool: Option<Tool>) {
    s.perTurn == Some(Yolo) && ServerTier(tool) in {None, Some(Yolo)}
  }

  /** The server alone holds the call back. */
  predicate ServerAsks(s: Setting, tool: Option<Tool>) {
    s.perTurn == Some(Yolo) && ServerTier(tool) == Some(Tier.Approval)
  }

  /** There is a hook, and its gate does not pass the tool. */
  predicate GateHolds(s: Setting, own: string) {
    s.gate.Some? && s.gate.value(own) != Passes
  }

  /** The record of a call nobody is asked about, and what it amounts to. */
  predicate Settled(s: Setting, calls: seq<ToolCall>, rulings: nat -> Ruling, i: nat, r: Record) {
    && i < |calls| && !GatedAt(s, calls)(i)
    && AllRecords(s, calls, rulings)[i] == r
    && BlockedAt(s, calls, rulings)(i) == (r.decision == "deny")
  }

  lemma NamedInRegistry(r: Registry, name: string, own: string, tool: Option<Tool>)
    requires Registered(r) && Means(r, name, own, tool)
    ensures tool.Some? ==> tool.value.name == own
  {
  }

  /**
   The judgement of call `i`, case by case. Read-only wins over everything and lets known harmless
   tools through; without any restriction everything passes; a server that asks for approval in an
   otherwise free turn always has somebody asked; in the approval tier the gate decides, on the
   tool's own name.
   */
  lemma CallIsJudged(s: Setting, calls: seq<ToolCall>, rulings: nat -> Ruling, i: nat, own: string, tool: Option<Tool>)
    requires i < |calls| && Registered(s.registry) && Means(s.registry, calls[i].name, own, tool)
    ensures var id, asked := calls[i].id, GatedAt(s, calls)(i);
      if Locked(s, tool) then
        Settled(s, calls, rulings, i, Record(own, id, "read-only", if Harmless(tool) then "approve" else "deny", "auto:read-only"))
      else if Free(s, tool) then
        Settled(s, calls, rulings, i, Record(own, id, "yolo", "approve", "auto:yolo"))
      else
        && (asked <==> ServerAsks(s, tool) || GateHolds(s, own))
        && (!asked ==> Settled(s, calls, rulings, i, Record(own, id, "approval", "approve", "auto:not-gated")))
  {
    NamedInRegistry(s.registry, calls[i].name, own, tool);
  }

  /** Call `i`, which somebody is asked about, is the `k`-th such call. */
  predicate AskedAs(s: Setting, calls: seq<ToolCall>, i: nat, k: nat) {
    i < |calls| && GatedAt(s, calls)(i) && k == HowMany(GatedAt(s, calls), i)
  }

  /** A call somebody is asked about is put to the hook under the tool's own name. */
  lemma AskedUnderItsOwnName(s: Setting, calls: seq<ToolCall>, i: nat, k: nat, own: string, tool: Option<Tool>)
    requires Registered(s.registry) && AskedAs(s, calls, i, k) && Means(s.registry, calls[i].name, own, tool)
    ensures k < |GatedCalls(s, calls)| && HookCalls(s, GatedCalls(s, calls))[k] == Call(calls[i].id, own)
    ensures Requests(s, GatedCalls(s, calls))[k] == ApprovalRequest(calls[i].id, own)
  {
    NamedInRegistry(s.registry, calls[i].name, own, tool);
    GatedIsPicked(s, calls, i);
  }

  lemma EventAt(starts: seq<Event>, requests: seq<Event>, finishes: seq<Event>, k: nat)
    requires k < |requests|
    ensures (starts + requests + finishes)[|starts| + k] == requests[k]
  {
  }

  /** And is announced under that name, behind the starts. */
  lemma AnnouncedUnderItsOwnName(s: Setting, calls: seq<ToolCall>, w: World, i: nat, k: nat, own: string, tool: Option<Tool>)
    requires w.setting == s && s.gate.Some?
    requires Registered(s.registry) && AskedAs(s, calls, i, k) && Means(s.registry, calls[i].name, own, tool)
    ensures |calls| + k < |Phase(calls, w).events| && Phase(calls, w).events[|calls| + k] == ApprovalRequest(calls[i].id, own)
  {
    AskedUnderItsOwnName(s, calls, i, k, own, tool);
    EventAt(Starts(calls), Requests(s, GatedCalls(s, calls)), Finishes(Answers(calls, Blocking(calls, w), w.outputs)), k);
  }

  /** Its record carries that name and the hook's ruling; without a hook it is denied. */
  lemma AskedIsRuledOn(s: Setting, calls: seq<ToolCall>, rulings: nat -> Ruling, i: nat, k: nat, own: string, tool: Option<Tool>)
    requires Registered(s.registry) && AskedAs(s, calls, i, k) && Means(s.registry, calls[i].name, own, tool)
    ensures var ruling := if s.gate.None? then Ruling("deny", "auto:no-hook") else rulings(k);
            && AllRecords(s, calls, rulings)[i] == Record(own, calls[i].id, "approval", ruling.decision, ruling.decidedBy)
            && BlockedAt(s, calls, rulings)(i) == (ruling.decision == "deny")
  {
    NamedInRegistry(s.registry, calls[i].name, own, tool);
  }

  /**
   A tool offered to the model and called in the plain approval tier: when its offered name leads
   back to it, it goes through unasked exactly when no hook is there or the gate passes the tool's
   registered name, and its record carries that name.
   */
  lemma OfferedToolIsGatedByItsName(s: Setting, calls: seq<ToolCall>, rulings: nat -> Ruling, i: nat, n: string)
    requires i < |calls| && Registered(s.registry) && n in s.registry && calls[i].name == LlmName(s.registry[n])
    requires n != "" && !(s.registry[n].imported && exists k: nat :: ServerPart(n, k) && EndsInUnderscore(n, k))
    requires s.perTurn in {None, Some(Tier.Approval)} && (s.registry[n].imported ==> s.registry[n].forced.None?)
    ensures AllRecords(s, calls, rulings)[i].tool == n
    ensures !GatedAt(s, calls)(i) <==> s.gate.None? || s.gate.value(n) == Passes
    ensures !GatedAt(s, calls)(i) ==> !BlockedAt(s, calls, rulings)(i)
  {
    OfferedNameResolves(s.registry, n);
    var tool := Some(s.registry[n]);
    assert Means(s.registry, calls[i].name, n, tool);
    CallIsJudged(s, calls, rulings, i, n, tool);
    NamedInRegistry(s.registry, calls[i].name, n, tool);
  }

  // ---- The order of the answers ----

  /** `picked` is what stands in `xs` at positions `at`, in order: all those below `n` where `p` is `want`. */
  ghost predicate Filtered<T(!new)>(picked: seq<T>, xs: seq<T>, p: nat -> bool, want: bool, n: nat, at: seq<nat>)
    requires n <= |xs|
  {
    && |at| == |picked| && Increasing(at)
    && (forall k | 0 <= k < |at| :: at[k] < n && p(at[k]) == want && picked[k] == xs[at[k]])
    && (forall i: nat | i < n && p(i) == want :: i in at)
  }

  lemma OneMorePicked<T(!new)>(picked: seq<T>, xs: seq<T>, p: nat -> bool, want: bool, n: nat, at: seq<nat>)
    requires n < |xs| && Filtered(picked, xs, p, want, n, at) && p(n) == want
    ensures Filtered(picked + [xs[n]], xs, p, want, n + 1, at + [n])
  {
    forall i: nat | i < n + 1 && p(i) == want
      ensures i in at + [n]
    {
      if i < n {
        assert i in at;
      } else {
        assert (at + [n])[|at|] == i;
      }
    }
  }

  lemma {:induction false} PickFilters<T(!new)>(xs: seq<T>, p: nat -> bool, want: bool, n: nat) returns (at: seq<nat>)
    requires n <= |xs|
    ensures Filtered(Pick(xs, p, want, n), xs, p, want, n, at)
  {
    at := [];
    if n > 0 {
      at := PickFilters(xs, p, want, n - 1);
      if p(n - 1) == want {
        OneMorePicked(Pick(xs, p, want, n - 1), xs, p, want, n - 1, at);
        at := at + [n - 1];
      }
    }
  }

  /** The refusals of the calls at `at`, in order. */
  ghost predicate RefusalsOf(calls: seq<ToolCall>, blocked: nat -> bool, answers: seq<Answer>, at: seq<nat>) {
    && |answers| == |at| && Increasing(at)
    && forall k | 0 <= k < |at| :: at[k] < |calls| && Refused(calls, blocked, at[k]) && answers[k] == Refusal(calls[at[k]].id)
  }

  /** The outputs of the calls at `at`, in order. */
  ghost predicate OutputsOf(calls: seq<ToolCall>, blocked: nat -> bool, outputs: nat -> string, answers: seq<Answer>, at: seq<nat>) {
    && |answers| == |at| && Increasing(at)
    && forall k | 0 <= k < |at| :: at[k] < |calls| && !Refused(calls, blocked, at[k]) && answers[k] == Output(calls[at[k]].id, outputs(at[k]))
  }

  lemma RefusedPart(calls: seq<ToolCall>, blocked: nat -> bool, outputs: nat -> string) returns (at: seq<nat>)
    ensures RefusalsOf(calls, blocked, Pick(AllAnswers(calls, blocked, outputs), RefusedAt(calls, blocked), true, |calls|), at)
    ensures forall i: nat | i < |calls| && Refused(calls, blocked, i) :: i in at
  {
    var all, p := AllAnswers(calls, blocked, outputs), RefusedAt(calls, blocked);
    at := PickFilters(all, p, true, |calls|);
    forall i: nat | i < |calls| && Refused(calls, blocked, i)
      ensures i in at
    {
      assert p(i) == true;
    }
  }

  lemma RunPart(calls: seq<ToolCall>, blocked: nat -> bool, outputs: nat -> string) returns (at: seq<nat>)
    ensures OutputsOf(calls, blocked, outputs, Pick(AllAnswers(calls, blocked, outputs), RefusedAt(calls, blocked), false, |calls|), at)
    ensures forall i: nat | i < |calls| && !Refused(calls, blocked, i) :: i in at
  {
    var all, p := AllAnswers(calls, blocked, outputs), RefusedAt(calls, blocked);
    at := PickFilters(all, p, false, |calls|);
    forall i: nat | i < |calls| && !Refused(calls, blocked, i)
      ensures i in at
    {
      assert p(i) == false;
    }
  }

  /** The answers of a phase: first the refusals, in call order, then the outputs, in call order, one answer for every call. */
  lemma AnswersStandInOrder(calls: seq<ToolCall>, blocked: nat -> bool, outputs: nat -> string) returns (refused: seq<nat>, run: seq<nat>)
    ensures var answers := Answers(calls, blocked, outputs);
            && |answers| == |calls| == |refused| + |run|
            && RefusalsOf(calls, blocked, answers[..|refused|], refused)
            && OutputsOf(calls, blocked, outputs, answers[|refused|..], run)
    ensures forall i: nat | i < |calls| :: if Refused(calls, blocked, i) then i in refused else i in run
  {
    var all, p := AllAnswers(calls, blocked, outputs), RefusedAt(calls, blocked);
    refused := RefusedPart(calls, blocked, outputs);
    run := RunPart(calls, blocked, outputs);
    PickLength(all, p, |all|);
    var first, rest := Pick(all, p, true, |all|), Pick(all, p, false, |all|);
    assert (first + rest)[..|first|] == first && (first + rest)[|first|..] == rest;
  }

  /**
   The phase as it shows: a start per call in order, then the requests, then an end per answer; and
   the answers in the session in the same order as their ends.
   */
  lemma PhaseShows(calls: seq<ToolCall>, w: World)
    ensures var p, answers := Phase(calls, w), Answers(calls, Blocking(calls, w), w.outputs);
            && |answers| == |calls| == |p.said| && |p.events| >= 2 * |calls|
            && (forall i | 0 <= i < |calls| :: p.events[i] == ToolCallStart(calls[i].id))
            && (forall k | 0 <= k < |calls| :: p.said[k] == ToolSays(answers[k]) && p.events[|p.events| - |calls| + k] == ToolCallEnd(answers[k]))
            && (forall k | |calls| <= k < |p.events| - |calls| :: p.events[k].ApprovalRequest?)
  {
    var all := AllAnswers(calls, Blocking(calls, w), w.outputs);
    PickLength(all, RefusedAt(calls, Blocking(calls, w)), |all|);
  }
}
