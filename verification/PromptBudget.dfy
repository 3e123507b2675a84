/** Cutting prompt sections down to a token budget, and dividing the context window. */
module PromptBudget {
  import opened Prelude

  datatype Section = Section(name: string, text: string, truncatable: bool)

  const PRIORITY := ["skills", "bootstrap", "l1_snapshot", "workspace"]

  function Tokens(s: Section): nat {
    |s.text| / 4
  }

  function Total(sections: seq<Section>, n: nat): nat
    requires n <= |sections|
  {
    if n == 0 then 0 else Total(sections, n - 1) + Tokens(sections[n-1])
  }

  function Sum(sections: seq<Section>): nat {
    Total(sections, |sections|)
  }

  predicate Candidate(s: Section, name: string) {
    s.name == name && s.truncatable
  }

  /** The one section a priority name can cut: its first truncatable section. */
  function First(sections: seq<Section>, name: string, from: nat): (i: Option<nat>)
    requires from <= |sections|
    ensures i.Some? ==> from <= i.value < |sections| && Candidate(sections[i.value], name)
    ensures forall j | from <= j < (if i.Some? then i.value else |sections|) :: !Candidate(sections[j], name)
    decreases |sections| - from
  {
    if from == |sections| then None
    else if Candidate(sections[from], name) then Some(from)
    else First(sections, name, from + 1)
  }

  /** The tokens the first `k` priority names can free. */
  function Removable(sections: seq<Section>, k: nat): nat
    requires k <= |PRIORITY|
  {
    if k == 0 then 0
    else
      var i := First(sections, PRIORITY[k-1], 0);
      Removable(sections, k - 1) + if i.Some? then Tokens(sections[i.value]) else 0
  }

  predicate IsTargetOf(sections: seq<Section>, j: nat, k: nat)
    requires k < |PRIORITY|
  {
    First(sections, PRIORITY[k], 0) == Some(j)
  }

  predicate PartlyCut(before: Section, after: Section) {
    after.text != before.text && after.text != ""
  }

  /**
   `cut` comes from `sections` by shortening, in priority order: names, flags and order stay,
   every text is a prefix of what it was, only the first truncatable section of one of the first
   `k` priority names is touched, a later name is touched only once the earlier ones are empty,
   and at most one section is cut without being emptied.
   */
  ghost predicate CutInOrder(sections: seq<Section>, cut: seq<Section>, k: nat)
    requires k <= |PRIORITY|
  {
    && |cut| == |sections|
    && (forall j: nat | j < |cut| ::
          && cut[j].name == sections[j].name && cut[j].truncatable == sections[j].truncatable
          && StartsWith(sections[j].text, cut[j].text)
          && (cut[j] != sections[j] ==> exists p: nat | p < k :: IsTargetOf(sections, j, p)))
    && (forall j: nat, p: nat, i: nat, q: nat | p < q < k && IsTargetOf(sections, j, p) && IsTargetOf(sections, i, q) && j < |cut| && i < |cut| ::
          cut[i] != sections[i] ==> cut[j].text == "")
    && (forall i: nat, j: nat | i < j < |cut| :: !(PartlyCut(sections[i], cut[i]) && PartlyCut(sections[j], cut[j])))
  }

  function NonEmpty(sections: seq<Section>, n: nat): seq<Section>
    requires n <= |sections|
  {
    if n == 0 then []
    else if sections[n-1].text != "" then NonEmpty(sections, n - 1) + [sections[n-1]]
    else NonEmpty(sections, n - 1)
  }

  lemma {:induction false} TotalAppend(a: seq<Section>, s: Section, n: nat)
    requires n <= |a|
    ensures Total(a + [s], n) == Total(a, n)
  {
    if n > 0 {
      TotalAppend(a, s, n - 1);
    }
  }

  lemma {:induction false} EmptyWeighsNothing(sections: seq<Section>, n: nat)
    requires n <= |sections|
    ensures Sum(NonEmpty(sections, n)) == Total(sections, n)
  {
    if n > 0 {
      EmptyWeighsNothing(sections, n - 1);
      var kept := NonEmpty(sections, n - 1);
      TotalAppend(kept, sections[n-1], |kept|);
    }
  }

  lemma {:induction false} TotalUpdate(a: seq<Section>, i: nat, s: Section, n: nat)
    requires i < |a| && n <= |a|
    ensures Total(a[i := s], n) == if i < n then Total(a, n) - Tokens(a[i]) + Tokens(s) else Total(a, n)
    ensures i < n ==> Tokens(a[i]) <= Total(a, n)
  {
    if n > 0 {
      TotalUpdate(a, i, s, n - 1);
    }
  }

  lemma {:induction false} RemovableGrows(sections: seq<Section>, k: nat, m: nat)
    requires k <= m <= |PRIORITY|
    ensures Removable(sections, k) <= Removable(sections, m)
  {
    if k < m {
      RemovableGrows(sections, k, m - 1);
    }
  }

  /** What is left of a section that holds more than the overflow. */
  function Shortened(s: Section, overflow: nat): Section {
    s.(text := s.text[..if |s.text| > 4 * overflow then |s.text| - 4 * overflow else 0])
  }

  lemma ShortenedFits(s: Section, overflow: nat)
    requires 0 < overflow < Tokens(s)
    ensures Tokens(Shortened(s, overflow)) == Tokens(s) - overflow
    ensures PartlyCut(s, Shortened(s, overflow)) && StartsWith(s.text, Shortened(s, overflow).text)
  {
    assert |s.text| > 4 * overflow;
  }

  function Cut(s: Section, overflow: nat): Section {
    if Tokens(s) <= overflow then s.(text := "") else Shortened(s, overflow)
  }

  lemma CutSaves(s: Section, overflow: nat)
    requires 0 < overflow
    ensures Tokens(Cut(s, overflow)) == Tokens(s) - if Tokens(s) <= overflow then Tokens(s) else overflow
    ensures StartsWith(s.text, Cut(s, overflow).text) && (Cut(s, overflow).text == "" <==> Tokens(s) <= overflow)
    ensures Cut(s, overflow).name == s.name && Cut(s, overflow).truncatable == s.truncatable
  {
    if Tokens(s) > overflow {
      ShortenedFits(s, overflow);
    }
  }

  /** Nothing is partly cut yet, and every target so far is empty. */
  ghost predicate AllEmptied(sections: seq<Section>, cut: seq<Section>, k: nat)
    requires k <= |PRIORITY|
  {
    && |cut| == |sections|
    && (forall j: nat | j < |cut| :: cut[j] == sections[j] || cut[j].text == "")
    && (forall j: nat, p: nat | p < k && j < |cut| && IsTargetOf(sections, j, p) :: cut[j].text == "")
  }

  lemma NothingCut(sections: seq<Section>)
    ensures CutInOrder(sections, sections, 0) && AllEmptied(sections, sections, 0)
  {
  }

  lemma TargetsDiffer(sections: seq<Section>, j: nat, p: nat, q: nat)
    requires p < |PRIORITY| && q < |PRIORITY| && IsTargetOf(sections, j, p) && IsTargetOf(sections, j, q)
    ensures p == q
  {
  }

  lemma StillWhole(sections: seq<Section>, cut: seq<Section>, k: nat, i: nat)
    requires k < |PRIORITY| && IsTargetOf(sections, i, k) && CutInOrder(sections, cut, k)
    ensures i < |cut| && cut[i] == sections[i]
  {
    if cut[i] != sections[i] {
      var p: nat :| p < k && IsTargetOf(sections, i, p);
      TargetsDiffer(sections, i, p, k);
    }
  }

  /** Once target `k` is cut, the ones before it are empty. */
  lemma EarlierAreEmpty(sections: seq<Section>, cut: seq<Section>, k: nat, i: nat, s: Section, j: nat, p: nat, i': nat, q: nat)
    requires k < |PRIORITY| && IsTargetOf(sections, i, k) && i < |cut| && AllEmptied(sections, cut, k)
    requires p < q < k + 1 && IsTargetOf(sections, j, p) && IsTargetOf(sections, i', q) && j < |cut| && i' < |cut|
    ensures cut[i := s][j].text == ""
  {
    if j == i {
      TargetsDiffer(sections, i, p, k);
    }
  }

  lemma CutOnce(sections: seq<Section>, cut: seq<Section>, k: nat, i: nat, overflow: nat)
    requires k < |PRIORITY| && IsTargetOf(sections, i, k) && overflow > 0
    requires CutInOrder(sections, cut, k) && AllEmptied(sections, cut, k)
    ensures i < |cut| && cut[i] == sections[i]
    ensures CutInOrder(sections, cut[i := Cut(cut[i], overflow)], k + 1)
    ensures Tokens(cut[i]) <= overflow ==> AllEmptied(sections, cut[i := Cut(cut[i], overflow)], k + 1)
  {
    StillWhole(sections, cut, k, i);
    CutSaves(cut[i], overflow);
    var cut' := cut[i := Cut(cut[i], overflow)];
    forall j: nat, p: nat, i': nat, q: nat | p < q < k + 1 && IsTargetOf(sections, j, p) && IsTargetOf(sections, i', q) && j < |cut'| && i' < |cut'|
      ensures cut'[i'] != sections[i'] ==> cut'[j].text == ""
    {
      EarlierAreEmpty(sections, cut, k, i, Cut(cut[i], overflow), j, p, i', q);
    }
  }

  lemma NothingToCut(sections: seq<Section>, cut: seq<Section>, k: nat)
    requires k < |PRIORITY| && First(sections, PRIORITY[k], 0).None?
    requires CutInOrder(sections, cut, k)
    ensures CutInOrder(sections, cut, k + 1)
    ensures AllEmptied(sections, cut, k) ==> AllEmptied(sections, cut, k + 1)
  {
  }

  /** Names whose turn never comes leave their sections alone. */
  lemma {:induction false} CutToTheEnd(sections: seq<Section>, cut: seq<Section>, k: nat)
    requires k <= |PRIORITY| && CutInOrder(sections, cut, k)
    ensures CutInOrder(sections, cut, |PRIORITY|)
    decreases |PRIORITY| - k
  {
    if k < |PRIORITY| {
      forall j: nat | j < |cut| && IsTargetOf(sections, j, k)
        ensures cut[j] == sections[j]
      {
        if cut[j] != sections[j] {
          var p: nat :| p < k && IsTargetOf(sections, j, p);
          TargetsDiffer(sections, j, p, k);
        }
      }
      CutToTheEnd(sections, cut, k + 1);
    }
  }

  lemma {:induction false} SameFirst(sections: seq<Section>, cut: seq<Section>, name: string, from: nat)
    requires |cut| == |sections| && from <= |cut|
    requires forall j: nat | j < |cut| :: cut[j].name == sections[j].name && cut[j].truncatable == sections[j].truncatable
    ensures First(cut, name, from) == First(sections, name, from)
    decreases |cut| - from
  {
    if from < |cut| {
      SameFirst(sections, cut, name, from + 1);
    }
  }

  function Max(a: int, b: int): int {
    if a >= b then a else b
  }

  /** The exact size after cutting. */
  function Final(sections: seq<Section>, budget: int): int {
    if Sum(sections) <= budget then Sum(sections) else Max(budget, Sum(sections) - Removable(sections, |PRIORITY|))
  }

  /** One priority name's turn. */
  method CutTarget(sections: seq<Section>, result: seq<Section>, k: nat, overflow: nat) returns (cut: seq<Section>, left: nat)
    requires k < |PRIORITY| && overflow > 0
    requires CutInOrder(sections, result, k) && AllEmptied(sections, result, k)
    ensures CutInOrder(sections, cut, k + 1) && (left > 0 ==> AllEmptied(sections, cut, k + 1))
    ensures Sum(cut) - left == Sum(result) - overflow
    ensures var freed := Removable(sections, k + 1) - Removable(sections, k);
            left == if freed <= overflow then overflow - freed else 0
  {
    SameFirst(sections, result, PRIORITY[k], 0);
    var i := 0;
    while i < |result| && !Candidate(result[i], PRIORITY[k])
      invariant i <= |result| && forall j | 0 <= j < i :: !Candidate(result[j], PRIORITY[k])
    {
      i := i + 1;
    }
    if i == |result| {
      NothingToCut(sections, result, k);
      return result, overflow;
    }
    assert IsTargetOf(sections, i, k);
    CutOnce(sections, result, k, i, overflow);
    CutSaves(result[i], overflow);
    TotalUpdate(result, i, Cut(result[i], overflow), |result|);
    var section := result[i];
    if Tokens(section) <= overflow {
      left := overflow - Tokens(section);
      cut := result[i := section.(text := "")];
    } else {
      left := 0;
      cut := result[i := Shortened(section, overflow)];
    }
  }

  ghost predicate Underway(sections: seq<Section>, result: seq<Section>, k: nat, overflow: nat)
    requires k <= |PRIORITY|
  {
    CutInOrder(sections, result, k) && (overflow > 0 ==> AllEmptied(sections, result, k))
  }

  /** All priority names in turn, as long as anything overflows. */
  method CutAll(sections: seq<Section>, budget: int) returns (result: seq<Section>)
    requires Sum(sections) > budget
    ensures Sum(result) == Final(sections, budget) && CutInOrder(sections, result, |PRIORITY|)
  {
    ghost var total := Sum(sections);
    var overflow, k := Sum(sections) - budget, 0;
    result := sections;
    NothingCut(sections);
    while k < |PRIORITY| && overflow > 0
      invariant k <= |PRIORITY| && overflow >= 0 && Underway(sections, result, k, overflow)
      invariant Sum(result) == budget + overflow
      invariant overflow == Max(0, total - budget - Removable(sections, k))
    {
      result, overflow := CutTarget(sections, result, k, overflow);
      k := k + 1;
    }
    RemovableGrows(sections, k, |PRIORITY|);
    CutToTheEnd(sections, result, k);
  }

  /** `enforce_system_budget`: the exact size, and what is cut in which order. */
  method EnforceSystemBudget(sections: seq<Section>, budget: int) returns (kept: seq<Section>, ghost cut: seq<Section>)
    ensures Sum(kept) == Final(sections, budget)
    ensures Sum(sections) <= budget ==> kept == sections
    ensures Sum(sections) > budget ==> kept == NonEmpty(cut, |cut|) && CutInOrder(sections, cut, |PRIORITY|)
  {
    if Sum(sections) <= budget {
      return sections, sections;
    }
    var result := CutAll(sections, budget);
    EmptyWeighsNothing(result, |result|);
    cut := result;
    kept := [];
    for i := 0 to |result|
      invariant kept == NonEmpty(result, i)
    {
      if result[i].text != "" {
        kept := kept + [result[i]];
      }
    }
  }

  /** The budget is met exactly when the untouchable rest fits. */
  lemma BudgetIsMet(sections: seq<Section>, budget: int)
    ensures Final(sections, budget) <= budget <==> Sum(sections) - Removable(sections, |PRIORITY|) <= budget
  {
  }

  // ---- Dividing the context window ----

  /** An explicit reserve, or `None` to derive it; the ratio lies between 0 and 1. */
  datatype Zones = Zones(system: int, dynamic: int, reserve: Option<int>, ratio: real)

  /** `int(x)`: towards zero. */
  function Truncated(x: real): int {
    if x >= 0.0 then x.Floor else -((-x).Floor)
  }

  function Remaining(z: Zones, window: int): int {
    window - z.system - z.dynamic
  }

  function Reserve(z: Zones, window: int, modelMax: Option<int>): int {
    if z.reserve.Some? then z.reserve.value
    else if modelMax.Some? then modelMax.value
    else Truncated(Remaining(z, window) as real * z.ratio)
  }

  /** `compute_history_budget`. */
  function HistoryBudget(z: Zones, window: int, modelMax: Option<int>): int {
    Max(0, Remaining(z, window) - Reserve(z, window, modelMax))
  }

  /** `validate_against_context_window` raises no error. */
  predicate Validates(z: Zones, window: int) {
    z.reserve.Some? ==> z.system + z.dynamic + z.reserve.value <= window
  }

  predicate FillsWindow(z: Zones, window: int, modelMax: Option<int>) {
    z.system + z.dynamic + Reserve(z, window, modelMax) + HistoryBudget(z, window, modelMax) == window
  }

  /** With an explicit reserve the four zones fill the window exactly when validation passes. */
  lemma ValidatedZonesFillWindow(z: Zones, window: int, modelMax: Option<int>)
    requires z.reserve.Some?
    ensures Validates(z, window) <==> FillsWindow(z, window, modelMax)
  {
  }

  lemma TruncatedShare(n: int, r: real)
    requires n >= 0 && 0.0 <= r <= 1.0
    ensures 0 <= Truncated(n as real * r) <= n
  {
    assert 0.0 <= n as real * r <= n as real * 1.0;
  }

  /** With a derived reserve they do so whenever the fixed zones leave anything. */
  lemma DerivedReserveFillsWindow(z: Zones, window: int)
    requires z.reserve.None? && 0.0 <= z.ratio <= 1.0 && Remaining(z, window) >= 0
    ensures FillsWindow(z, window, None) && 0 <= Reserve(z, window, None) <= Remaining(z, window)
  {
    TruncatedShare(Remaining(z, window), z.ratio);
  }

  // ---- Which sections pay ----

  /** The first truncatable section of that name. */
  predicate Leads(sections: seq<Section>, name: string, i: nat) {
    && i < |sections| && sections[i].name == name && sections[i].truncatable
    && forall j | 0 <= j < i :: !(sections[j].name == name && sections[j].truncatable)
  }

  lemma LeaderIsTarget(sections: seq<Section>, name: string, i: nat)
    requires Leads(sections, name, i)
    ensures First(sections, name, 0) == Some(i)
  {
  }

  /** Before `later` loses anything, `earlier` is gone. */
  ghost predicate PaysBefore(sections: seq<Section>, cut: seq<Section>, earlier: string, later: string)
    requires |cut| == |sections|
  {
    forall j: nat, i: nat | Leads(sections, earlier, j) && Leads(sections, later, i) :: cut[i] != sections[i] ==> cut[j].text == ""
  }

  lemma EarlierPays(sections: seq<Section>, cut: seq<Section>, p: nat, q: nat)
    requires p < q < |PRIORITY| && CutInOrder(sections, cut, |PRIORITY|)
    ensures PaysBefore(sections, cut, PRIORITY[p], PRIORITY[q])
  {
    forall j: nat, i: nat | Leads(sections, PRIORITY[p], j) && Leads(sections, PRIORITY[q], i)
      ensures cut[i] != sections[i] ==> cut[j].text == ""
    {
      LeaderIsTarget(sections, PRIORITY[p], j);
      LeaderIsTarget(sections, PRIORITY[q], i);
      assert IsTargetOf(sections, j, p) && IsTargetOf(sections, i, q);
    }
  }

  /** Skills go first, then the bootstrap files, the memory snapshot and the workspace; nothing else is ever cut. */
  lemma SkillsGoFirst(sections: seq<Section>, cut: seq<Section>)
    requires CutInOrder(sections, cut, |PRIORITY|)
    ensures PaysBefore(sections, cut, "skills", "bootstrap") && PaysBefore(sections, cut, "bootstrap", "l1_snapshot")
    ensures PaysBefore(sections, cut, "l1_snapshot", "workspace")
    ensures forall i | 0 <= i < |cut| && (sections[i].name !in {"skills", "bootstrap", "l1_snapshot", "workspace"} || !sections[i].truncatable) ::
              cut[i] == sections[i]
  {
    EarlierPays(sections, cut, 0, 1);
    EarlierPays(sections, cut, 1, 2);
    EarlierPays(sections, cut, 2, 3);
  }

  /**
   What is left for the history: the window less the fixed zones and the reserve, which is the
   configured one, else the model's maximum, else a share of the rest; never less than nothing.
   */
  lemma HistoryIsTheRest(z: Zones, window: int, modelMax: Option<int>)
    ensures var rest := window - z.system - z.dynamic;
            && (z.reserve.Some? ==> HistoryBudget(z, window, modelMax) == if rest >= z.reserve.value then rest - z.reserve.value else 0)
            && (z.reserve.None? && modelMax.Some? ==> HistoryBudget(z, window, modelMax) == if rest >= modelMax.value then rest - modelMax.value else 0)
            && (z.reserve.None? && modelMax.None? && rest >= 0 && 0.0 <= z.ratio <= 1.0 ==>
                  HistoryBudget(z, window, modelMax) == rest - (rest as real * z.ratio).Floor)
  {
    if Remaining(z, window) >= 0 && 0.0 <= z.ratio <= 1.0 {
      TruncatedShare(Remaining(z, window), z.ratio);
    }
  }
}
