/** The review of one database: what the model's decisions do to its rows, and what it reports. */
module CuratorReview {
  import opened Prelude
  import opened CuratorModel

  datatype Verdict = Keep | Promote | Archive
  datatype Decision = Decision(id: string, verdict: Verdict)

  datatype Settings = Settings(reviewEnabled: bool, mayPromote: bool, mayArchive: bool, graduationEnabled: bool)

  /**
   One database as the review meets it: whether opening or a statement fails, the selected
   entries, the model's decisions (none when the call failed), and which promotions succeed.
   */
  datatype Db = Db(name: string, opens: bool, entries: seq<string>, decisions: Option<seq<Decision>>,
                   graduates: nat -> bool, updateFails: nat -> bool)

  datatype Outcome = Outcome(reviewed: nat, promoted: nat, archived: nat, failed: nat)

  function TotalActions(o: Outcome): nat {
    o.promoted + o.archived
  }

  /** The status decision `i` gives its entry, if it is acted upon. */
  function Effect(s: Settings, d: Db, i: nat): Option<Status>
    requires d.decisions.Some? && i < |d.decisions.value|
  {
    var decision := d.decisions.value[i];
    if decision.id !in d.entries then None
    else
      match decision.verdict
      case Keep => None
      case Promote => if s.mayPromote && s.graduationEnabled && d.graduates(i) then Some(Graduated) else None
      case Archive => if s.mayArchive then Some(Archived) else None
  }

  /** What the first `n` decisions leave in the journal. */
  function Steps(s: Settings, d: Db, n: nat): seq<Action>
    requires d.decisions.Some? && n <= |d.decisions.value|
  {
    if n == 0 then []
    else
      var before := Steps(s, d, n - 1);
      match Effect(s, d, n - 1)
      case None => before
      case Some(status) => before + [Checked(true), ReviewWrote(d.name, d.decisions.value[n-1].id, status)]
  }

  function CountOf(s: Settings, d: Db, status: Status, n: nat): nat
    requires d.decisions.Some? && n <= |d.decisions.value|
  {
    if n == 0 then 0 else CountOf(s, d, status, n - 1) + if Effect(s, d, n - 1) == Some(status) then 1 else 0
  }

  function CountFailed(s: Settings, d: Db, n: nat): nat
    requires d.decisions.Some? && n <= |d.decisions.value|
  {
    if n == 0 then 0
    else
      var decision := d.decisions.value[n-1];
      CountFailed(s, d, n - 1)
      + if decision.id in d.entries && decision.verdict == Promote && s.mayPromote && s.graduationEnabled && !d.graduates(n - 1)
        then 1 else 0
  }

  /** What a review that runs to its end reports. */
  function OutcomeOf(s: Settings, d: Db): Outcome {
    if d.entries == [] then Outcome(0, 0, 0, 0)
    else if d.decisions.None? then Outcome(|d.entries|, 0, 0, 1)
    else
      var n := |d.decisions.value|;
      Outcome(|d.entries|, CountOf(s, d, Graduated, n), CountOf(s, d, Archived, n), CountFailed(s, d, n))
  }

  /** Everything a review that is not cut off leaves in the journal. */
  function FullReview(s: Settings, d: Db): seq<Action> {
    if d.entries == [] then [Checked(true)]
    else if d.decisions.None? then [Checked(true), Checked(true)]
    else [Checked(true), Checked(true)] + Steps(s, d, |d.decisions.value|)
  }

  /** What `run_llm_review` returns or raises. */
  datatype ReviewResult = Reported(outcome: Outcome) | LockLost | Failed

  ghost predicate IsPrefix(a: seq<Action>, b: seq<Action>) {
    |a| <= |b| && b[..|a|] == a
  }

  /** A review that is cut off has done an initial part of its work; a loss is the last thing it sees. */
  ghost predicate CutOff(s: Settings, d: Db, added: seq<Action>, lost: bool) {
    if lost then added != [] && added[|added|-1] == Checked(false) && IsPrefix(added[..|added|-1], FullReview(s, d))
    else IsPrefix(added, FullReview(s, d))
  }

  lemma {:induction false} StepsPrefix(s: Settings, d: Db, n: nat, k: nat)
    requires d.decisions.Some? && n <= k <= |d.decisions.value|
    ensures IsPrefix(Steps(s, d, n), Steps(s, d, k))
  {
    if n < k {
      StepsPrefix(s, d, n, k - 1);
    }
  }

  lemma StepsPrefixLook(s: Settings, d: Db, n: nat, k: nat)
    requires d.decisions.Some? && n < k <= |d.decisions.value| && Effect(s, d, n).Some?
    ensures IsPrefix(Steps(s, d, n) + [Checked(true)], Steps(s, d, k))
  {
    StepsPrefix(s, d, n + 1, k);
    var now, next, all := Steps(s, d, n), Steps(s, d, n + 1), Steps(s, d, k);
    assert next[..|now| + 1] == now + [Checked(true)];
    assert all[..|now| + 1] == all[..|next|][..|now| + 1];
  }

  lemma PrefixUnder(under: seq<Action>, a: seq<Action>, b: seq<Action>)
    requires IsPrefix(a, b)
    ensures IsPrefix(under + a, under + b)
  {
    assert (under + b)[..|under + a|] == under + b[..|a|];
  }

  /** The journal of a review that stops before or inside decision `n`. */
  lemma StoppedAt(s: Settings, d: Db, n: nat)
    requires d.entries != [] && d.decisions.Some? && n < |d.decisions.value| && Effect(s, d, n).Some?
    ensures var looks := [Checked(true), Checked(true)];
            && IsPrefix(looks + Steps(s, d, n), FullReview(s, d))
            && IsPrefix(looks + (Steps(s, d, n) + [Checked(true)]), FullReview(s, d))
  {
    var looks, k := [Checked(true), Checked(true)], |d.decisions.value|;
    StepsPrefix(s, d, n, k);
    StepsPrefixLook(s, d, n, k);
    PrefixUnder(looks, Steps(s, d, n), Steps(s, d, k));
    PrefixUnder(looks, Steps(s, d, n) + [Checked(true)], Steps(s, d, k));
  }

  // ---- Counting changed rows ----

  /** The ids acted upon by the first `n` decisions. */
  function ActedIds(s: Settings, d: Db, n: nat): seq<string>
    requires d.decisions.Some? && n <= |d.decisions.value|
  {
    if n == 0 then []
    else if Effect(s, d, n - 1).Some? then ActedIds(s, d, n - 1) + [d.decisions.value[n-1].id]
    else ActedIds(s, d, n - 1)
  }

  /** What decision `n` makes of the rows. */
  function RowsOnce(s: Settings, d: Db, rows: map<string, Status>, n: nat): map<string, Status>
    requires d.decisions.Some? && n < |d.decisions.value|
  {
    var id := d.decisions.value[n].id;
    match Effect(s, d, n)
    case None => rows
    case Some(status) => if id in rows then rows[id := status] else rows
  }

  function RowsAfter(s: Settings, d: Db, rows: map<string, Status>, n: nat): map<string, Status>
    requires d.decisions.Some? && n <= |d.decisions.value|
  {
    if n == 0 then rows else RowsOnce(s, d, RowsAfter(s, d, rows, n - 1), n - 1)
  }

  function Changed(before: map<string, Status>, after: map<string, Status>): set<string> {
    set id | id in before && id in after && after[id] != before[id]
  }

  function Members(s: seq<string>): set<string> {
    set x | x in s
  }

  /** What the SELECT promises: active entries. */
  predicate Selected(d: Db, rows: map<string, Status>) {
    forall id | id in d.entries :: id in rows && rows[id] == Active
  }

  lemma {:induction false} ChangedAreActed(s: Settings, d: Db, rows: map<string, Status>, n: nat)
    requires d.decisions.Some? && n <= |d.decisions.value| && Selected(d, rows)
    ensures var after := RowsAfter(s, d, rows, n);
            after.Keys == rows.Keys && Changed(rows, after) == Members(ActedIds(s, d, n))
    ensures forall id | id in ActedIds(s, d, n) :: id in d.entries
  {
    if n > 0 {
      ChangedAreActed(s, d, rows, n - 1);
      if Effect(s, d, n - 1).Some? {
        var before, id, status := RowsAfter(s, d, rows, n - 1), d.decisions.value[n-1].id, Effect(s, d, n - 1).value;
        assert id in d.entries && rows[id] == Active && status != Active;
        assert Changed(rows, before[id := status]) == Changed(rows, before) + {id};
        assert Members(ActedIds(s, d, n)) == Members(ActedIds(s, d, n - 1)) + {id};
      }
    }
  }

  lemma {:induction false} DistinctCount(s: seq<string>)
    ensures |Members(s)| <= |s|
    ensures |Members(s)| == |s| <==> NoDuplicates(s)
  {
    if s != [] {
      var front, last := s[..|s|-1], s[|s|-1];
      DistinctCount(front);
      assert s == front + [last];
      assert Members(s) == Members(front) + {last};
      if last in front {
        var i :| 0 <= i < |front| && front[i] == last;
        assert s[i] == s[|s|-1];
      } else {
        assert NoDuplicates(front) ==> NoDuplicates(s);
      }
      if NoDuplicates(s) {
        assert forall i, j | 0 <= i < j < |front| :: front[i] == s[i] && front[j] == s[j];
      }
    }
  }

  lemma {:induction false} CountsActed(s: Settings, d: Db, n: nat)
    requires d.decisions.Some? && n <= |d.decisions.value|
    ensures CountOf(s, d, Graduated, n) + CountOf(s, d, Archived, n) == |ActedIds(s, d, n)|
  {
    if n > 0 {
      CountsActed(s, d, n - 1);
    }
  }

  /**
   The number of actions a completed review reports is the number of rows whose status it
   changed, exactly when no entry was acted upon twice.
   */
  lemma ActionsCountChangedRows(s: Settings, d: Db, rows: map<string, Status>)
    requires d.entries != [] && d.decisions.Some? && Selected(d, rows)
    ensures var n := |d.decisions.value|;
            (TotalActions(OutcomeOf(s, d)) == |Changed(rows, RowsAfter(s, d, rows, n))|) <==> NoDuplicates(ActedIds(s, d, n))
  {
    var n := |d.decisions.value|;
    ChangedAreActed(s, d, rows, n);
    CountsActed(s, d, n);
    DistinctCount(ActedIds(s, d, n));
  }

  /** The rows a review leaves are the replay of its journal. */
  lemma {:induction false} ReplayedReview(start: Rows, before: seq<Action>, s: Settings, d: Db, n: nat)
    requires d.decisions.Some? && n <= |d.decisions.value|
    requires d.name in Replayed(start, before, |before|)
    ensures var trace := before + Steps(s, d, n);
            var after := Replayed(start, trace, |trace|);
            d.name in after && after[d.name] == RowsAfter(s, d, Replayed(start, before, |before|)[d.name], n)
  {
    if n == 0 {
      assert before + Steps(s, d, 0) == before;
    } else {
      ReplayedReview(start, before, s, d, n - 1);
      var sofar := before + Steps(s, d, n - 1);
      if Effect(s, d, n - 1).Some? {
        var write := ReviewWrote(d.name, d.decisions.value[n-1].id, Effect(s, d, n - 1).value);
        var trace := before + Steps(s, d, n);
        assert trace == sofar + [Checked(true), write];
        ReplayedPrefix(start, sofar, [Checked(true), write], |sofar|);
        assert Replayed(start, trace, |sofar| + 1) == Replayed(start, sofar, |sofar|);
      }
    }
  }

  // ---- What a completed review leaves, told by its decisions ----

  /** Decision `i` is to be acted upon: it names a selected entry, what it asks for is enabled, and it succeeds. */
  predicate Acts(s: Settings, d: Db, i: nat, verdict: Verdict) {
    && d.decisions.Some? && i < |d.decisions.value|
    && d.decisions.value[i].id in d.entries && d.decisions.value[i].verdict == verdict
    && (verdict == Archive ==> s.mayArchive)
    && (verdict == Promote ==> s.mayPromote && s.graduationEnabled && d.graduates(i))
    && verdict != Keep
  }

  /** Decision `i` acts on `id`. */
  predicate ActsOn(s: Settings, d: Db, i: nat, id: string) {
    (Acts(s, d, i, Archive) || Acts(s, d, i, Promote)) && d.decisions.value[i].id == id
  }

  /** Decision `i` is the last of the first `n` that acts on `id`, and has this verdict. */
  predicate LastWord(s: Settings, d: Db, id: string, i: nat, verdict: Verdict, n: nat) {
    && i < n && Acts(s, d, i, verdict) && d.decisions.value[i].id == id
    && forall j: nat | i < j < n :: !ActsOn(s, d, j, id)
  }

  /** No decision acts on `id`. */
  predicate Spared(s: Settings, d: Db, id: string, n: nat) {
    forall j: nat | j < n :: !ActsOn(s, d, j, id)
  }

  /** A row is as its last word says, and untouched without one. */
  ghost predicate DecidedRow(s: Settings, d: Db, id: string, was: Status, now: Status, n: nat) {
    && (forall i: nat | LastWord(s, d, id, i, Archive, n) :: now == Archived)
    && (forall i: nat | LastWord(s, d, id, i, Promote, n) :: now == Graduated)
    && (Spared(s, d, id, n) ==> now == was)
  }

  ghost predicate Decided(s: Settings, d: Db, before: map<string, Status>, after: map<string, Status>, n: nat) {
    after.Keys == before.Keys && forall id | id in before :: DecidedRow(s, d, id, before[id], after[id], n)
  }

  lemma OtherRow(s: Settings, d: Db, id: string, was: Status, now: Status, n: nat, m: nat)
    requires m == n + 1 && DecidedRow(s, d, id, was, now, n) && !ActsOn(s, d, n, id)
    ensures DecidedRow(s, d, id, was, now, m)
  {
    forall i: nat, verdict | LastWord(s, d, id, i, verdict, m)
      ensures verdict != Keep && LastWord(s, d, id, i, verdict, n)
    {
      assert Acts(s, d, i, verdict) && i != n;
    }
  }

  lemma ActedRow(s: Settings, d: Db, id: string, was: Status, n: nat, m: nat, verdict: Verdict)
    requires m == n + 1 && Acts(s, d, n, verdict) && d.decisions.value[n].id == id
    ensures DecidedRow(s, d, id, was, if verdict == Archive then Archived else Graduated, m)
  {
    forall i: nat, other | LastWord(s, d, id, i, other, m)
      ensures i == n && other == verdict
    {
      assert ActsOn(s, d, n, id);
    }
    assert ActsOn(s, d, n, id) && !Spared(s, d, id, m);
  }

  lemma DecidedOnce(s: Settings, d: Db, before: map<string, Status>, rows: map<string, Status>, n: nat, m: nat)
    requires d.decisions.Some? && n < |d.decisions.value| && m == n + 1 && Decided(s, d, before, rows, n)
    ensures Decided(s, d, before, RowsOnce(s, d, rows, n), m)
  {
    var after, of := RowsOnce(s, d, rows, n), d.decisions.value[n];
    forall id | id in before
      ensures DecidedRow(s, d, id, before[id], after[id], m)
    {
      if ActsOn(s, d, n, id) {
        ActedRow(s, d, id, before[id], n, m, of.verdict);
      } else {
        OtherRow(s, d, id, before[id], rows[id], n, m);
      }
    }
  }

  /** The rows after `n` decisions are as decided, as a property of `n`. */
  ghost function DecidedAfter(s: Settings, d: Db, rows: map<string, Status>): nat -> bool {
    (n: nat) => d.decisions.Some? && n <= |d.decisions.value| && Decided(s, d, rows, RowsAfter(s, d, rows, n), n)
  }

  lemma NothingDecided(s: Settings, d: Db, rows: map<string, Status>)
    requires d.decisions.Some?
    ensures DecidedAfter(s, d, rows)(0)
  {
  }

  lemma RowsFurther(s: Settings, d: Db, rows: map<string, Status>, n: nat)
    requires d.decisions.Some? && n < |d.decisions.value|
    ensures RowsAfter(s, d, rows, n + 1) == RowsOnce(s, d, RowsAfter(s, d, rows, n), n)
  {
  }

  lemma DecidedFurther(s: Settings, d: Db, rows: map<string, Status>, n: nat)
    requires d.decisions.Some? && n < |d.decisions.value| && DecidedAfter(s, d, rows)(n)
    ensures DecidedAfter(s, d, rows)(n + 1)
  {
    var was := RowsAfter(s, d, rows, n);
    DecidedOnce(s, d, rows, was, n, n + 1);
    RowsFurther(s, d, rows, n);
  }

  lemma RowsAreDecided(s: Settings, d: Db, rows: map<string, Status>, n: nat)
    requires d.decisions.Some? && n <= |d.decisions.value|
    ensures DecidedAfter(s, d, rows)(n)
  {
    var p := DecidedAfter(s, d, rows);
    NothingDecided(s, d, rows);
    forall k: nat | k < n && p(k)
      ensures p(k + 1)
    {
      DecidedFurther(s, d, rows, k);
    }
    Climb(p, n);
  }

  lemma {:induction false} SomeWord(s: Settings, d: Db, id: string, n: nat) returns (i: nat, verdict: Verdict)
    requires !Spared(s, d, id, n)
    ensures LastWord(s, d, id, i, verdict, n)
  {
    if ActsOn(s, d, n - 1, id) {
      i, verdict := n - 1, d.decisions.value[n-1].verdict;
    } else {
      i, verdict := SomeWord(s, d, id, n - 1);
    }
  }

  /**
   After a review an active row is archived exactly when its last word is Archive, graduated exactly
   when it is a promotion that succeeded, and untouched exactly when there is none. What is not
   enabled, or not selected, does not happen.
   */
  lemma VerdictsAreCarriedOut(s: Settings, d: Db, before: map<string, Status>, after: map<string, Status>, n: nat, id: string)
    requires Decided(s, d, before, after, n) && id in before && before[id] == Active
    ensures after[id] == Archived <==> exists i: nat :: LastWord(s, d, id, i, Archive, n)
    ensures after[id] == Graduated <==> exists i: nat :: LastWord(s, d, id, i, Promote, n)
    ensures after[id] == Active <==> Spared(s, d, id, n)
    ensures !s.mayArchive ==> after[id] != Archived
    ensures !(s.mayPromote && s.graduationEnabled) ==> after[id] != Graduated
    ensures id !in d.entries ==> after[id] == Active
  {
    assert DecidedRow(s, d, id, before[id], after[id], n);
    if !Spared(s, d, id, n) {
      var i, verdict := SomeWord(s, d, id, n);
      assert Acts(s, d, i, verdict);
    }
  }

  /** How many decisions there are to act upon with this verdict. */
  function ActedOn(s: Settings, d: Db, verdict: Verdict, n: nat): set<nat> {
    set i: nat | i < n && Acts(s, d, i, verdict)
  }

  /** The promotions that were enabled and failed. */
  function FailedPromotions(s: Settings, d: Db, n: nat): set<nat>
    requires d.decisions.Some? && n <= |d.decisions.value|
  {
    set i: nat | i < n && FailsAt(s, d, i)
  }

  predicate FailsAt(s: Settings, d: Db, i: nat)
    requires d.decisions.Some? && i < |d.decisions.value|
  {
    && d.decisions.value[i].id in d.entries && d.decisions.value[i].verdict == Promote
    && s.mayPromote && s.graduationEnabled && !d.graduates(i)
  }

  lemma OneMore(some: set<nat>, more: set<nat>, i: nat, there: bool)
    requires i !in some && more == some + if there then {i} else {}
    ensures |more| == |some| + if there then 1 else 0
  {
  }

  lemma ActedOnMore(s: Settings, d: Db, verdict: Verdict, i: nat, n: nat)
    requires n == i + 1
    ensures |ActedOn(s, d, verdict, n)| == |ActedOn(s, d, verdict, i)| + if Acts(s, d, i, verdict) then 1 else 0
  {
    assert ActedOn(s, d, verdict, n) == ActedOn(s, d, verdict, i) + if Acts(s, d, i, verdict) then {i} else {};
    OneMore(ActedOn(s, d, verdict, i), ActedOn(s, d, verdict, n), i, Acts(s, d, i, verdict));
  }

  function StatusFor(verdict: Verdict): Status {
    match verdict
    case Keep => Active
    case Promote => Graduated
    case Archive => Archived
  }

  lemma ActsHaveEffect(s: Settings, d: Db, verdict: Verdict, i: nat)
    requires d.decisions.Some? && i < |d.decisions.value| && verdict != Keep
    ensures Acts(s, d, i, verdict) <==> Effect(s, d, i) == Some(StatusFor(verdict))
  {
  }

  lemma {:induction false} ActedOnIsCounted(s: Settings, d: Db, verdict: Verdict, n: nat)
    requires d.decisions.Some? && n <= |d.decisions.value| && verdict != Keep
    ensures CountOf(s, d, StatusFor(verdict), n) == |ActedOn(s, d, verdict, n)|
  {
    if n > 0 {
      var i: nat := n - 1;
      ActedOnIsCounted(s, d, verdict, i);
      ActsHaveEffect(s, d, verdict, i);
      ActedOnMore(s, d, verdict, i, n);
    }
  }

  lemma {:induction false} FailuresAreCounted(s: Settings, d: Db, n: nat)
    requires d.decisions.Some? && n <= |d.decisions.value|
    ensures CountFailed(s, d, n) == |FailedPromotions(s, d, n)|
  {
    if n > 0 {
      var i: nat := n - 1;
      FailuresAreCounted(s, d, i);
      assert FailedPromotions(s, d, n) == FailedPromotions(s, d, i) + if FailsAt(s, d, i) then {i} else {};
      OneMore(FailedPromotions(s, d, i), FailedPromotions(s, d, n), i, FailsAt(s, d, i));
    }
  }

  /** What a review reports: nothing without entries, one failure without an answer, else what was done. */
  ghost predicate Reports(s: Settings, d: Db, o: Outcome) {
    if d.entries == [] then o == Outcome(0, 0, 0, 0)
    else if d.decisions.None? then o == Outcome(|d.entries|, 0, 0, 1)
    else
      var n := |d.decisions.value|;
      o == Outcome(|d.entries|, |ActedOn(s, d, Promote, n)|, |ActedOn(s, d, Archive, n)|, |FailedPromotions(s, d, n)|)
  }

  lemma OutcomeReports(s: Settings, d: Db)
    ensures Reports(s, d, OutcomeOf(s, d))
  {
    if d.decisions.Some? {
      var n := |d.decisions.value|;
      ActedOnIsCounted(s, d, Archive, n);
      ActedOnIsCounted(s, d, Promote, n);
      FailuresAreCounted(s, d, n);
    }
  }

  /** A review leaves its database as decided, and every other one alone. */
  ghost predicate ReviewedRows(s: Settings, d: Db, before: Rows, after: Rows) {
    && after.Keys == before.Keys
    && (forall db | db in before && db != d.name :: after[db] == before[db])
    && (d.name in before ==>
          if d.entries == [] || d.decisions.None? then after[d.name] == before[d.name]
          else Decided(s, d, before[d.name], after[d.name], |d.decisions.value|))
  }

  lemma {:induction false} OthersKeepRows(start: Rows, before: seq<Action>, s: Settings, d: Db, n: nat)
    requires d.decisions.Some? && n <= |d.decisions.value|
    ensures var trace, was := before + Steps(s, d, n), Replayed(start, before, |before|);
            var now := Replayed(start, trace, |trace|);
            now.Keys == was.Keys && forall db | db in was && db != d.name :: now[db] == was[db]
  {
    if n == 0 {
      assert before + Steps(s, d, 0) == before;
    } else {
      OthersKeepRows(start, before, s, d, n - 1);
      var sofar := before + Steps(s, d, n - 1);
      if Effect(s, d, n - 1).Some? {
        var write := ReviewWrote(d.name, d.decisions.value[n-1].id, Effect(s, d, n - 1).value);
        var trace := before + Steps(s, d, n);
        assert trace == sofar + [Checked(true), write];
        ReplayedPrefix(start, sofar, [Checked(true), write], |sofar|);
        assert Replayed(start, trace, |sofar| + 1) == Replayed(start, sofar, |sofar|);
      }
    }
  }

  lemma {:induction false} LooksKeepRows(start: Rows, before: seq<Action>, looks: seq<Action>)
    requires forall i | 0 <= i < |looks| :: looks[i].Checked?
    ensures Replayed(start, before + looks, |before + looks|) == Replayed(start, before, |before|)
  {
    if looks == [] {
      assert before + looks == before;
    } else {
      var front := looks[..|looks|-1];
      LooksKeepRows(start, before, front);
      assert before + looks == (before + front) + [looks[|looks|-1]];
      ReplayedPrefix(start, before + front, [looks[|looks|-1]], |before + front|);
    }
  }

  /** The journal of a full review replays to the rows its decisions tell. */
  lemma FullReviewIsTold(start: Rows, before: seq<Action>, s: Settings, d: Db)
    ensures var trace := before + FullReview(s, d);
            ReviewedRows(s, d, Replayed(start, before, |before|), Replayed(start, trace, |trace|))
  {
    var trace, was := before + FullReview(s, d), Replayed(start, before, |before|);
    if d.entries == [] || d.decisions.None? {
      LooksKeepRows(start, before, FullReview(s, d));
    } else {
      var looked, n := before + [Checked(true), Checked(true)], |d.decisions.value|;
      LooksKeepRows(start, before, [Checked(true), Checked(true)]);
      assert trace == looked + Steps(s, d, n);
      OthersKeepRows(start, looked, s, d, n);
      if d.name in was {
        ReplayedReview(start, looked, s, d, n);
        RowsAreDecided(s, d, was[d.name], n);
      }
    }
  }
}
