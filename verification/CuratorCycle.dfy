/** One curator cycle: an optional scan, an optional review of every database, two timestamps. */
module CuratorCycle {
  import opened Prelude
  import opened CuratorModel
  import opened CuratorReview

  // ---- The scan ----

  /** One database as the scan meets it: stale rows to archive, candidates to graduate. */
  datatype ScanDb = ScanDb(name: string, stale: seq<string>, graduating: seq<string>)

  /** How far the scan of a database is: not begun, so many writes done, or given up at its look. */
  datatype Progress = Unstarted | Writing(done: nat) | GaveUp

  function Writes(db: string, ids: seq<string>, status: Status): seq<Action> {
    seq(|ids|, i requires 0 <= i < |ids| => ScanWrote(db, ids[i], status))
  }

  /** The stale rows first, then the graduating ones. */
  function Work(d: ScanDb): seq<Action> {
    Writes(d.name, d.stale, Archived) + Writes(d.name, d.graduating, Graduated)
  }

  lemma {:induction false} ReplayedOn(rows: Rows, a: seq<Action>, b: seq<Action>, n: nat)
    requires n <= |b|
    ensures Replayed(rows, a + b, |a| + n) == Replayed(Replayed(rows, a, |a|), b, n)
  {
    if n == 0 {
      ReplayedPrefix(rows, a, b, |a|);
    } else {
      ReplayedOn(rows, a, b, n - 1);
      assert (a + b)[|a| + n - 1] == b[n-1];
    }
  }

  lemma {:induction false} WritesLeave(rows: Rows, db: string, ids: seq<string>, status: Status, n: nat, id: string)
    requires n <= |ids| && db in rows && id in rows[db]
    ensures var after := Replayed(rows, Writes(db, ids, status), n);
            db in after && id in after[db] && after[db][id] == if id in ids[..n] then status else rows[db][id]
  {
    if n > 0 {
      WritesLeave(rows, db, ids, status, n - 1, id);
      assert ids[..n] == ids[..n-1] + [ids[n-1]];
    }
  }

  /** A scan that runs to its end graduates its candidates, archives the other stale rows, and leaves the rest. */
  lemma ScanLeaves(rows: Rows, d: ScanDb, id: string)
    requires d.name in rows && id in rows[d.name]
    ensures var after := Replayed(rows, Work(d), |Work(d)|);
            && d.name in after && id in after[d.name]
            && after[d.name][id] == if id in d.graduating then Graduated else if id in d.stale then Archived else rows[d.name][id]
  {
    var first, second := Writes(d.name, d.stale, Archived), Writes(d.name, d.graduating, Graduated);
    WritesLeave(rows, d.name, d.stale, Archived, |d.stale|, id);
    WritesLeave(Replayed(rows, first, |first|), d.name, d.graduating, Graduated, |d.graduating|, id);
    ReplayedOn(rows, first, second, |second|);
    assert d.stale[..|d.stale|] == d.stale && d.graduating[..|d.graduating|] == d.graduating;
  }

  predicate Sensible(d: ScanDb, p: Progress) {
    p.Writing? ==> p.done <= |Work(d)|
  }

  predicate Scanned(d: ScanDb, p: Progress) {
    p.GaveUp? || p == Writing(|Work(d)|)
  }

  function Remaining(d: ScanDb, p: Progress): int {
    match p
    case Unstarted => |Work(d)| + 1
    case Writing(done) => |Work(d)| - done
    case GaveUp => 0
  }

  /** What the scan of a database has put into the journal so far. */
  function Left(d: ScanDb, p: Progress): seq<Action>
    requires Sensible(d, p)
  {
    match p
    case Unstarted => []
    case Writing(done) => [Checked(true)] + Work(d)[..done]
    case GaveUp => [Checked(false)]
  }

  /** The entries of `part` made in the turns of database `i`. */
  function Share(part: seq<Action>, turns: seq<nat>, i: nat, n: nat): seq<Action>
    requires n <= |part| && n <= |turns|
  {
    if n == 0 then []
    else if turns[n-1] == i then Share(part, turns, i, n - 1) + [part[n-1]]
    else Share(part, turns, i, n - 1)
  }

  /** `part` interleaves what each database has done. */
  ghost predicate Interleaved(dbs: seq<ScanDb>, progress: seq<Progress>, part: seq<Action>, turns: seq<nat>) {
    && |progress| == |dbs| && |turns| == |part|
    && (forall k | 0 <= k < |turns| :: turns[k] < |dbs| && (part[k].Checked? || part[k].ScanWrote?))
    && (forall i | 0 <= i < |dbs| :: Does(dbs[i], progress[i], part, turns, i))
  }

  /** The entries made in the turns of database `i` are what it has done so far. */
  predicate Does(d: ScanDb, p: Progress, part: seq<Action>, turns: seq<nat>, i: nat)
    requires |turns| == |part|
  {
    Sensible(d, p) && Share(part, turns, i, |part|) == Left(d, p)
  }

  lemma {:induction false} SharePrefix(part: seq<Action>, turns: seq<nat>, i: nat, a: Action, j: nat, n: nat)
    requires n <= |part| == |turns|
    ensures Share(part + [a], turns + [j], i, n) == Share(part, turns, i, n)
  {
    if n > 0 {
      SharePrefix(part, turns, i, a, j, n - 1);
    }
  }

  lemma ShareMore(part: seq<Action>, turns: seq<nat>, i: nat, a: Action, j: nat)
    requires |part| == |turns|
    ensures Share(part + [a], turns + [j], i, |part| + 1) == Share(part, turns, i, |part|) + if i == j then [a] else []
  {
    SharePrefix(part, turns, i, a, j, |part|);
  }

  lemma ShareTaken(d: ScanDb, p: Progress, after: Progress, part: seq<Action>, turns: seq<nat>, j: nat, i: nat, a: Action)
    requires |turns| == |part| && Does(d, p, part, turns, j) && Sensible(d, after)
    requires if i == j then Left(d, after) == Left(d, p) + [a] else after == p
    ensures Does(d, after, part + [a], turns + [i], j)
  {
    ShareMore(part, turns, j, a, i);
  }

  lemma TurnTaken(dbs: seq<ScanDb>, progress: seq<Progress>, part: seq<Action>, turns: seq<nat>, i: nat, p: Progress, a: Action)
    requires Interleaved(dbs, progress, part, turns) && i < |dbs| && Sensible(dbs[i], p)
    requires Left(dbs[i], p) == Left(dbs[i], progress[i]) + [a] && (a.Checked? || a.ScanWrote?)
    ensures Interleaved(dbs, progress[i := p], part + [a], turns + [i])
  {
    var after := progress[i := p];
    forall j | 0 <= j < |dbs|
      ensures Does(dbs[j], after[j], part + [a], turns + [i], j)
    {
      ShareTaken(dbs[j], progress[j], after[j], part, turns, j, i, a);
    }
  }

  function Started(progress: seq<Progress>, n: nat): nat
    requires n <= |progress|
  {
    if n == 0 then 0 else Started(progress, n - 1) + if progress[n-1].Unstarted? then 0 else 1
  }

  lemma {:induction false} StartedUpdate(progress: seq<Progress>, i: nat, p: Progress, n: nat)
    requires i < |progress| && n <= |progress| && !p.Unstarted?
    ensures Started(progress[i := p], n) == Started(progress, n) + if i < n && progress[i].Unstarted? then 1 else 0
  {
    if n > 0 {
      StartedUpdate(progress, i, p, n - 1);
    }
  }

  lemma {:induction false} NothingStarted(progress: seq<Progress>, n: nat)
    requires n <= |progress| && forall i | 0 <= i < n :: progress[i].Unstarted?
    ensures Started(progress, n) == 0
  {
    if n > 0 {
      NothingStarted(progress, n - 1);
    }
  }

  predicate AllScanned(dbs: seq<ScanDb>, progress: seq<Progress>, n: nat) {
    n <= |progress| && n <= |dbs| && forall i | 0 <= i < n :: Scanned(dbs[i], progress[i])
  }

  lemma NothingInterleaved(dbs: seq<ScanDb>, progress: seq<Progress>)
    requires |progress| == |dbs| && forall i | 0 <= i < |dbs| :: progress[i].Unstarted?
    ensures Interleaved(dbs, progress, [], [])
  {
  }

  lemma InterleavedIsScan(dbs: seq<ScanDb>, progress: seq<Progress>, start: seq<Action>, part: seq<Action>, turns: seq<nat>)
    requires Interleaved(dbs, progress, part, turns)
    ensures var trace := start + [Checked(true), Checked(true)] + part;
            IsPrefix(start, trace) && ScannedSince(trace, |start|)
  {
    var trace := start + [Checked(true), Checked(true)] + part;
    forall i | |start| <= i < |trace|
      ensures trace[i].Checked? || trace[i].ScanWrote?
    {
      if i >= |start| + 2 {
        assert trace[i] == part[i - |start| - 2] && turns[i - |start| - 2] < |dbs|;
      }
    }
  }

  lemma {:induction false} AllStarted(dbs: seq<ScanDb>, progress: seq<Progress>, n: nat)
    requires AllScanned(dbs, progress, n)
    ensures Started(progress, n) == n
  {
    if n > 0 {
      AllStarted(dbs, progress, n - 1);
    }
  }

  datatype Signal = Completed | SawLoss | Broke

  function Names(dbs: seq<Db>, n: nat): seq<string>
    requires n <= |dbs|
  {
    if n == 0 then [] else Names(dbs, n - 1) + [dbs[n-1].name]
  }

  lemma {:induction false} NamesAre(dbs: seq<Db>, n: nat)
    requires n <= |dbs|
    ensures Names(dbs, n) == seq(n, i requires 0 <= i < n => dbs[i].name)
  {
    if n > 0 {
      NamesAre(dbs, n - 1);
    }
  }

  predicate ReviewOnly(a: Action) {
    a == Checked(true) || a.ReviewWrote?
  }

  lemma {:induction false} StepsAreReviewOnly(s: Settings, d: Db, n: nat)
    requires d.decisions.Some? && n <= |d.decisions.value|
    ensures forall i | 0 <= i < |Steps(s, d, n)| :: ReviewOnly(Steps(s, d, n)[i])
  {
    if n > 0 {
      StepsAreReviewOnly(s, d, n - 1);
    }
  }

  /** Since `from` nothing was stamped and no look failed, save for a loss seen last. */
  ghost predicate ReviewedSince(trace: seq<Action>, from: nat, lost: bool)
    requires from <= |trace|
  {
    && (lost ==> from < |trace| && trace[|trace|-1] == Checked(false))
    && forall i | from <= i < |trace| - (if lost then 1 else 0) :: ReviewOnly(trace[i]) || trace[i].Attempted?
  }

  /** Nothing since `from` starts on a database. */
  predicate NoAttempt(trace: seq<Action>, from: nat)
    requires from <= |trace|
  {
    forall i | from <= i < |trace| :: !trace[i].Attempted?
  }

  lemma FullIsReviewed(s: Settings, d: Db, start: seq<Action>)
    ensures ReviewedSince(start + FullReview(s, d), |start|, false) && NoAttempt(start + FullReview(s, d), |start|)
  {
    FullIsReviewOnly(s, d);
  }

  lemma StoppedIsReviewed(s: Settings, d: Db, start: seq<Action>, trace: seq<Action>, lost: bool)
    requires Stopped(s, d, start, trace, lost)
    ensures ReviewedSince(trace, |start|, lost) && NoAttempt(trace, |start|)
  {
    FullIsReviewOnly(s, d);
    var full, added := FullReview(s, d), trace[|start|..];
    var kept := if lost then added[..|added|-1] else added;
    assert forall i | 0 <= i < |kept| :: kept[i] == full[..|kept|][i] && ReviewOnly(full[i]);
    assert forall i | |start| <= i < |trace| :: trace[i] == added[i-|start|];
    assert forall i | 0 <= i < |kept| :: added[i] == kept[i];
  }

  lemma ReviewedFurther(a: seq<Action>, b: seq<Action>, from: nat, lost: bool)
    requires from <= |a| && IsPrefix(a, b)
    requires ReviewedSince(a, from, false) && ReviewedSince(b, |a|, lost)
    ensures ReviewedSince(b, from, lost)
  {
    assert forall i | from <= i < |a| :: a[i] == b[..|a|][i];
  }

  lemma LookThenAttempt(before: seq<Action>, db: string)
    ensures var trace := before + [Checked(true), Attempted(db)];
            && ReviewedSince(trace, |before|, false)
            && AttemptsIn(trace, |trace|) == AttemptsIn(before, |before|) + [db]
  {
    var trace := before + [Checked(true), Attempted(db)];
    AttemptsPrefix(before, [Checked(true), Attempted(db)], |before|);
    assert AttemptsIn(trace, |before| + 1) == AttemptsIn(trace, |before|);
  }

  lemma {:induction false} AttemptsStay(trace: seq<Action>, from: nat, n: nat)
    requires from <= n <= |trace| && NoAttempt(trace, from)
    ensures AttemptsIn(trace, n) == AttemptsIn(trace, from)
  {
    if from < n {
      AttemptsStay(trace, from, n - 1);
    }
  }

  lemma {:induction false} SameAttempts(a: seq<Action>, b: seq<Action>)
    requires IsPrefix(a, b) && NoAttempt(b, |a|)
    ensures AttemptsIn(b, |b|) == AttemptsIn(a, |a|)
  {
    AttemptsStay(b, |a|, |b|);
    assert b == a + b[|a|..];
    AttemptsPrefix(a, b[|a|..], |a|);
  }

  lemma FullIsReviewOnly(s: Settings, d: Db)
    ensures forall i | 0 <= i < |FullReview(s, d)| :: ReviewOnly(FullReview(s, d)[i])
  {
    if d.entries != [] && d.decisions.Some? {
      StepsAreReviewOnly(s, d, |d.decisions.value|);
    }
  }

  class CuratorCycle {
    const journal: Journal
    const settings: Settings
    const scanMode: bool
    /** Whether an LLM client and a workspace are configured. */
    const equipped: bool
    const force: bool

    var error: Option<string>
    var unexpected: bool
    var outcomes: seq<Outcome>
    var fullTraversal: bool

    constructor (journal: Journal, settings: Settings, scanMode: bool, equipped: bool, force: bool)
      ensures this.journal == journal && this.settings == settings
      ensures this.scanMode == scanMode && this.equipped == equipped && this.force == force
      ensures error == None && !unexpected && outcomes == [] && !fullTraversal
    {
      this.journal, this.settings, this.scanMode, this.equipped, this.force := journal, settings, scanMode, equipped, force;
      error, unexpected, outcomes, fullTraversal := None, false, [], false;
    }

    /** A look and, when the lock is held, the UPDATE of decision `i`. */
    method Update(d: Db, i: nat, status: Status) returns (r: Signal)
      requires journal.Valid() && d.decisions.Some? && i < |d.decisions.value|
      modifies journal
      ensures journal.Valid()
      ensures var write := ReviewWrote(d.name, d.decisions.value[i].id, status);
              journal.trace == old(journal.trace) + match r
                               case Completed => [Checked(true), write]
                               case SawLoss => [Checked(false)]
                               case Broke => [Checked(true)]
    {
      var ok := journal.Look();
      if !ok {
        return SawLoss;
      }
      if d.updateFails(i) {
        return Broke;
      }
      journal.Note(ReviewWrote(d.name, d.decisions.value[i].id, status));
      return Completed;
    }

    /** The decision loop: a look directly before every UPDATE. */
    method Decide(d: Db, ghost start: seq<Action>) returns (r: ReviewResult)
      requires journal.Valid() && d.entries != [] && d.decisions.Some?
      requires journal.trace == start + [Checked(true), Checked(true)]
      modifies journal
      ensures journal.Valid()
      ensures match r
              case Reported(o) =>
                journal.trace == start + FullReview(settings, d) && o == OutcomeOf(settings, d)
              case _ => Stopped(settings, d, start, journal.trace, r.LockLost?)
    {
      var promoted, archived, failed := 0, 0, 0;
      ghost var looks := [Checked(true), Checked(true)];
      for i := 0 to |d.decisions.value|
        invariant journal.Valid()
        invariant journal.trace == start + (looks + Steps(settings, d, i))
        invariant promoted == CountOf(settings, d, Graduated, i) && archived == CountOf(settings, d, Archived, i)
        invariant failed == CountFailed(settings, d, i)
      {
        var effect := Effect(settings, d, i);
        if effect.Some? {
          var signal := Update(d, i, effect.value);
          if signal != Completed {
            CutAt(settings, d, start, i, journal.trace, signal == Broke);
            return if signal == SawLoss then LockLost else Failed;
          }
          if effect.value == Graduated {
            promoted := promoted + 1;
          } else {
            archived := archived + 1;
          }
        } else if d.decisions.value[i].id in d.entries && d.decisions.value[i].verdict == Promote
                  && settings.mayPromote && settings.graduationEnabled {
          failed := failed + 1;
        }
      }
      r := Reported(Outcome(|d.entries|, promoted, archived, failed));
    }

    /** `run_llm_review`: a look on entry, before the model is asked, and before each UPDATE. */
    method RunReview(d: Db) returns (r: ReviewResult)
      requires journal.Valid()
      modifies journal
      ensures journal.Valid()
      ensures match r
              case Reported(o) =>
                journal.trace == old(journal.trace) + FullReview(settings, d) && o == OutcomeOf(settings, d)
              case _ => Stopped(settings, d, old(journal.trace), journal.trace, r.LockLost?)
      ensures r.Reported? ==> ReviewedRows(settings, d, old(journal.rows), journal.rows) && Reports(settings, d, r.outcome)
    {
      ghost var start := journal.trace;
      var ok := journal.Look();
      if !ok {
        CutEarly(settings, d, start, journal.trace, [], true);
        return LockLost;
      }
      if !d.opens {
        CutEarly(settings, d, start, journal.trace, [Checked(true)], false);
        return Failed;
      }
      FullReviewIsTold(journal.start, start, settings, d);
      OutcomeReports(settings, d);
      if d.entries == [] {
        return Reported(Outcome(0, 0, 0, 0));
      }
      ok := journal.Look();
      if !ok {
        CutEarly(settings, d, start, journal.trace, [Checked(true)], true);
        return LockLost;
      }
      if d.decisions.None? {
        return Reported(Outcome(|d.entries|, 0, 0, 1));
      }
      r := Decide(d, start);
    }

    /** A review inside the cycle: one that fails for another reason than the lock is skipped over. */
    method Attempt(d: Db) returns (lost: bool)
      requires journal.Valid()
      modifies this`outcomes, journal
      ensures journal.Valid() && IsPrefix(old(journal.trace), journal.trace)
      ensures ReviewedSince(journal.trace, |old(journal.trace)|, lost)
      ensures AttemptsIn(journal.trace, |journal.trace|) == AttemptsIn(old(journal.trace), |old(journal.trace)|)
      ensures outcomes == old(outcomes) || outcomes == old(outcomes) + [OutcomeOf(settings, d)]
    {
      ghost var start := journal.trace;
      var r := RunReview(d);
      match r {
        case Reported(o) =>
          outcomes := outcomes + [o];
          FullIsReviewed(settings, d, start);
        case LockLost =>
          StoppedIsReviewed(settings, d, start, journal.trace, true);
        case Failed =>
          StoppedIsReviewed(settings, d, start, journal.trace, false);
      }
      lost := r.LockLost?;
      SameAttempts(start, journal.trace);
    }

    /** One database: a look, then its review. */
    method ReviewOne(d: Db) returns (lost: bool)
      requires journal.Valid()
      modifies this`outcomes, journal
      ensures journal.Valid() && IsPrefix(old(journal.trace), journal.trace)
      ensures ReviewedSince(journal.trace, |old(journal.trace)|, lost)
      ensures !lost ==> (AttemptsIn(journal.trace, |journal.trace|) == AttemptsIn(old(journal.trace), |old(journal.trace)|) + [d.name])
      ensures outcomes == old(outcomes) || outcomes == old(outcomes) + [OutcomeOf(settings, d)]
    {
      var ok := journal.Look();
      if !ok {
        return true;
      }
      journal.Note(Attempted(d.name));
      ghost var start := journal.trace;
      LookThenAttempt(old(journal.trace), d.name);
      assert start == old(journal.trace) + [Checked(true), Attempted(d.name)];
      lost := Attempt(d);
      ReviewedFurther(start, journal.trace, |old(journal.trace)|, lost);
    }

    /** All databases in turn. */
    method ReviewAll(dbs: seq<Db>) returns (lost: bool)
      requires journal.Valid()
      modifies this`outcomes, journal
      ensures journal.Valid() && IsPrefix(old(journal.trace), journal.trace)
      ensures ReviewedSince(journal.trace, |old(journal.trace)|, lost)
      ensures !lost ==> (AttemptsIn(journal.trace, |journal.trace|) == AttemptsIn(old(journal.trace), |old(journal.trace)|) + Names(dbs, |dbs|))
    {
      ghost var from := |journal.trace|;
      for i := 0 to |dbs|
        invariant journal.Valid() && IsPrefix(old(journal.trace), journal.trace)
        invariant ReviewedSince(journal.trace, from, false)
        invariant AttemptsIn(journal.trace, |journal.trace|) == AttemptsIn(old(journal.trace), from) + Names(dbs, i)
      {
        ghost var before := journal.trace;
        lost := ReviewOne(dbs[i]);
        ReviewedFurther(before, journal.trace, from, lost);
        if lost {
          return;
        }
      }
      lost := false;
    }

    /** One step of the scan of one database; a failed look is only noted among the scan's errors. */
    method ScanStep(d: ScanDb, p: Progress) returns (next: Progress, ghost a: Action)
      requires journal.Valid() && Sensible(d, p) && !Scanned(d, p)
      modifies journal
      ensures journal.Valid() && journal.trace == old(journal.trace) + [a] && (a.Checked? || a.ScanWrote?)
      ensures journal.looks == old(journal.looks) + if p.Unstarted? then 1 else 0
      ensures Sensible(d, next) && !next.Unstarted? && Left(d, next) == Left(d, p) + [a] && Remaining(d, next) < Remaining(d, p)
    {
      if p.Unstarted? {
        var ok := journal.Look();
        next, a := if ok then Writing(0) else GaveUp, Checked(ok);
        return;
      }
      next, a := Writing(p.done + 1), Work(d)[p.done];
      assert Work(d)[..p.done + 1] == Work(d)[..p.done] + [a];
      journal.Note(Work(d)[p.done]);
    }

    /** The scan under way: `part` is what the databases have put behind `start`, each in its own order. */
    ghost predicate Scanning(dbs: seq<ScanDb>, progress: seq<Progress>, start: seq<Action>, part: seq<Action>, turns: seq<nat>, looks: nat)
      reads journal
    {
      && journal.Valid() && journal.trace == start + part
      && Interleaved(dbs, progress, part, turns)
      && journal.looks == looks + Started(progress, |progress|)
    }

    /** The turn of database `i`. */
    method ScanTurn(dbs: seq<ScanDb>, progress: seq<Progress>, i: nat, ghost start: seq<Action>, ghost part: seq<Action>, ghost turns: seq<nat>, ghost looks: nat)
      returns (next: seq<Progress>, ghost more: seq<Action>, ghost taken: seq<nat>)
      requires Scanning(dbs, progress, start, part, turns, looks) && i < |dbs|
      modifies journal
      ensures Scanning(dbs, next, start, more, taken, looks)
      ensures forall j | 0 <= j < |dbs| && j != i :: next[j] == progress[j]
      ensures if Scanned(dbs[i], progress[i]) then next == progress else Remaining(dbs[i], next[i]) < Remaining(dbs[i], progress[i])
    {
      if Scanned(dbs[i], progress[i]) {
        next, more, taken := progress, part, turns;
        return;
      }
      ghost var a;
      var p;
      p, a := ScanStep(dbs[i], progress[i]);
      next, more, taken := progress[i := p], part + [a], turns + [i];
      TurnTaken(dbs, progress, part, turns, i, p, a);
      StartedUpdate(progress, i, p, |progress|);
    }

    /** Finish database `i`. */
    method FinishScan(dbs: seq<ScanDb>, progress: seq<Progress>, i: nat, ghost start: seq<Action>, ghost part: seq<Action>, ghost turns: seq<nat>, ghost looks: nat)
      returns (next: seq<Progress>, ghost more: seq<Action>, ghost taken: seq<nat>)
      requires Scanning(dbs, progress, start, part, turns, looks) && i < |dbs|
      modifies journal
      ensures Scanning(dbs, next, start, more, taken, looks) && Scanned(dbs[i], next[i])
      ensures forall j | 0 <= j < |dbs| && j != i :: next[j] == progress[j]
    {
      next, more, taken := progress, part, turns;
      while !Scanned(dbs[i], next[i])
        invariant Scanning(dbs, next, start, more, taken, looks)
        invariant forall j | 0 <= j < |dbs| && j != i :: next[j] == progress[j]
        decreases Remaining(dbs[i], next[i])
      {
        next, more, taken := ScanTurn(dbs, next, i, start, more, taken, looks);
      }
    }

    /** Turns as the schedule gives them. */
    method ScanByTurns(dbs: seq<ScanDb>, schedule: seq<nat>) returns (ghost part: seq<Action>, ghost turns: seq<nat>, progress: seq<Progress>)
      requires journal.Valid() && forall k | 0 <= k < |schedule| :: schedule[k] < |dbs|
      modifies journal
      ensures Scanning(dbs, progress, old(journal.trace), part, turns, old(journal.looks))
    {
      part, turns, progress := [], [], seq(|dbs|, _ => Unstarted);
      NothingStarted(progress, |dbs|);
      NothingInterleaved(dbs, progress);
      assert journal.trace + [] == journal.trace;
      for k := 0 to |schedule|
        invariant Scanning(dbs, progress, old(journal.trace), part, turns, old(journal.looks))
      {
        progress, part, turns := ScanTurn(dbs, progress, schedule[k], old(journal.trace), part, turns, old(journal.looks));
      }
    }

    /** The databases by turns; what the schedule leaves unfinished is finished in order. */
    method ScanAll(dbs: seq<ScanDb>, schedule: seq<nat>) returns (ghost part: seq<Action>, ghost turns: seq<nat>, progress: seq<Progress>)
      requires journal.Valid() && forall k | 0 <= k < |schedule| :: schedule[k] < |dbs|
      modifies journal
      ensures Scanning(dbs, progress, old(journal.trace), part, turns, old(journal.looks)) && AllScanned(dbs, progress, |dbs|)
    {
      part, turns, progress := ScanByTurns(dbs, schedule);
      for i := 0 to |dbs|
        invariant Scanning(dbs, progress, old(journal.trace), part, turns, old(journal.looks))
        invariant AllScanned(dbs, progress, i)
      {
        progress, part, turns := FinishScan(dbs, progress, i, old(journal.trace), part, turns, old(journal.looks));
      }
    }

    /**
     The scan; only its two looks on entry can end the cycle. The databases are scanned at the
     same time, in any interleaving.
     */
    method RunScan(dbs: seq<ScanDb>, schedule: seq<nat>) returns (lost: bool, ghost part: seq<Action>, ghost turns: seq<nat>, ghost progress: seq<Progress>)
      requires journal.Valid() && forall k | 0 <= k < |schedule| :: schedule[k] < |dbs|
      modifies journal
      ensures journal.Valid() && IsPrefix(old(journal.trace), journal.trace) && ScannedSince(journal.trace, |old(journal.trace)|)
      ensures lost <==> !(journal.alive(old(journal.looks)) && journal.alive(old(journal.looks) + 1))
      ensures lost ==> journal.trace != [] && journal.trace[|journal.trace|-1] == Checked(false)
      ensures !lost ==>
                && journal.trace == old(journal.trace) + [Checked(true), Checked(true)] + part
                && Interleaved(dbs, progress, part, turns) && AllScanned(dbs, progress, |dbs|)
                && journal.looks == old(journal.looks) + 2 + |dbs|
    {
      part, turns, progress := [], [], [];
      var ok := journal.Look();
      if !ok {
        return true, [], [], [];
      }
      ok := journal.Look();
      if !ok {
        return true, [], [], [];
      }
      lost := false;
      assert journal.trace == old(journal.trace) + [Checked(true), Checked(true)];
      var now;
      part, turns, now := ScanAll(dbs, schedule);
      AllStarted(dbs, now, |dbs|);
      InterleavedIsScan(dbs, now, old(journal.trace), part, turns);
      progress := now;
    }

    /** Whether the review is to run, for the given answer of the interval check. */
    predicate Permitted(due: bool) {
      settings.reviewEnabled && equipped && (force || due)
    }

    /** `_run_review_if_permitted`. */
    method RunReviewIfPermitted(dbs: seq<Db>, due: bool) returns (lost: bool)
      requires journal.Valid() && !fullTraversal && error == None
      modifies this`error, this`outcomes, this`fullTraversal, journal
      ensures journal.Valid() && IsPrefix(old(journal.trace), journal.trace)
      ensures ReviewedSince(journal.trace, |old(journal.trace)|, lost)
      ensures fullTraversal <==> settings.reviewEnabled && equipped && (force || due) && dbs != [] && !lost
      ensures !Permitted(due) || dbs == [] ==> !lost && journal.trace == old(journal.trace) && journal.looks == old(journal.looks)
      ensures fullTraversal ==>
                && |old(journal.trace)| < |journal.trace| && journal.trace[|old(journal.trace)|] == Checked(true)
                && AttemptsIn(journal.trace, |journal.trace|) == AttemptsIn(old(journal.trace), |old(journal.trace)|) + Names(dbs, |dbs|)
      ensures error == if !settings.reviewEnabled || (equipped && !force && !due) then Some(SKIPPED) else None
    {
      if !settings.reviewEnabled {
        error := Some(SKIPPED);
        return false;
      }
      if !equipped {
        return false;
      }
      if !force && !due {
        error := Some(SKIPPED);
        return false;
      }
      if dbs == [] {
        return false;
      }
      var ok := journal.Look();
      if !ok {
        return true;
      }
      ghost var start := journal.trace;
      SameAttempts(old(journal.trace), start);
      lost := ReviewAll(dbs);
      ReviewedFurther(start, journal.trace, |old(journal.trace)|, lost);
      if !lost {
        fullTraversal := true;
      }
    }

    /** `_mark_completion`. */
    method MarkCompletion()
      requires journal.Valid()
      modifies journal
      ensures journal.Valid() && journal.looks == old(journal.looks)
      ensures journal.trace == old(journal.trace)
                               + (if error != Some(LOCK_LOST) && scanMode then [ScanStamped] else [])
                               + (if error != Some(LOCK_LOST) && fullTraversal then [ReviewStamped] else [])
    {
      if error == Some(LOCK_LOST) {
        return;
      }
      if scanMode {
        journal.Note(ScanStamped);
      }
      if fullTraversal {
        journal.Note(ReviewStamped);
      }
    }

    /** The interval check is asked and fails. */
    predicate IntervalFails(due: Option<bool>) {
      due.None? && settings.reviewEnabled && equipped && !force
    }

    /** The review, if there is one, and the timestamps, unless the lock is lost. */
    method ReviewAndMark(dbs: seq<Db>, due: bool) returns (lost: bool)
      requires journal.Valid() && ScannedSince(journal.trace, 0)
      requires error == None && !fullTraversal && outcomes == []
      modifies this`error, this`outcomes, this`fullTraversal, journal
      ensures journal.Valid() && error != Some(LOCK_LOST)
      ensures lost ==> Unstamped(journal.trace) && journal.trace != [] && journal.trace[|journal.trace|-1] == Checked(false)
      ensures lost ==> Permitted(due) && dbs != []
      ensures !lost ==> (ScanStamped in journal.trace <==> scanMode) && (ReviewStamped in journal.trace <==> fullTraversal)
      ensures !lost ==> (fullTraversal <==> Permitted(due) && dbs != [])
      ensures !lost && fullTraversal ==> AttemptsIn(journal.trace, |journal.trace|) == Names(dbs, |dbs|)
      ensures !lost && fullTraversal && StaysLost(journal.alive) ==> Checked(false) !in journal.trace
      ensures !lost && !fullTraversal ==> journal.looks == old(journal.looks)
    {
      ghost var scanned := journal.trace;
      lost := RunReviewIfPermitted(dbs, due);
      WorkIsUnstamped(scanned, journal.trace, lost);
      if lost {
        return;
      }
      ghost var reviewed := journal.trace;
      MarkCompletion();
      StampsAre(reviewed, journal.trace, scanMode, fullTraversal);
      if fullTraversal {
        ScanAttemptsNothing(scanned, |scanned|);
        StampsAttemptNothing(reviewed, scanMode);
        if StaysLost(journal.alive) {
          NothingWasLost(scanned, reviewed, journal.trace, journal.alive, scanMode);
        }
      }
    }

    /**
     A loss that only the scan of some database meets, in a cycle whose review then looks at
     nothing: it is swallowed.
     */
    predicate Swallows(scans: seq<ScanDb>, dbs: seq<Db>, due: Option<bool>) {
      && scanMode && journal.alive(0) && journal.alive(1)
      && |scans| > 0 && !journal.alive(|scans| + 1)
      && !IntervalFails(due) && !(Permitted(due == Some(true)) && dbs != [])
    }

    /**
     `_run_critical_section`, under the lock. `due` is the answer of the interval check, `None`
     when it fails with an error other than a lost lock.
     */
    method RunCriticalSection(scans: seq<ScanDb>, schedule: seq<nat>, dbs: seq<Db>, due: Option<bool>)
      requires forall k | 0 <= k < |schedule| :: schedule[k] < |scans|
      requires journal.Valid() && journal.trace == [] && journal.looks == 0
      requires error == None && !unexpected && !fullTraversal && outcomes == []
      modifies this, journal
      ensures journal.Valid()
      ensures error == Some(LOCK_LOST) ==> Unstamped(journal.trace) && !unexpected && journal.trace != [] && journal.trace[|journal.trace|-1] == Checked(false)
      ensures unexpected ==> Unstamped(journal.trace) && due == None && settings.reviewEnabled && equipped && !force
      ensures ScanStamped in journal.trace <==> scanMode && error != Some(LOCK_LOST) && !unexpected
      ensures ReviewStamped in journal.trace
         <==> settings.reviewEnabled && equipped && (force || due == Some(true)) && dbs != [] && error != Some(LOCK_LOST) && !unexpected
      ensures ReviewStamped in journal.trace ==> AttemptsIn(journal.trace, |journal.trace|) == Names(dbs, |dbs|)
      ensures ReviewStamped in journal.trace && StaysLost(journal.alive) ==> Checked(false) !in journal.trace
      ensures StaysLost(journal.alive) ==>
                (ScanStamped in journal.trace && Checked(false) in journal.trace <==> Swallows(scans, dbs, due))
    {
      var lost := false;
      if scanMode {
        ghost var part, turns, progress;
        lost, part, turns, progress := RunScan(scans, schedule);
      }
      if lost {
        error := Some(LOCK_LOST);
        return;
      }
      if IntervalFails(due) {
        unexpected := true;
        return;
      }
      lost := ReviewAndMark(dbs, due == Some(true));
      if lost {
        error := Some(LOCK_LOST);
        return;
      }
      if !fullTraversal {
        assert journal.looks == if scanMode then 2 + |scans| else 0;
        FailedLookShows(journal.trace, journal.alive);
        if scanMode && StaysLost(journal.alive) {
          LastLookTells(journal.alive, 2 + |scans|);
        }
      }
    }
  }

  /** One database to scan, the lock lost after the two looks on entry, the review switched off. */
  method ScanStampAfterLoss(d: ScanDb) returns (trace: seq<Action>)
    ensures Checked(false) in trace && ScanStamped in trace
  {
    var journal := new Journal((i: nat) => i < 2, map[]);
    var settings := Settings(false, true, true, true);
    var cycle := new CuratorCycle(journal, settings, true, true, false);
    cycle.RunCriticalSection([d], [], [], Some(true));
    trace := journal.trace;
  }

  lemma WorkIsUnstamped(scanned: seq<Action>, reviewed: seq<Action>, lost: bool)
    requires ScannedSince(scanned, 0) && IsPrefix(scanned, reviewed) && ReviewedSince(reviewed, |scanned|, lost)
    ensures Unstamped(reviewed)
  {
    assert forall i | 0 <= i < |scanned| :: scanned[i] == reviewed[..|scanned|][i];
  }

  function Stamps(scanMode: bool, full: bool): seq<Action> {
    (if scanMode then [ScanStamped] else []) + if full then [ReviewStamped] else []
  }

  lemma StampsAre(reviewed: seq<Action>, trace: seq<Action>, scanMode: bool, full: bool)
    requires Unstamped(reviewed)
    requires trace == reviewed + (if scanMode then [ScanStamped] else []) + (if full then [ReviewStamped] else [])
    ensures trace == reviewed + Stamps(scanMode, full)
    ensures (ScanStamped in trace <==> scanMode) && (ReviewStamped in trace <==> full)
  {
    assert trace == reviewed + Stamps(scanMode, full);
    assert ScanStamped !in reviewed && ReviewStamped !in reviewed;
  }

  lemma {:induction false} ScanAttemptsNothing(scanned: seq<Action>, n: nat)
    requires ScannedSince(scanned, 0) && n <= |scanned|
    ensures AttemptsIn(scanned, n) == []
  {
    if n > 0 {
      ScanAttemptsNothing(scanned, n - 1);
    }
  }

  lemma StampsAttemptNothing(reviewed: seq<Action>, scanMode: bool)
    ensures var trace := reviewed + Stamps(scanMode, true);
            AttemptsIn(trace, |trace|) == AttemptsIn(reviewed, |reviewed|)
  {
    var trace := reviewed + Stamps(scanMode, true);
    assert IsPrefix(reviewed, trace) && NoAttempt(trace, |reviewed|);
    SameAttempts(reviewed, trace);
  }

  /** A passed look after the scan vouches for every look before it. */
  lemma NothingWasLost(scanned: seq<Action>, reviewed: seq<Action>, trace: seq<Action>, alive: Lock, scanMode: bool)
    requires StaysLost(alive) && Honest(trace, alive)
    requires ScannedSince(scanned, 0) && IsPrefix(scanned, reviewed) && ReviewedSince(reviewed, |scanned|, false)
    requires |scanned| < |reviewed| && reviewed[|scanned|] == Checked(true)
    requires trace == reviewed + Stamps(scanMode, true)
    ensures Checked(false) !in trace
  {
    assert forall i | 0 <= i < |reviewed| :: trace[i] == reviewed[i];
    if Checked(false) in trace {
      var i: nat :| i < |trace| && trace[i] == Checked(false);
      assert trace[|scanned|] == Checked(true);
      if i < |scanned| {
        LaterLooksFail(trace, alive, i, |scanned|);
      }
    }
  }

  const LOCK_LOST := "lock_lost"
  const SKIPPED := "review_skipped_interval"

  predicate Stamp(a: Action) {
    a == ScanStamped || a == ReviewStamped
  }

  predicate Unstamped(trace: seq<Action>) {
    forall i | 0 <= i < |trace| :: !Stamp(trace[i])
  }

  /** Since `from` the scan only looked and wrote. */
  predicate ScannedSince(trace: seq<Action>, from: nat)
    requires from <= |trace|
  {
    forall i | from <= i < |trace| :: trace[i].Checked? || trace[i].ScanWrote?
  }

  /** The review of `d` that began at `start` was cut off. */
  ghost predicate Stopped(s: Settings, d: Db, start: seq<Action>, trace: seq<Action>, lost: bool) {
    IsPrefix(start, trace) && CutOff(s, d, trace[|start|..], lost)
  }

  lemma CutAt(s: Settings, d: Db, start: seq<Action>, i: nat, trace: seq<Action>, held: bool)
    requires d.entries != [] && d.decisions.Some? && i < |d.decisions.value| && Effect(s, d, i).Some?
    requires trace == start + ([Checked(true), Checked(true)] + Steps(s, d, i)) + [Checked(held)]
    ensures Stopped(s, d, start, trace, !held)
  {
    StoppedAt(s, d, i);
    var done := [Checked(true), Checked(true)] + Steps(s, d, i);
    assert trace[|start|..] == done + [Checked(held)];
    assert (done + [Checked(held)])[..|done|] == done;
    assert done + [Checked(true)] == [Checked(true), Checked(true)] + (Steps(s, d, i) + [Checked(true)]);
  }

  lemma StartsReview(s: Settings, d: Db, done: seq<Action>)
    requires done == [] || done == [Checked(true)]
    ensures IsPrefix(done, FullReview(s, d))
  {
    assert FullReview(s, d)[0] == Checked(true);
  }

  lemma CutEarly(s: Settings, d: Db, start: seq<Action>, trace: seq<Action>, done: seq<Action>, lost: bool)
    requires done == [] || done == [Checked(true)]
    requires done == [] || !lost || d.entries != []
    requires trace == start + done + if lost then [Checked(false)] else []
    ensures Stopped(s, d, start, trace, lost)
  {
    StartsReview(s, d, done);
    if lost {
      assert trace[|start|..] == done + [Checked(false)];
      assert (done + [Checked(false)])[..|done|] == done;
    } else {
      assert trace[|start|..] == done;
    }
  }
}
