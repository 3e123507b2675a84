/**
 The curator's journal: every look at the lock and every write, in order, with the rows as their
 replay. The lock is an oracle asked once per look; once lost it stays lost.
 */
module CuratorModel {

  datatype Status = Active | Archived | Graduated

  type Rows = map<string, map<string, Status>>

  datatype Action =
    | Checked(ok: bool)
    | ScanWrote(db: string, id: string, status: Status)
    | ReviewWrote(db: string, id: string, status: Status)
    | Attempted(db: string)
    | ScanStamped
    | ReviewStamped

  type Lock = nat -> bool

  ghost predicate StaysLost(alive: Lock) {
    forall i: nat, j: nat | i < j :: alive(j) ==> alive(i)
  }

  function ChecksIn(trace: seq<Action>, n: nat): nat
    requires n <= |trace|
  {
    if n == 0 then 0 else ChecksIn(trace, n - 1) + if trace[n-1].Checked? then 1 else 0
  }

  /** Every look reports the lock as it is at that moment. */
  ghost predicate Honest(trace: seq<Action>, alive: Lock) {
    forall i | 0 <= i < |trace| && trace[i].Checked? :: trace[i].ok == alive(ChecksIn(trace, i))
  }

  /** Every write of the review comes directly after a look that found the lock held. */
  predicate Guarded(trace: seq<Action>) {
    forall i | 0 <= i < |trace| && trace[i].ReviewWrote? :: i > 0 && trace[i-1] == Checked(true)
  }

  /** `UPDATE ... WHERE id = ?`. */
  function Set(rows: Rows, db: string, id: string, status: Status): Rows {
    if db in rows && id in rows[db] then rows[db := rows[db][id := status]] else rows
  }

  function Applied(rows: Rows, a: Action): Rows {
    match a
    case ScanWrote(db, id, status) => Set(rows, db, id, status)
    case ReviewWrote(db, id, status) => Set(rows, db, id, status)
    case _ => rows
  }

  function Replayed(rows: Rows, trace: seq<Action>, n: nat): Rows
    requires n <= |trace|
  {
    if n == 0 then rows
    else Applied(Replayed(rows, trace, n - 1), trace[n-1])
  }

  lemma {:induction false} ChecksGrow(trace: seq<Action>, i: nat, j: nat)
    requires i <= j <= |trace|
    ensures ChecksIn(trace, i) <= ChecksIn(trace, j)
    ensures i < j && trace[i].Checked? ==> ChecksIn(trace, i) < ChecksIn(trace, j)
  {
    if i < j {
      ChecksGrow(trace, i, j - 1);
    }
  }

  lemma LostStays(alive: Lock, i: nat, k: nat)
    requires StaysLost(alive) && i < k && !alive(i)
    ensures !alive(k)
  {
  }

  lemma LaterLooksFail(trace: seq<Action>, alive: Lock, i: nat, k: nat)
    requires StaysLost(alive) && Honest(trace, alive)
    requires i < k < |trace| && trace[i] == Checked(false) && trace[k].Checked?
    ensures trace[k] == Checked(false)
  {
    ChecksGrow(trace, i, k);
    LostStays(alive, ChecksIn(trace, i), ChecksIn(trace, k));
  }

  /** After the lock was once seen lost, by whomever, the review writes nothing any more. */
  lemma NoWriteAfterLoss(trace: seq<Action>, alive: Lock, i: nat, j: nat)
    requires StaysLost(alive) && Honest(trace, alive) && Guarded(trace)
    requires i < j < |trace| && trace[i] == Checked(false)
    ensures !trace[j].ReviewWrote? && trace[j] != Checked(true)
  {
    if trace[j].Checked? {
      LaterLooksFail(trace, alive, i, j);
    } else if i < j - 1 && trace[j-1].Checked? {
      LaterLooksFail(trace, alive, i, j - 1);
    }
  }

  lemma {:induction false} ChecksPrefix(trace: seq<Action>, more: seq<Action>, n: nat)
    requires n <= |trace|
    ensures ChecksIn(trace + more, n) == ChecksIn(trace, n)
  {
    if n > 0 {
      ChecksPrefix(trace, more, n - 1);
    }
  }

  lemma {:induction false} ReplayedPrefix(rows: Rows, trace: seq<Action>, more: seq<Action>, n: nat)
    requires n <= |trace|
    ensures Replayed(rows, trace + more, n) == Replayed(rows, trace, n)
  {
    if n > 0 {
      ReplayedPrefix(rows, trace, more, n - 1);
    }
  }

  /** The databases the review started on, in order. */
  function AttemptsIn(trace: seq<Action>, n: nat): seq<string>
    requires n <= |trace|
  {
    if n == 0 then []
    else AttemptsIn(trace, n - 1) + if trace[n-1].Attempted? then [trace[n-1].db] else []
  }

  lemma {:induction false} AttemptsPrefix(trace: seq<Action>, more: seq<Action>, n: nat)
    requires n <= |trace|
    ensures AttemptsIn(trace + more, n) == AttemptsIn(trace, n)
  {
    if n > 0 {
      AttemptsPrefix(trace, more, n - 1);
    }
  }

  class Journal {
    const alive: Lock
    ghost const start: Rows
    var rows: Rows
    var looks: nat
    var trace: seq<Action>

    ghost predicate Valid()
      reads this
    {
      && Honest(trace, alive) && Guarded(trace)
      && looks == ChecksIn(trace, |trace|)
      && rows == Replayed(start, trace, |trace|)
    }

    constructor (alive: Lock, rows: Rows)
      ensures Valid() && this.alive == alive && this.rows == rows && start == rows && trace == []
    {
      this.alive, start, this.rows, looks, trace := alive, rows, rows, 0, [];
    }

    /** `check_alive`; false stands for the LockLostError. */
    method Look() returns (ok: bool)
      requires Valid()
      modifies this
      ensures Valid() && trace == old(trace) + [Checked(ok)] && ok == alive(old(looks)) && rows == old(rows)
      ensures looks == old(looks) + 1
    {
      ok := alive(looks);
      ChecksAfter(trace, Checked(ok));
      ReplayedPrefix(start, trace, [Checked(ok)], |trace|);
      trace := trace + [Checked(ok)];
      looks := looks + 1;
    }

    /** A write to a row, or an entry that leaves the rows alone. */
    method Note(a: Action)
      requires Valid() && !a.Checked?
      requires a.ReviewWrote? ==> trace != [] && trace[|trace|-1] == Checked(true)
      modifies this
      ensures Valid() && trace == old(trace) + [a] && looks == old(looks) && rows == Applied(old(rows), a)
    {
      ChecksAfter(trace, a);
      ReplayedPrefix(start, trace, [a], |trace|);
      match a {
        case ScanWrote(db, id, status) => rows := Set(rows, db, id, status);
        case ReviewWrote(db, id, status) => rows := Set(rows, db, id, status);
        case _ =>
      }
      trace := trace + [a];
    }
  }

  lemma ChecksAfter(trace: seq<Action>, a: Action)
    ensures ChecksIn(trace + [a], |trace| + 1) == ChecksIn(trace, |trace|) + if a.Checked? then 1 else 0
    ensures forall i: nat | i <= |trace| :: ChecksIn(trace + [a], i) == ChecksIn(trace, i)
  {
    forall i: nat | i <= |trace|
      ensures ChecksIn(trace + [a], i) == ChecksIn(trace, i)
    {
      ChecksPrefix(trace, [a], i);
    }
  }

  lemma {:induction false} NthCheck(trace: seq<Action>, n: nat, i: nat) returns (p: nat)
    requires n <= |trace| && i < ChecksIn(trace, n)
    ensures p < n && trace[p].Checked? && ChecksIn(trace, p) == i
  {
    if i < ChecksIn(trace, n - 1) {
      p := NthCheck(trace, n - 1, i);
    } else {
      p := n - 1;
    }
  }

  /** An honest journal shows a failed look exactly when the lock was lost at one of its looks. */
  lemma FailedLookShows(trace: seq<Action>, alive: Lock)
    requires Honest(trace, alive)
    ensures Checked(false) in trace <==> exists i: nat | i < ChecksIn(trace, |trace|) :: !alive(i)
  {
    if Checked(false) in trace {
      var p: nat :| p < |trace| && trace[p] == Checked(false);
      ChecksGrow(trace, p, |trace|);
      assert !alive(ChecksIn(trace, p));
    }
    if i: nat :| i < ChecksIn(trace, |trace|) && !alive(i) {
      var p := NthCheck(trace, |trace|, i);
      assert trace[p] == Checked(false);
    }
  }

  /** When the lock stays lost, its last look tells. */
  lemma LastLookTells(alive: Lock, n: nat)
    requires StaysLost(alive) && n > 0
    ensures (exists i: nat | i < n :: !alive(i)) <==> !alive(n - 1)
  {
    if i: nat :| i < n && !alive(i) {
      if i < n - 1 {
        LostStays(alive, i, n - 1);
      }
    }
  }
}
