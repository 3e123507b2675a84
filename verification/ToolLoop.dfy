/**
 The unknown-tool detector: a streak machine over the turns in which the model called tools.
 The registry may differ from turn to turn.
 */
module ToolLoop {
  import opened Prelude
  import opened ToolRegistry

  /** One turn with tool calls: the called names ("" where a call has none). */
  datatype Turn = Turn(names: seq<string>, registry: Registry)
  datatype Streak = Streak(current: Option<string>, count: int, warned: bool)
  datatype Action = Proceed | Warn | Terminate

  const IDLE := Streak(None, 0, false)

  function FirstUnknown(t: Turn, from: nat): (u: Option<string>)
    ensures u.Some? ==> CountsAsUnknown(t.registry, u.value)
    ensures u.None? ==> forall i | from <= i < |t.names| :: !CountsAsUnknown(t.registry, t.names[i])
    decreases |t.names| - from
  {
    if from >= |t.names| then None
    else if CountsAsUnknown(t.registry, t.names[from]) then Some(t.names[from])
    else FirstUnknown(t, from + 1)
  }

  function Unknown(t: Turn): Option<string> {
    FirstUnknown(t, 0)
  }

  /** `_update_tool_loop_state`. */
  function Update(st: Streak, t: Turn, threshold: int): (Streak, Action) {
    var unknown := Unknown(t);
    if threshold <= 0 || |t.names| == 0 || unknown.None? then (IDLE, Proceed)
    else
      var renamed := st.current.Some? && unknown != st.current;
      var count, warned := (if renamed then 0 else st.count) + 1, !renamed && st.warned;
      if warned then (Streak(unknown, count, true), Terminate)
      else if count >= threshold then (Streak(unknown, count, true), Warn)
      else (Streak(unknown, count, false), Proceed)
  }

  function After(turns: seq<Turn>, n: nat, threshold: int): Streak
    requires n <= |turns|
  {
    if n == 0 then IDLE else Update(After(turns, n - 1, threshold), turns[n-1], threshold).0
  }

  function ActionAt(turns: seq<Turn>, n: nat, threshold: int): Action
    requires n < |turns|
  {
    Update(After(turns, n, threshold), turns[n], threshold).1
  }

  /**
   `p` turns up to and including turn `n - 1` form a maximal streak of one unknown name.
   */
  ghost predicate IsStreak(turns: seq<Turn>, n: nat, p: nat)
    requires n <= |turns|
  {
    && p <= n
    && (forall i | n - p <= i < n :: Unknown(turns[i]).Some? && Unknown(turns[i]) == Unknown(turns[n-1]))
    && (p < n ==> Unknown(turns[n-1]).None? || Unknown(turns[n-p-1]) != Unknown(turns[n-1]))
  }

  function StreakLength(turns: seq<Turn>, n: nat): nat
    requires n <= |turns|
  {
    if n == 0 || Unknown(turns[n-1]).None? then 0
    else if n >= 2 && Unknown(turns[n-2]) == Unknown(turns[n-1]) then 1 + StreakLength(turns, n - 1)
    else 1
  }

  lemma {:induction false} StreakLengthIsMaximal(turns: seq<Turn>, n: nat, p: nat)
    requires n <= |turns|
    ensures IsStreak(turns, n, p) <==> p == StreakLength(turns, n)
  {
    if n >= 2 && Unknown(turns[n-1]).Some? && Unknown(turns[n-2]) == Unknown(turns[n-1]) {
      if p > 0 {
        StreakLengthIsMaximal(turns, n - 1, p - 1);
      }
    }
  }

  /** The machine's memory is the current streak, and `warned` says the streak reached the threshold. */
  lemma {:induction false} MemoryIsTheStreak(turns: seq<Turn>, n: nat, threshold: int)
    requires n <= |turns| && threshold > 0
    requires forall i | 0 <= i < n :: |turns[i].names| > 0
    ensures var st := After(turns, n, threshold);
            && st.count == StreakLength(turns, n)
            && (st.warned <==> st.count >= threshold)
            && st.current == if n == 0 then None else Unknown(turns[n-1])
  {
    if n > 0 {
      MemoryIsTheStreak(turns, n - 1, threshold);
    }
  }

  /** Position in the streak alone decides: go on before the threshold, warn at it, stop after it. */
  lemma ActionByPosition(turns: seq<Turn>, n: nat, p: nat, threshold: int)
    requires n < |turns| && threshold > 0
    requires forall i | 0 <= i <= n :: |turns[i].names| > 0
    requires IsStreak(turns, n + 1, p)
    ensures ActionAt(turns, n, threshold) ==
            if p < threshold then Proceed else if p == threshold then Warn else Terminate
  {
    StreakLengthIsMaximal(turns, n + 1, p);
    MemoryIsTheStreak(turns, n, threshold);
    MemoryIsTheStreak(turns, n + 1, threshold);
  }

  lemma {:induction false} NoThresholdNoAction(turns: seq<Turn>, n: nat, threshold: int)
    requires n < |turns| && threshold <= 0
    ensures ActionAt(turns, n, threshold) == Proceed && After(turns, n, threshold) == IDLE
  {
    if n > 0 {
      NoThresholdNoAction(turns, n - 1, threshold);
    }
  }

  /** A run is stopped only by the turn right after a warning about the same name. */
  lemma StopFollowsWarning(turns: seq<Turn>, n: nat, threshold: int)
    requires n < |turns| && threshold > 0
    requires forall i | 0 <= i <= n :: |turns[i].names| > 0
    requires forall i | 0 <= i < n :: ActionAt(turns, i, threshold) != Terminate
    requires ActionAt(turns, n, threshold) == Terminate
    ensures n > 0 && ActionAt(turns, n - 1, threshold) == Warn
    ensures Unknown(turns[n-1]).Some? && Unknown(turns[n-1]) == Unknown(turns[n])
  {
    var p := StreakLength(turns, n + 1);
    StreakLengthIsMaximal(turns, n + 1, p);
    ActionByPosition(turns, n, p, threshold);
    StreakLengthIsMaximal(turns, n, p - 1);
    assert IsStreak(turns, n, p - 1);
    ActionByPosition(turns, n - 1, p - 1, threshold);
  }

  /**
   A registered imported tool trips the detector although each of its calls resolves: after
   `threshold` turns of calling it the model is told that it does not exist, and the next such
   turn ends the run.
   */
  lemma ImportedToolTripsDetector(turns: seq<Turn>, n: nat, tool: Tool, threshold: int)
    requires n < |turns| && threshold > 0 && tool.imported
    requires forall i | 0 <= i <= n ::
               && turns[i].names == [LlmName(tool)]
               && Registered(turns[i].registry)
               && tool.name in turns[i].registry && turns[i].registry[tool.name] == tool
    ensures n + 1 == threshold ==> ActionAt(turns, n, threshold) == Warn
    ensures n + 1 > threshold ==> ActionAt(turns, n, threshold) == Terminate
  {
    forall i | 0 <= i <= n
      ensures Unknown(turns[i]) == Some(LlmName(tool))
    {
      ImportedToolsCountAsUnknown(turns[i].registry, tool.name);
      assert CountsAsUnknown(turns[i].registry, turns[i].names[0]);
    }
    assert IsStreak(turns, n + 1, n + 1);
    ActionByPosition(turns, n, n + 1, threshold);
  }

  /** The unknown name of a turn is that of its first call the registry does not list. */
  lemma {:induction false} UnknownIsFirst(t: Turn, i: nat)
    requires i < |t.names| && t.names[i] != "" && t.names[i] !in t.registry
    requires forall j | 0 <= j < i :: t.names[j] == "" || t.names[j] in t.registry
    ensures Unknown(t) == Some(t.names[i])
  {
    FirstFrom(t, 0, i);
  }

  lemma {:induction false} FirstFrom(t: Turn, from: nat, i: nat)
    requires from <= i < |t.names| && CountsAsUnknown(t.registry, t.names[i])
    requires forall j | from <= j < i :: !CountsAsUnknown(t.registry, t.names[j])
    ensures FirstUnknown(t, from) == Some(t.names[i])
    decreases i - from
  {
    if from < i {
      FirstFrom(t, from + 1, i);
    }
  }
}
