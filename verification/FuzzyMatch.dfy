/** The fuzzy matcher of the web client: one greedy pass over the target. */
module FuzzyMatch {
  import opened Prelude

  /** `/\s|[-_/.]/`. */
  predicate Boundary(c: char) {
    var n := c as int;
    || 0x09 <= n <= 0x0d || n == 0x20 || n == 0xa0 || n == 0x1680 || 0x2000 <= n <= 0x200a
    || n == 0x2028 || n == 0x2029 || n == 0x202f || n == 0x205f || n == 0x3000 || n == 0xfeff
    || c == '-' || c == '_' || c == '/' || c == '.'
  }

  /** `at` embeds the first `|at|` characters of `q` into the first `n` characters of `t`. */
  predicate Embeds(q: string, t: string, at: seq<nat>, n: nat) {
    && |at| <= |q| && n <= |t|
    && (forall k | 0 <= k < |at| :: at[k] < n && t[at[k]] == q[k])
    && (forall k | 0 < k < |at| :: at[k-1] < at[k])
  }

  ghost predicate Subsequence(q: string, t: string) {
    exists at: seq<nat> :: |at| == |q| && Embeds(q, t, at, |t|)
  }

  /** `at` goes at least as far as `other`, and is pointwise no later. */
  predicate NoLater(at: seq<nat>, other: seq<nat>) {
    |other| <= |at| && forall k | 0 <= k < |other| :: at[k] <= other[k]
  }

  ghost predicate Earliest(q: string, t: string, at: seq<nat>, n: nat) {
    forall other: seq<nat> | Embeds(q, t, other, n) :: NoLater(at, other)
  }

  /** The best embedding into the first `n` characters. */
  ghost predicate Best(q: string, t: string, at: seq<nat>, n: nat) {
    Embeds(q, t, at, n) && Earliest(q, t, at, n)
  }

  // ---- Score ----

  /** How many matches directly before the `k`-th stand side by side with it. */
  function Streak(at: seq<nat>, k: nat): nat
    requires k < |at|
  {
    if k > 0 && at[k] == at[k-1] + 1 then Streak(at, k - 1) + 1 else 0
  }

  function Points(t: string, at: seq<nat>, k: nat): nat
    requires k < |at| && at[k] < |t|
  {
    1 + (if at[k] == 0 then 3 else if Boundary(t[at[k]-1]) then 2 else 0) + 2 * Streak(at, k)
  }

  function Score(t: string, at: seq<nat>, n: nat): nat
    requires n <= |at| && forall k | 0 <= k < |at| :: at[k] < |t|
  {
    if n == 0 then 0 else Score(t, at, n - 1) + Points(t, at, n - 1)
  }

  function Penalty(query: string, target: string): real {
    (if |target| > |query| then |target| - |query| else 0) as real * 0.05
  }

  lemma {:induction false} StreakPrefix(at: seq<nat>, i: nat, k: nat)
    requires k < |at|
    ensures Streak(at + [i], k) == Streak(at, k)
  {
    if k > 0 {
      StreakPrefix(at, i, k - 1);
    }
  }

  lemma {:induction false} ScorePrefix(t: string, at: seq<nat>, i: nat, n: nat)
    requires n <= |at| && i < |t| && forall k | 0 <= k < |at| :: at[k] < |t|
    ensures Score(t, at + [i], n) == Score(t, at, n)
  {
    if n > 0 {
      ScorePrefix(t, at, i, n - 1);
      StreakPrefix(at, i, n - 1);
    }
  }

  // ---- Greedy is earliest ----

  /** Without its last element an embedding is an embedding. */
  lemma EmbedsFront(q: string, t: string, other: seq<nat>, n: nat)
    requires Embeds(q, t, other, n + 1) && other != [] && other[|other|-1] == n
    ensures Embeds(q, t, other[..|other|-1], n)
  {
    var front := other[..|other|-1];
    Ordered(q, t, other, n + 1);
    assert forall k | 0 <= k < |front| :: front[k] == other[k] && other[k] < other[|other|-1];
  }

  lemma Ordered(q: string, t: string, at: seq<nat>, n: nat)
    requires Embeds(q, t, at, n)
    ensures forall i, j | 0 <= i < j < |at| :: at[i] < at[j]
  {
    forall i, j | 0 <= i < j < |at|
      ensures at[i] < at[j]
    {
      OrderedTo(q, t, at, n, i, j);
    }
  }

  lemma {:induction false} OrderedTo(q: string, t: string, at: seq<nat>, n: nat, i: nat, j: nat)
    requires Embeds(q, t, at, n) && i < j < |at|
    ensures at[i] < at[j]
  {
    if i < j - 1 {
      OrderedTo(q, t, at, n, i, j - 1);
    }
  }

  lemma EmbedsEarlier(q: string, t: string, other: seq<nat>, n: nat)
    requires Embeds(q, t, other, n + 1) && (other == [] || other[|other|-1] != n)
    ensures Embeds(q, t, other, n)
  {
    Ordered(q, t, other, n + 1);
  }

  lemma EndsHere(q: string, t: string, at: seq<nat>, n: nat, other: seq<nat>)
    requires Earliest(q, t, at, n) && Embeds(q, t, other, n + 1) && other != [] && other[|other|-1] == n
    ensures NoLater(at, other[..|other|-1])
  {
    EmbedsFront(q, t, other, n);
  }

  lemma TakeOne(q: string, t: string, at: seq<nat>, n: nat, other: seq<nat>)
    requires Best(q, t, at, n) && Embeds(q, t, other, n + 1)
    ensures NoLater(at + [n], other)
  {
    if other != [] && other[|other|-1] == n {
      EndsHere(q, t, at, n, other);
      var front := other[..|other|-1];
      assert forall k | 0 <= k < |front| :: at[k] <= front[k] && front[k] == other[k];
      if |other| <= |at| {
        assert forall k | 0 <= k < |other| :: (at + [n])[k] == at[k];
        TakeLast(q, t, at, n, other);
      }
    } else {
      EmbedsEarlier(q, t, other, n);
      assert NoLater(at, other);
    }
  }

  lemma TakeLast(q: string, t: string, at: seq<nat>, n: nat, other: seq<nat>)
    requires other != [] && |other| <= |at| && other[|other|-1] == n
    requires forall k | 0 <= k < |at| :: at[k] < n
    ensures at[|other|-1] <= n
  {
  }

  /** Position `n` is taken: the next character matches there. */
  lemma TakeKeepsBest(q: string, t: string, at: seq<nat>, n: nat)
    requires n < |t| && |at| < |q| && Best(q, t, at, n) && t[n] == q[|at|]
    ensures Best(q, t, at + [n], n + 1)
  {
    forall other: seq<nat> | Embeds(q, t, other, n + 1)
      ensures NoLater(at + [n], other)
    {
      TakeOne(q, t, at, n, other);
    }
  }

  lemma SkipOne(q: string, t: string, at: seq<nat>, n: nat, other: seq<nat>)
    requires Best(q, t, at, n) && Embeds(q, t, other, n + 1) && n < |t| && (|at| < |q| ==> t[n] != q[|at|])
    ensures NoLater(at, other)
  {
    if other != [] && other[|other|-1] == n {
      EndsHere(q, t, at, n, other);
      var front := other[..|other|-1];
      assert forall k | 0 <= k < |front| :: at[k] <= front[k] && front[k] == other[k];
      assert |other| <= |at|;
      assert at[|other|-1] < n;
    } else {
      EmbedsEarlier(q, t, other, n);
    }
  }

  /** Position `n` is skipped: everything is matched already, or the next character does not match there. */
  lemma SkipKeepsBest(q: string, t: string, at: seq<nat>, n: nat)
    requires n < |t| && Best(q, t, at, n) && (|at| < |q| ==> t[n] != q[|at|])
    ensures Best(q, t, at, n + 1)
  {
    forall other: seq<nat> | Embeds(q, t, other, n + 1)
      ensures NoLater(at, other)
    {
      SkipOne(q, t, at, n, other);
    }
  }

  /** A complete match stays the best whatever follows. */
  lemma {:induction false} CompleteStaysBest(q: string, t: string, at: seq<nat>, n: nat, m: nat)
    requires |at| == |q| && n <= m <= |t| && Best(q, t, at, n)
    ensures Best(q, t, at, m)
  {
    if n < m {
      CompleteStaysBest(q, t, at, n, m - 1);
      SkipKeepsBest(q, t, at, m - 1);
    }
  }

  lemma {:induction false} NotBefore(q: string, t: string, at: seq<nat>, n: nat, k: nat)
    requires Embeds(q, t, at, n) && k < |at|
    ensures at[k] >= k
  {
    if k > 0 {
      NotBefore(q, t, at, n, k - 1);
    }
  }

  lemma FewerThan(q: string, t: string, at: seq<nat>, n: nat)
    requires Embeds(q, t, at, n)
    ensures |at| <= n
  {
    if at != [] {
      NotBefore(q, t, at, n, |at| - 1);
    }
  }

  lemma NothingIsBest(q: string, t: string)
    ensures Best(q, t, [], 0)
  {
    forall other: seq<nat> | Embeds(q, t, other, 0)
      ensures NoLater([], other)
    {
      FewerThan(q, t, other, 0);
    }
  }

  /** The best embedding is complete exactly when there is a complete one. */
  lemma BestDecides(q: string, t: string, at: seq<nat>)
    requires Best(q, t, at, |t|)
    ensures |at| == |q| <==> Subsequence(q, t)
  {
    if other: seq<nat> :| |other| == |q| && Embeds(q, t, other, |t|) {
      assert NoLater(at, other);
    }
  }

  /** The loop over the target: what is matched, and what it is worth. */
  method Greedy(q: string, t: string) returns (at: seq<nat>, score: int)
    ensures Best(q, t, at, |t|) && Scored(t, at, score)
  {
    var consecutive, last, ti := 0, -1, 0;
    at, score := [], 0;
    NothingIsBest(q, t);
    while ti < |t| && |at| < |q|
      invariant ti <= |t| && Best(q, t, at, ti)
      invariant Scored(t, at, score) && Recent(at, consecutive, last)
    {
      if t[ti] == q[|at|] {
        TakeKeepsBest(q, t, at, ti);
        var points := 1;
        if ti == 0 {
          points := points + 3;
        } else if Boundary(t[ti-1]) {
          points := points + 2;
        }
        ghost var before := consecutive;
        if last >= 0 && ti == last + 1 {
          consecutive := consecutive + 1;
          points := points + consecutive * 2;
        } else {
          consecutive := 0;
        }
        ScoreOneMore(t, at, ti, score, before, last);
        at := at + [ti];
        score := score + points;
        last := ti;
      } else {
        SkipKeepsBest(q, t, at, ti);
      }
      ti := ti + 1;
    }
    if |at| == |q| {
      CompleteStaysBest(q, t, at, ti, |t|);
    }
  }

  /**
   `fuzzyScore`; `lower` is the lower-casing of the platform. There is a match exactly when the
   lower-cased query is a subsequence of the lower-cased target, and then the indices are the
   earliest possible ones.
   */
  method FuzzyScore(query: string, target: string, lower: string -> string) returns (r: Option<(real, seq<nat>)>)
    ensures query == "" ==> r == Some((0.0, []))
    ensures query != "" ==> (r.Some? <==> Subsequence(lower(query), lower(target)))
    ensures query != "" && r.Some? ==>
              var q, t, at := lower(query), lower(target), r.value.1;
              && |at| == |q| && Best(q, t, at, |t|)
              && r.value.0 == Score(t, at, |at|) as real - Penalty(query, target)
  {
    if query == "" {
      return Some((0.0, []));
    }
    var q, t := lower(query), lower(target);
    var at, score := Greedy(q, t);
    BestDecides(q, t, at);
    if |at| < |q| {
      return None;
    }
    return Some((score as real - Penalty(query, target), at));
  }

  predicate Scored(t: string, at: seq<nat>, score: int) {
    (forall k | 0 <= k < |at| :: at[k] < |t|) && score == Score(t, at, |at|)
  }

  /** The running values of the loop: the last match, and the streak it stands in. */
  predicate Recent(at: seq<nat>, consecutive: int, last: int) {
    && last == (if at == [] then -1 else at[|at|-1])
    && consecutive == (if at == [] then 0 else Streak(at, |at| - 1))
  }

  lemma ScoreOneMore(t: string, at: seq<nat>, i: nat, score: int, consecutive: int, last: int)
    requires i < |t| && Scored(t, at, score) && Recent(at, consecutive, last)
    ensures var streak := if last >= 0 && i == last + 1 then consecutive + 1 else 0;
            var points := 1 + (if i == 0 then 3 else if Boundary(t[i-1]) then 2 else 0) + 2 * streak;
            Scored(t, at + [i], score + points) && Recent(at + [i], streak, i)
  {
    ScorePrefix(t, at, i, |at|);
    if at != [] {
      StreakPrefix(at, i, |at| - 1);
    }
  }

  // ---- What a match is worth ----

  /** Matches `k - s` to `k` stand side by side, and the one before them does not touch them. */
  predicate Block(at: seq<nat>, k: nat, s: nat) {
    && s <= k < |at|
    && (forall j | k - s < j <= k :: at[j] == at[j-1] + 1)
    && (s < k ==> at[k-s] != at[k-s-1] + 1)
  }

  lemma {:induction false} StreakIsBlock(at: seq<nat>, k: nat, s: nat)
    requires Block(at, k, s)
    ensures Streak(at, k) == s
  {
    if s > 0 {
      StreakIsBlock(at, k - 1, s - 1);
    }
  }

  /**
   The `k`-th match earns one point, three more at the very start of the target or two more behind a
   separator, and two for each match side by side before it.
   */
  lemma MatchIsWorth(t: string, at: seq<nat>, k: nat, s: nat)
    requires Block(at, k, s) && at[k] < |t|
    ensures at[k] == 0 ==> Points(t, at, k) == 4
    ensures at[k] > 0 && t[at[k]-1] in {' ', '\t', '\n', '-', '_', '/', '.'} ==> Points(t, at, k) == 3 + 2 * s
    ensures at[k] > 0 && ('a' <= t[at[k]-1] <= 'z' || '0' <= t[at[k]-1] <= '9') ==> Points(t, at, k) == 1 + 2 * s
  {
    StreakIsBlock(at, k, s);
  }

  /** A query that begins the target, letters and digits only, scores one point and the bonuses that grow by two. */
  lemma {:induction false} PrefixScore(t: string, at: seq<nat>, n: nat)
    requires n <= |at| <= |t| && forall k | 0 <= k < |at| :: at[k] == k && 'a' <= t[k] <= 'z'
    ensures Score(t, at, n) == if n == 0 then 0 else n * n + 3
  {
    if n > 0 {
      PrefixScore(t, at, n - 1);
      assert Block(at, n - 1, n - 1);
      MatchIsWorth(t, at, n - 1, n - 1);
      Squares(n - 1);
    }
  }

  lemma Squares(n: nat)
    ensures (n + 1) * (n + 1) == n * n + 1 + 2 * n
  {
  }
}
