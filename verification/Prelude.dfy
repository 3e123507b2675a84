/** Small shared vocabulary: optional values and plain facts about sequences. */
module Prelude {

  datatype Option<+T> = None | Some(value: T)

  /** Worker identifiers, user identifiers and keys are all plain text. */
  type Worker = string

  ghost predicate NoDuplicates<T(!new)>(s: seq<T>) {
    forall i, j :: 0 <= i < j < |s| ==> s[i] != s[j]
  }

  predicate Increasing(at: seq<nat>) {
    forall i, j | 0 <= i < j < |at| :: at[i] < at[j]
  }

  /** `s.startswith(p)`. */
  predicate StartsWith(s: string, p: string) {
    |p| <= |s| && s[..|p|] == p
  }

  /** Induction, for a property that is costly to look into. */
  lemma {:induction false} Climb(p: nat -> bool, n: nat)
    requires p(0) && forall k: nat | k < n && p(k) :: p(k + 1)
    ensures p(n)
  {
    if n > 0 {
      Climb(p, n - 1);
      assert p(n - 1 + 1);
    }
  }

  lemma HasMember(s: set<int>)
    requires s != {}
    ensures exists x :: x in s
  {
    if forall x :: x !in s {
      assert false;
    }
  }

  method Least(s: set<int>) returns (m: int)
    requires s != {}
    ensures m in s && forall x | x in s :: m <= x
  {
    HasMember(s);
    m :| m in s;
    var rest := s - {m};
    while rest != {}
      invariant m in s && rest <= s
      invariant forall x | x in s :: x in rest || m <= x
      decreases rest
    {
      HasMember(rest);
      var x :| x in rest;
      if x < m {
        m := x;
      }
      rest := rest - {x};
    }
  }
}
