/** What began at some step of a run and has not ended since. */
module Histories {
  /** It began at `j`, and nothing before `n` has ended it. */
  ghost predicate Since(begins: nat -> bool, ends: nat -> bool, n: nat, j: nat)
  {
    j < n && begins(j) && forall m :: j < m < n ==> !ends(m)
  }

  ghost predicate Lasts(begins: nat -> bool, ends: nat -> bool, n: nat)
  {
    exists j: nat :: Since(begins, ends, n, j)
  }

  /** One step more: it begins now, or it lasted and does not end now. */
  lemma LastsNext(begins: nat -> bool, ends: nat -> bool, was: nat -> bool, ended: nat -> bool, n: nat)
    requires forall k: nat :: k < n ==> (begins(k) <==> was(k)) && (ends(k) <==> ended(k))
    ensures Lasts(begins, ends, n + 1) <==> begins(n) || (Lasts(was, ended, n) && !ends(n))
  {
    var next := n + 1;
    if begins(n) {
      assert Since(begins, ends, next, n);
    } else if j: nat :| Since(begins, ends, next, j) {
      assert Since(was, ended, n, j);
    } else if j: nat :| Since(was, ended, n, j) {
      assert !ends(n) ==> Since(begins, ends, next, j);
    }
  }
}
