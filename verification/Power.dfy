/**
 Voting power and the +2/3 rule.

 A validator set is a sequence of powers indexed by validator: a validator that
 is not in the set has power 0. `PowerOf` adds up the powers of a group of
 validators, and `Quorum` is the threshold `total*2/3+1` that VoteSet uses.
 */
module Power {

  type Powers = seq<nat>

  /** Power of the members of `s` among the first `n` validators. */
  function PowerUpTo(p: Powers, s: set<nat>, n: nat): nat
    requires n <= |p|
  {
    if n == 0 then 0
    else PowerUpTo(p, s, n - 1) + if n - 1 in s then p[n - 1] else 0
  }

  function PowerOf(p: Powers, s: set<nat>): nat {
    PowerUpTo(p, s, |p|)
  }

  function TotalUpTo(p: Powers, n: nat): nat
    requires n <= |p|
  {
    if n == 0 then 0 else TotalUpTo(p, n - 1) + p[n - 1]
  }

  function Total(p: Powers): nat {
    TotalUpTo(p, |p|)
  }

  /** The least power that is more than two thirds of the total. */
  function Quorum(p: Powers): nat {
    Total(p) * 2 / 3 + 1
  }

  /** The assumption every safety result rests on. */
  ghost predicate BelowOneThird(p: Powers, s: set<nat>) {
    3 * PowerOf(p, s) < Total(p)
  }

  lemma {:induction false} PowerMonoUpTo(p: Powers, a: set<nat>, b: set<nat>, n: nat)
    requires n <= |p| && forall i: nat | i < n && i in a :: i in b
    ensures PowerUpTo(p, a, n) <= PowerUpTo(p, b, n) <= TotalUpTo(p, n)
  {
    if n > 0 {
      PowerMonoUpTo(p, a, b, n - 1);
    }
  }

  lemma {:induction false} PowerUpToGrows(p: Powers, s: set<nat>, n: nat, m: nat)
    requires n <= m <= |p|
    ensures PowerUpTo(p, s, n) <= PowerUpTo(p, s, m)
    decreases m
  {
    if n < m {
      PowerUpToGrows(p, s, n, m - 1);
    }
  }

  lemma PowerMono(p: Powers, a: set<nat>, b: set<nat>)
    requires forall i: nat | i < |p| && i in a :: i in b
    ensures PowerOf(p, a) <= PowerOf(p, b) <= Total(p)
  {
    PowerMonoUpTo(p, a, b, |p|);
  }

  lemma {:induction false} PowerSplitUpTo(p: Powers, a: set<nat>, b: set<nat>, n: nat)
    requires n <= |p|
    ensures PowerUpTo(p, a, n) + PowerUpTo(p, b, n) == PowerUpTo(p, a + b, n) + PowerUpTo(p, a * b, n)
  {
    if n > 0 {
      PowerSplitUpTo(p, a, b, n - 1);
    }
  }

  /** Inclusion and exclusion for two groups of validators. */
  lemma PowerSplit(p: Powers, a: set<nat>, b: set<nat>)
    ensures PowerOf(p, a) + PowerOf(p, b) == PowerOf(p, a + b) + PowerOf(p, a * b)
  {
    PowerSplitUpTo(p, a, b, |p|);
  }

  /** Adding one more validator adds exactly its power. */
  lemma {:induction false} PowerAddUpTo(p: Powers, s: set<nat>, i: nat, n: nat)
    requires i !in s && n <= |p| && i < |p|
    ensures PowerUpTo(p, s + {i}, n) == PowerUpTo(p, s, n) + if i < n then p[i] else 0
  {
    if n > 0 {
      PowerAddUpTo(p, s, i, n - 1);
    }
  }

  lemma PowerAdd(p: Powers, s: set<nat>, i: nat)
    requires i !in s && i < |p|
    ensures PowerOf(p, s + {i}) == PowerOf(p, s) + p[i]
  {
    PowerAddUpTo(p, s, i, |p|);
  }

  lemma {:induction false} PowerEmptyUpTo(p: Powers, n: nat)
    requires n <= |p|
    ensures PowerUpTo(p, {}, n) == 0
  {
    if n > 0 {
      PowerEmptyUpTo(p, n - 1);
    }
  }

  lemma PowerEmpty(p: Powers)
    ensures PowerOf(p, {}) == 0
  {
    PowerEmptyUpTo(p, |p|);
  }

  /**
   Two quorums cannot be kept apart by faulty validators: what is left of a
   quorum without the faulty ones already blocks any other quorum.
   */
  lemma HonestPartBlocks(p: Powers, quorum: set<nat>, faulty: set<nat>)
    requires PowerOf(p, quorum) >= Quorum(p) && BelowOneThird(p, faulty)
    ensures PowerOf(p, quorum - faulty) + Quorum(p) > Total(p)
  {
    var honest := quorum - faulty;
    PowerSplit(p, honest, faulty);
    PowerMono(p, quorum, honest + faulty);
  }

  /** Any two quorums share a validator that is not faulty. */
  lemma QuorumsShareHonest(p: Powers, a: set<nat>, b: set<nat>, faulty: set<nat>) returns (i: nat)
    requires PowerOf(p, a) >= Quorum(p) && PowerOf(p, b) >= Quorum(p) && BelowOneThird(p, faulty)
    ensures i in a && i in b && i !in faulty
  {
    HonestPartBlocks(p, a, faulty);
    var honest := a - faulty;
    PowerSplit(p, honest, b);
    PowerMono(p, honest + b, honest + b);
    PowerEmpty(p);
    assert honest * b != {};
    i :| i in honest * b;
  }
}
