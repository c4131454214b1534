/** Quorum arithmetic of `kcoin_protocol::quorum_size` and the set-overlap facts consensus rests on. */
module Quorums {
  /** `quorum_size`: written without the multiplication that could overflow. */
  function QuorumSize(n: nat): (q: nat)
    ensures n > 0 ==> q == 2 * n / 3 + 1
    ensures q <= n
  {
    if n == 0 then 0 else n - (n - 1) / 3
  }

  /** The largest number of Byzantine validators that a set of `n` tolerates. */
  function MaxFaults(n: nat): nat
  {
    if n == 0 then 0 else (n - 1) / 3
  }

  lemma SubsetSize<T>(a: set<T>, b: set<T>)
    requires a <= b
    ensures |a| <= |b|
  {
    assert b == a + (b - a);
  }

  lemma UnionSize<T>(a: set<T>, b: set<T>)
    ensures |a + b| + |a * b| == |a| + |b|
  {
    assert a + b == a + (b - a);
    assert b == (b - a) + (a * b);
  }

  /** Any two quorums share a validator that is not Byzantine. */
  lemma HonestOverlap<T>(validators: set<T>, byzantine: set<T>, a: set<T>, b: set<T>) returns (v: T)
    requires a <= validators && b <= validators
    requires |byzantine| <= MaxFaults(|validators|)
    requires |validators| > 0
    requires |a| >= QuorumSize(|validators|) && |b| >= QuorumSize(|validators|)
    ensures v in a && v in b && v !in byzantine
  {
    UnionSize(a, b);
    SubsetSize(a + b, validators);
    assert |a * b| > |byzantine|;
    if a * b <= byzantine {
      SubsetSize(a * b, byzantine);
    }
    v :| v in a * b && v !in byzantine;
  }
}
