/** The proposer rotation, of which the source has three copies. */
module Rotation {
  import opened Wrappers
  import opened ConsensusTypes
  import opened LedgerSpec

  const WORD: nat := U64_MAX + 1

  // ---------------------------------------------------------------- arithmetic

  lemma MulAtLeast(n: nat, k: int)
    requires k >= 1
    ensures n * k >= n
  {
  }

  lemma QuotientUnique(q: int, r: int, p: int, t: int, n: nat)
    requires 0 <= r < n && 0 <= t < n && n * q + r == n * p + t
    ensures q == p && r == t
  {
    assert n * (q - p) == t - r;
    if q > p {
      MulAtLeast(n, q - p);
    } else if q < p {
      MulAtLeast(n, p - q);
    }
  }

  lemma Remainder(x: nat, n: nat)
    requires n > 0
    ensures x == n * (x / n) + x % n && x % n < n
  {
  }

  lemma ModAdd(a: nat, b: nat, n: nat)
    requires n > 0
    ensures (a % n + b % n) % n == (a + b) % n
  {
    var c := a % n + b % n;
    Remainder(a, n);
    Remainder(b, n);
    Remainder(c, n);
    Remainder(a + b, n);
    assert a + b == n * (a / n) + n * (b / n) + n * (c / n) + c % n;
    assert n * (a / n) + n * (b / n) + n * (c / n) == n * (a / n + b / n + c / n);
    QuotientUnique(a / n + b / n + c / n, c % n, (a + b) / n, (a + b) % n, n);
  }

  // ---------------------------------------------------------------- the copies compared

  /** Reducing height and round first, as `commit.rs` and `runtime.rs` do, is reducing their sum. */
  lemma HeaderSlot(validators: seq<ValidatorId>, height: nat, round: nat)
    requires |validators| > 0
    ensures ExpectedProposer(validators, height, round) == validators[(SaturatingSub(height, 1) + round) % |validators|]
  {
    ModAdd(SaturatingSub(height, 1), round, |validators|);
  }

  /** Adding `m` changes no remainder modulo a divisor of `m`, and every remainder otherwise. */
  lemma ShiftedRemainder(x: nat, m: nat, n: nat)
    requires n > 0
    ensures (x + m) % n == x % n <==> m % n == 0
  {
    ModAdd(x, m, n);
    var a, b := x % n, m % n;
    if a + b < n {
      Remainder(a + b, n);
      QuotientUnique(0, a + b, (a + b) / n, (a + b) % n, n);
    } else {
      Remainder(a + b, n);
      QuotientUnique(1, a + b - n, (a + b) / n, (a + b) % n, n);
    }
  }

  /**
   * The engine adds before it reduces, in 64 bits that wrap. For the widths of the source it names
   * the validator that block verification expects exactly when the sum fits, or when the size of
   * the set divides the word size so that wrapping is harmless.
   */
  lemma RotationsAgreeIff(validators: ValidatorSet, height: nat, round: nat)
    requires validators.Valid() && height <= U64_MAX && round <= U32_MAX
    ensures validators.Proposer(height, round) == ExpectedProposer(validators.validators, height, round)
      <==> SaturatingSub(height, 1) + round <= U64_MAX || WORD % |validators.validators| == 0
  {
    var ids := validators.validators;
    var n, x := |ids|, SaturatingSub(height, 1) + round;
    HeaderSlot(ids, height, round);
    if x <= U64_MAX {
      Remainder(x, WORD);
      QuotientUnique(0, x, x / WORD, x % WORD, WORD);
    } else {
      var wrapped := x - WORD;
      Remainder(x, WORD);
      QuotientUnique(1, wrapped, x / WORD, x % WORD, WORD);
      ShiftedRemainder(wrapped, WORD, n);
      if wrapped % n != x % n {
        assert ids[wrapped % n] != ids[x % n];
      }
    }
  }

  /** Any `n` consecutive rounds give each validator exactly one turn, at every height. */
  lemma EveryValidatorOnce(validators: ValidatorSet, height: nat, first: nat, slot: nat) returns (round: nat)
    requires validators.Valid() && slot < |validators.validators|
    ensures var ids := validators.validators;
      && first <= round < first + |ids|
      && forall other :: first <= other < first + |ids| ==>
           (ExpectedProposer(ids, height, other) == ids[slot] <==> other == round)
  {
    var ids := validators.validators;
    var n, offset := |ids|, SaturatingSub(height, 1);
    var ahead := ReachSlot(offset + first, slot, n);
    round := first + ahead;
    forall other | first <= other < first + n
      ensures ExpectedProposer(ids, height, other) == ids[slot] <==> other == round
    {
      HeaderSlot(ids, height, other);
      if (offset + other) % n == slot {
        SameResidue(offset + other, offset + round, n);
      } else if (offset + other) % n < slot {
        assert ids[(offset + other) % n] != ids[slot];
      } else {
        assert ids[slot] != ids[(offset + other) % n];
      }
    }
  }

  lemma ReachSlot(base: nat, slot: nat, n: nat) returns (ahead: nat)
    requires n > 0 && slot < n
    ensures ahead < n && (base + ahead) % n == slot
  {
    var b := base % n;
    Remainder(base, n);
    ahead := if slot >= b then slot - b else slot + n - b;
    Remainder(base + ahead, n);
    if slot >= b {
      QuotientUnique(base / n, slot, (base + ahead) / n, (base + ahead) % n, n);
    } else {
      assert n * (base / n + 1) == n * (base / n) + n;
      QuotientUnique(base / n + 1, slot, (base + ahead) / n, (base + ahead) % n, n);
    }
  }

  lemma SameResidue(a: nat, b: nat, n: nat)
    requires n > 0 && a % n == b % n && a < b + n && b < a + n
    ensures a == b
  {
    Remainder(a, n);
    Remainder(b, n);
    assert a - b == n * (a / n) - n * (b / n) == n * (a / n - b / n);
    if a / n > b / n {
      MulAtLeast(n, a / n - b / n);
    } else if a / n < b / n {
      MulAtLeast(n, b / n - a / n);
    }
  }
}
