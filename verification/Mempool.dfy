/** The mempool invariant and what it gives block producers. */
module Mempool {
  import opened Wrappers
  import opened ConsensusTypes
  import opened Merkle
  import opened LedgerSpec
  import opened LedgerInvariant
  import opened Blocks
  import opened NodeSpec

  /** The mempool applies in order on top of the ledger, under exactly its own ids, all of them new. */
  ghost predicate MempoolSound(c: Crypto, a: Actor)
  {
    && ApplyAll(c, a.ledger, a.mempool, ExecutionHeight(a.ledger)).Ok?
    && a.mempoolIds == IdsOf(c, a.mempool)
    && |a.mempoolIds| == |a.mempool|
    && a.mempoolIds !! a.ledger.appliedTransactions
  }

  lemma {:induction false} SurvivorsApply(c: Crypto, l: Ledger, txs: seq<SignedTransaction>, height: nat)
    ensures var (kept, candidate) := Survivors(c, l, txs, height);
      ApplyAll(c, l, kept, height).Ok? && ApplyAll(c, l, kept, height).value.0 == candidate
    decreases |txs|
  {
    hide Apply;
    if txs != [] {
      var init := txs[..|txs| - 1];
      SurvivorsApply(c, l, init, height);
      var kept := Survivors(c, l, init, height).0;
      assert (kept + [txs[|txs| - 1]])[..|kept|] == kept;
    }
  }

  /** Revalidation drops nothing that still applies. */
  lemma {:induction false} SurvivorsAll(c: Crypto, l: Ledger, txs: seq<SignedTransaction>, height: nat)
    requires ApplyAll(c, l, txs, height).Ok?
    ensures Survivors(c, l, txs, height) == (txs, ApplyAll(c, l, txs, height).value.0)
    decreases |txs|
  {
    hide Apply;
    if txs != [] {
      SurvivorsAll(c, l, txs[..|txs| - 1], height);
      assert txs == txs[..|txs| - 1] + [txs[|txs| - 1]];
    }
  }

  /** And it drops only what fails where it stands: each transaction is kept exactly when it applies there. */
  lemma {:induction false} SurvivorsMaximal(c: Crypto, l: Ledger, txs: seq<SignedTransaction>, height: nat, i: nat)
    requires i < |txs|
    ensures var (kept, candidate) := Survivors(c, l, txs[..i], height);
      && kept <= Survivors(c, l, txs, height).0
      && (Apply(c, candidate, txs[i], height).Ok? ==> kept + [txs[i]] <= Survivors(c, l, txs, height).0)
    decreases |txs|
  {
    hide Apply;
    var n := |txs| - 1;
    var init := txs[..n];
    if i < n {
      SurvivorsMaximal(c, l, init, height, i);
      assert init[..i] == txs[..i];
    }
  }

  lemma IdsDistinct(c: Crypto, txs: seq<SignedTransaction>)
    requires Distinct(TransactionIds(c, txs))
    ensures |IdsOf(c, txs)| == |txs|
    ensures forall id :: id in IdsOf(c, txs) <==> id in TransactionIds(c, txs)
  {
    var ids := TransactionIds(c, txs);
    DistinctCount(ids);
    IdsMatch(c, txs);
    assert IdsOf(c, txs) == ToSet(ids);
  }

  /** A list that applies to a sound ledger is a sound mempool for it. */
  lemma AppliesSound(c: Crypto, a: Actor)
    requires Sound(a.ledger) && ApplyAll(c, a.ledger, a.mempool, ExecutionHeight(a.ledger)).Ok?
    requires a.mempoolIds == IdsOf(c, a.mempool)
    ensures MempoolSound(c, a)
  {
    hide ApplyAll, Sound;
    ApplyAllKeepsSound(c, a.ledger, a.mempool, ExecutionHeight(a.ledger));
    IdsDistinct(c, a.mempool);
  }

  lemma RevalidateSound(c: Crypto, a: Actor)
    requires Sound(a.ledger)
    ensures MempoolSound(c, Revalidate(c, a))
  {
    hide Sound, ApplyAll, Survivors, MempoolSound;
    SurvivorsApply(c, a.ledger, a.mempool, ExecutionHeight(a.ledger));
    AppliesSound(c, Revalidate(c, a));
  }

  /** Submission keeps the invariant, and is refused only for a reason that makes the transaction unusable. */
  lemma AcceptSound(c: Crypto, a: Actor, tx: SignedTransaction)
    requires Sound(a.ledger) && MempoolSound(c, a) && Admit(c, a, tx).Ok?
    ensures MempoolSound(c, Admit(c, a, tx).value)
  {
    hide Sound, Validate, Apply;
    var height := a.ledger.height + 1;
    ApplyAllKeepsSound(c, a.ledger, a.mempool, height);
    var candidate := ApplyAll(c, a.ledger, a.mempool, height).value.0;
    ValidateIffApply(c, candidate, tx, height);
    var b := Admit(c, a, tx).value;
    assert b.mempool[..|a.mempool|] == a.mempool;
    assert IdsOf(c, b.mempool) == IdsOf(c, a.mempool) + {c.transactionId(tx)};
    AppliesSound(c, b);
  }

  /** With a sound mempool a transaction is accepted exactly when it can go last in the next block. */
  lemma AcceptIffFits(c: Crypto, a: Actor, tx: SignedTransaction)
    requires Sound(a.ledger) && MempoolSound(c, a) && a.ledger.height < U64_MAX
    ensures Admit(c, a, tx).Ok?
      <==> !a.halted && a.syncTarget.None? && ApplyAll(c, a.ledger, a.mempool + [tx], a.ledger.height + 1).Ok?
  {
    hide Sound, Validate, Apply;
    var height := a.ledger.height + 1;
    ApplyAllKeepsSound(c, a.ledger, a.mempool, height);
    var candidate := ApplyAll(c, a.ledger, a.mempool, height).value.0;
    ValidateIffApply(c, candidate, tx, height);
    IdsMatch(c, a.mempool);
    assert (a.mempool + [tx])[..|a.mempool|] == a.mempool;
    if Validate(c, candidate, tx, height).Ok? {
      ValidatedFresh(c, candidate, tx, height);
    }
  }

  lemma IdsMatch(c: Crypto, txs: seq<SignedTransaction>)
    ensures forall id :: id in IdsOf(c, txs) <==> id in TransactionIds(c, txs)
  {
    var ids := TransactionIds(c, txs);
    forall id ensures id in IdsOf(c, txs) <==> id in ids {
      if id in IdsOf(c, txs) {
        var tx :| tx in txs && c.transactionId(tx) == id;
        var i :| 0 <= i < |txs| && txs[i] == tx;
        assert ids[i] == id;
      }
      if id in ids {
        var i :| 0 <= i < |ids| && ids[i] == id;
        assert txs[i] in txs && c.transactionId(txs[i]) == id;
      }
    }
  }

  lemma ValidatedFresh(c: Crypto, l: Ledger, tx: SignedTransaction, height: nat)
    requires Validate(c, l, tx, height).Ok?
    ensures c.transactionId(tx) !in l.appliedTransactions
  {
    ValidatedParts(c, l, tx, height);
  }

  // ---------------------------------------------------------------- producers

  lemma {:induction false} PrefixApplies(c: Crypto, l: Ledger, txs: seq<SignedTransaction>, n: nat, height: nat)
    requires n <= |txs| && ApplyAll(c, l, txs, height).Ok?
    ensures ApplyAll(c, l, txs[..n], height).Ok?
    decreases |txs|
  {
    hide Apply;
    if n < |txs| {
      var init := txs[..|txs| - 1];
      PrefixApplies(c, l, init, n, height);
      assert init[..n] == txs[..n];
    } else {
      assert txs[..n] == txs;
    }
  }

  lemma FirstApply(c: Crypto, a: Actor)
    requires MempoolSound(c, a) && a.ledger.height < U64_MAX
    ensures ApplyAll(c, a.ledger, FirstOf(a.mempool), a.ledger.height + 1).Ok?
  {
    hide ApplyAll;
    if |a.mempool| > MAX_TRANSACTIONS_PER_PROPOSAL {
      PrefixApplies(c, a.ledger, a.mempool, MAX_TRANSACTIONS_PER_PROPOSAL, a.ledger.height + 1);
    }
  }

  /**
   * With a sound mempool both producers succeed, neither drops a transaction of the first thousand,
   * and the block is accepted by every replica on the same ledger, whatever the clock says.
   */
  lemma ProducersSucceed(env: Env, a: Actor, proposer: ValidatorId, round: nat, wallClockMs: nat)
    requires Sound(a.ledger) && MempoolSound(env.c, a) && a.ledger.height < U64_MAX
    ensures Survivors(env.c, a.ledger, FirstOf(a.mempool), a.ledger.height + 1).0 == FirstOf(a.mempool)
    ensures var built := BuildBlock(env.c, a.ledger, env.localId, round, wallClockMs, FirstOf(a.mempool));
      forall stored :: BuildProposal(env, a, stored, None, round, wallClockMs) == built
    ensures var built := BuildBlock(env.c, a.ledger, proposer, round, wallClockMs, FirstOf(a.mempool));
      built.Ok? && built.value.transactions == FirstOf(a.mempool) && ApplyBlock(env.c, a.ledger, built.value).Ok?
  {
    hide ApplyAll, ApplyBlock, BuildBlock, Sound, MempoolSound, Survivors, BlockSize, FirstOf, ChainIdValid;
    FirstApply(env.c, a);
    FirstIsShort(a.mempool);
    SoundChainId(a.ledger);
    SurvivorsAll(env.c, a.ledger, FirstOf(a.mempool), a.ledger.height + 1);
    BuildSucceedsIff(env.c, a.ledger, proposer, round, wallClockMs, FirstOf(a.mempool));
    BuiltBlockApplies(env.c, a.ledger, proposer, round, wallClockMs, FirstOf(a.mempool));
    NodeProposalsFit(env.c, a.ledger, proposer, round, wallClockMs, FirstOf(a.mempool));
  }

  lemma FirstIsShort(txs: seq<SignedTransaction>)
    ensures |FirstOf(txs)| <= MAX_TRANSACTIONS_PER_PROPOSAL
  {
  }

  lemma SoundChainId(l: Ledger)
    requires Sound(l)
    ensures ChainIdValid(l.chainId)
  {
  }

  /** The index a standalone node computes is the validator whose turn `verify_for_block` expects. */
  lemma StandaloneProposer(validators: seq<ValidatorId>, l: Ledger)
    requires |validators| > 0
    ensures validators[l.height % |validators|] == ExpectedProposer(validators, l.height + 1, 0)
  {
    ModTwice(l.height, |validators|);
  }

  lemma ModTwice(x: nat, n: nat)
    requires n > 0
    ensures (x % n + 0 % n) % n == x % n
  {
  }
}
