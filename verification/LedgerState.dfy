/** The ledger with its mutable fields, proved against LedgerSpec.dfy (`crates/kcoin-protocol/src/ledger.rs`). */
module LedgerMachine {
  import opened Wrappers
  import opened ConsensusTypes
  import opened Merkle
  import opened LedgerSpec
  import opened Blocks
  import Certificates

  class LedgerState {
    var chainId: string
    var height: nat
    var tipHash: Hash
    var lastBlockTimestampMs: nat
    var totalSupplyAtoms: nat
    var activeChallengeId: nat
    var accounts: map<Address, AccountState>
    var appliedTransactions: set<Hash>

    /** The value of all fields. */
    function View(): Ledger
      reads this
    {
      Ledger(chainId, height, tipHash, lastBlockTimestampMs, totalSupplyAtoms, activeChallengeId, accounts, appliedTransactions)
    }

    constructor (chainId: string)
      ensures View() == Genesis(chainId)
    {
      this.chainId := chainId;
      height, tipHash, lastBlockTimestampMs, totalSupplyAtoms, activeChallengeId := 0, ZERO_HASH, 0, 0, 0;
      accounts, appliedTransactions := map[], {};
    }

    constructor Clone(other: LedgerState)
      ensures View() == other.View()
    {
      chainId, height, tipHash := other.chainId, other.height, other.tipHash;
      lastBlockTimestampMs := other.lastBlockTimestampMs;
      totalSupplyAtoms, activeChallengeId := other.totalSupplyAtoms, other.activeChallengeId;
      accounts, appliedTransactions := other.accounts, other.appliedTransactions;
    }

    /** `*self = candidate`. */
    method Assign(candidate: LedgerState)
      modifies this
      ensures View() == old(candidate.View())
    {
      chainId, height, tipHash := candidate.chainId, candidate.height, candidate.tipHash;
      lastBlockTimestampMs := candidate.lastBlockTimestampMs;
      totalSupplyAtoms, activeChallengeId := candidate.totalSupplyAtoms, candidate.activeChallengeId;
      accounts, appliedTransactions := candidate.accounts, candidate.appliedTransactions;
    }

    /** `apply_transaction`: fields change only after every check has passed. */
    method ApplyTransaction(c: Crypto, tx: SignedTransaction, executionHeight: nat)
      returns (r: Result<TransactionReceipt, LedgerError>)
      modifies this
      ensures match Apply(c, old(View()), tx, executionHeight)
        case Err(error) => r == Err(error) && View() == old(View())
        case Ok((after, receipt)) => r == Ok(receipt) && View() == after
    {
      hide TransactionFault, RewardForSupply, Apply, Validate;
      ghost var was := View();
      ApplyIs(c, was, tx, executionHeight);
      var validated := Validate(c, View(), tx, executionHeight);
      if validated.Err? {
        return Err(validated.error);
      }
      NonceFits(c, was, tx, executionHeight);
      var sender := validated.value.sender;
      var account := AccountOrDefault(accounts, sender);
      var nextNonce := CheckedAdd(account.nextNonce, 1);
      if nextNonce.None? {
        assert false;
      }
      var outcome;
      match tx.unsigned.action {
        case Transfer(recipient, amount) =>
          if recipient != sender {
            var receiver := AccountOrDefault(accounts, recipient);
            var credited := CheckedAdd(receiver.balanceAtoms, amount);
            if credited.None? || account.balanceAtoms < amount {
              return Err(ArithmeticOverflow);
            }
            account := account.(balanceAtoms := account.balanceAtoms - amount);
            accounts := accounts[recipient := receiver.(balanceAtoms := credited.value)];
          }
          outcome := Transferred(recipient, amount);
        case ClaimReward(challengeId, _) =>
          var reward := RewardForSupply(totalSupplyAtoms);
          if reward.None? {
            return Err(SupplyExhausted);
          }
          var newBalance := CheckedAdd(account.balanceAtoms, reward.value);
          var newSupply := CheckedAdd(totalSupplyAtoms, reward.value);
          var nextChallenge := CheckedAdd(activeChallengeId, 1);
          if newBalance.None? || newSupply.None? || nextChallenge.None? {
            return Err(ArithmeticOverflow);
          }
          account := account.(balanceAtoms := newBalance.value);
          totalSupplyAtoms := newSupply.value;
          activeChallengeId := nextChallenge.value;
          outcome := RewardClaimed(challengeId, reward.value);
        case SetDisplayName(name) =>
          account := account.(displayName := name);
          outcome := DisplayNameUpdated(name);
      }
      accounts := accounts[sender := account.(nextNonce := nextNonce.value)];
      appliedTransactions := appliedTransactions + {validated.value.id};
      var moved := Perform(was, sender, tx.unsigned.action).value.0;
      assert moved.accounts[sender := account.(nextNonce := nextNonce.value)] == accounts;
      return Ok(TransactionReceipt(validated.value.id, sender, tx.unsigned.nonce, outcome));
    }

    /** The loop over a block's transactions, on a candidate ledger. */
    method ApplyTransactions(c: Crypto, txs: seq<SignedTransaction>, executionHeight: nat)
      returns (r: Result<seq<TransactionReceipt>, LedgerError>)
      modifies this
      ensures match ApplyAll(c, old(View()), txs, executionHeight)
        case Err(error) => r == Err(error)
        case Ok((after, receipts)) => r == Ok(receipts) && View() == after
    {
      hide Apply;
      var receipts := [];
      for i := 0 to |txs|
        invariant ApplyAll(c, old(View()), txs[..i], executionHeight) == Ok((View(), receipts))
      {
        assert txs[..i + 1][..i] == txs[..i];
        var receipt := ApplyTransaction(c, txs[i], executionHeight);
        if receipt.Err? {
          FailureStays(c, old(View()), txs, i + 1, executionHeight);
          return Err(receipt.error);
        }
        receipts := receipts + [receipt.value];
      }
      assert txs[..|txs|] == txs;
      return Ok(receipts);
    }

    function NormalizedProposalTimestamp(requestedMs: nat): (ms: nat)
      reads this
      ensures ms == NormalizedTimestamp(View(), requestedMs)
      ensures lastBlockTimestampMs <= MAX_BLOCK_TIMESTAMP_MS ==> TimestampAllowed(View(), ms)
    {
      if height == 0 then Min(requestedMs, MAX_BLOCK_TIMESTAMP_MS)
      else
        Min(Min(Max(requestedMs, lastBlockTimestampMs),
                SaturatingAdd(lastBlockTimestampMs, MAX_BLOCK_TIMESTAMP_STEP_MS, U64_MAX)),
            MAX_BLOCK_TIMESTAMP_MS)
    }

    /** `build_block`: executes on a clone, so the ledger itself does not change. */
    method Build(c: Crypto, proposer: ValidatorId, round: nat, timestampMs: nat, txs: seq<SignedTransaction>)
      returns (r: Result<LedgerBlock, LedgerError>)
      ensures r == BuildBlock(c, View(), proposer, round, timestampMs, txs)
    {
      hide ApplyAll, NormalizedTimestamp;
      var next := CheckedAdd(height, 1);
      if next.None? {
        return Err(ArithmeticOverflow);
      }
      var timestamp := NormalizedProposalTimestamp(timestampMs);
      var candidate := new LedgerState.Clone(this);
      var receipts := candidate.ApplyTransactions(c, txs, next.value);
      if receipts.Err? {
        return Err(receipts.error);
      }
      candidate.height := next.value;
      candidate.lastBlockTimestampMs := timestamp;
      var transactionsRoot := ComputeMerkleRoot(c.merkle, TransactionIds(c, txs));
      return Ok(LedgerBlock(
        BlockHeader(PROTOCOL_VERSION, chainId, next.value, tipHash, proposer, round, timestamp,
          transactionsRoot, c.stateRoot(Commitment(candidate.View()))),
        txs));
    }

    /** `apply_block`: all checks and execution happen on a clone that replaces the ledger at the end. */
    method ApplyFinal(c: Crypto, b: LedgerBlock) returns (r: Result<seq<TransactionReceipt>, LedgerError>)
      modifies this
      ensures match ApplyBlock(c, old(View()), b)
        case Err(error) => r == Err(error) && View() == old(View())
        case Ok((after, receipts)) => r == Ok(receipts) && View() == after
    {
      hide ApplyAll, BlockSize;
      var fault := ValidateCommitments(c, b);
      if fault.Some? {
        return Err(fault.value);
      }
      if b.header.chainId != chainId {
        return Err(LedgerError.WrongChain(chainId, b.header.chainId));
      }
      var expectedHeight := CheckedAdd(height, 1);
      if expectedHeight.None? {
        return Err(ArithmeticOverflow);
      }
      if b.header.height != expectedHeight.value {
        return Err(InvalidBlockHeight(expectedHeight.value, b.header.height));
      }
      if b.header.parentHash != tipHash {
        return Err(InvalidParentHash);
      }
      if b.header.timestampMs > MAX_BLOCK_TIMESTAMP_MS
        || (height > 0
            && (b.header.timestampMs < lastBlockTimestampMs
                || b.header.timestampMs > SaturatingAdd(lastBlockTimestampMs, MAX_BLOCK_TIMESTAMP_STEP_MS, U64_MAX)))
      {
        return Err(InvalidTimestamp);
      }
      var candidate := new LedgerState.Clone(this);
      var receipts := candidate.ApplyTransactions(c, b.transactions, b.header.height);
      if receipts.Err? {
        return Err(receipts.error);
      }
      candidate.height := b.header.height;
      candidate.lastBlockTimestampMs := b.header.timestampMs;
      if c.stateRoot(Commitment(candidate.View())) != b.header.stateRoot {
        return Err(InvalidStateRoot);
      }
      candidate.tipHash := c.blockId(b.header);
      Assign(candidate);
      return receipts;
    }

    /** `apply_finalized_block`: the certificate is verified before anything else. */
    method ApplyFinalizedBlock(
      c: Crypto, b: LedgerBlock, certificate: Certificates.ProtocolCertificate, validators: seq<ValidatorId>,
      genuine: SignedVote -> bool)
      returns (r: Result<seq<TransactionReceipt>, LedgerError>)
      modifies this
      ensures r.Ok? <==> CertifiesBlock(c, certificate, b, validators, genuine) && ApplyBlock(c, old(View()), b).Ok?
      ensures r.Ok? ==> Ok((View(), r.value)) == ApplyBlock(c, old(View()), b)
      ensures r.Err? ==> View() == old(View())
    {
      hide ApplyBlock, CertifiesBlock;
      var fault := VerifyForBlock(c, certificate, b, validators, genuine);
      if fault.Some? {
        return Err(fault.value);
      }
      r := ApplyFinal(c, b);
    }
  }

  /** The parts an application is made of. */
  lemma ApplyIs(c: Crypto, l: Ledger, tx: SignedTransaction, executionHeight: nat)
    ensures Validate(c, l, tx, executionHeight).Err? ==>
      Apply(c, l, tx, executionHeight) == Err(Validate(c, l, tx, executionHeight).error)
    ensures Validate(c, l, tx, executionHeight).Ok? ==>
      var sender := c.addressOf(tx.unsigned.senderPublicKey);
      && Validate(c, l, tx, executionHeight).value == ValidatedTransaction(c.transactionId(tx), sender)
      && match Perform(l, sender, tx.unsigned.action)
         case Err(error) => Apply(c, l, tx, executionHeight) == Err(error)
         case Ok((moved, outcome)) =>
           var account := AccountOrDefault(moved.accounts, sender);
           Apply(c, l, tx, executionHeight) == Ok((
             moved.(accounts := moved.accounts[sender := account.(nextNonce := account.nextNonce + 1)],
                    appliedTransactions := moved.appliedTransactions + {c.transactionId(tx)}),
             TransactionReceipt(c.transactionId(tx), sender, tx.unsigned.nonce, outcome)))
  {
    hide TransactionFault, Perform;
  }

  lemma NonceFits(c: Crypto, l: Ledger, tx: SignedTransaction, executionHeight: nat)
    requires Validate(c, l, tx, executionHeight).Ok?
    ensures CheckedAdd(AccountOrDefault(l.accounts, c.addressOf(tx.unsigned.senderPublicKey)).nextNonce, 1).Some?
  {
  }

  lemma {:induction false} FailureStays(c: Crypto, l: Ledger, txs: seq<SignedTransaction>, n: nat, height: nat)
    requires n <= |txs| && ApplyAll(c, l, txs[..n], height).Err?
    ensures ApplyAll(c, l, txs, height) == Err(ApplyAll(c, l, txs[..n], height).error)
    decreases |txs|
  {
    if n < |txs| {
      var init := txs[..|txs| - 1];
      assert init[..n] == txs[..n];
      FailureStays(c, l, init, n, height);
    } else {
      assert txs[..n] == txs;
    }
  }

  /** `Block::validate_commitments`. */
  method ValidateCommitments(c: Crypto, b: LedgerBlock) returns (fault: Option<LedgerError>)
    ensures fault == CommitmentsFault(c, b)
  {
    if BlockSize(c, b) > MAX_BLOCK_BYTES {
      return Some(LedgerError.PayloadTooLarge);
    }
    if b.header.protocolVersion != PROTOCOL_VERSION {
      return Some(LedgerError.UnsupportedProtocolVersion(PROTOCOL_VERSION, b.header.protocolVersion));
    }
    if !ChainIdValid(b.header.chainId) {
      return Some(LedgerError.InvalidChainId);
    }
    var root := ComputeMerkleRoot(c.merkle, TransactionIds(c, b.transactions));
    return if root != b.header.transactionsRoot then Some(InvalidTransactionsRoot) else None;
  }

  /** `CommitCertificate::verify_for_block`. */
  method VerifyForBlock(
    c: Crypto, certificate: Certificates.ProtocolCertificate, b: LedgerBlock, validators: seq<ValidatorId>,
    genuine: SignedVote -> bool)
    returns (fault: Option<LedgerError>)
    ensures fault.None? <==> CertifiesBlock(c, certificate, b, validators, genuine)
  {
    if certificate.chainId != b.header.chainId || certificate.height != b.header.height
      || certificate.blockHash != c.blockId(b.header) || certificate.round < b.header.round
    {
      return Some(InvalidCommitCertificate);
    }
    if |validators| == 0 {
      return Some(InvalidCommitCertificate);
    }
    var heightOffset := SaturatingSub(b.header.height, 1) % |validators|;
    var roundOffset := b.header.round % |validators|;
    if b.header.proposer != validators[(heightOffset + roundOffset) % |validators|] {
      return Some(InvalidCommitCertificate);
    }
    var reason := Certificates.Verify(certificate, validators, genuine);
    return if reason.Some? then Some(CertificateFailed(reason.value)) else None;
  }

  /** `replay_blocks`. */
  method ReplayBlocks(c: Crypto, chainId: string, blocks: seq<LedgerBlock>) returns (r: Result<Ledger, LedgerError>)
    ensures r == Replay(c, chainId, blocks)
  {
    hide ApplyBlock;
    var state := new LedgerState(chainId);
    for i := 0 to |blocks|
      invariant fresh(state)
      invariant ReplayFrom(c, Genesis(chainId), blocks[..i]) == Ok(state.View())
    {
      assert blocks[..i + 1][..i] == blocks[..i];
      var receipts := state.ApplyFinal(c, blocks[i]);
      if receipts.Err? {
        ReplayFailureStays(c, Genesis(chainId), blocks, i + 1);
        return Err(receipts.error);
      }
    }
    assert blocks[..|blocks|] == blocks;
    return Ok(state.View());
  }

  lemma ReplayFailureStays(c: Crypto, l: Ledger, blocks: seq<LedgerBlock>, n: nat)
    requires n <= |blocks| && ReplayFrom(c, l, blocks[..n]).Err?
    ensures ReplayFrom(c, l, blocks) == Err(ReplayFrom(c, l, blocks[..n]).error)
  {
    hide ApplyBlock;
    ReplaySplits(c, l, blocks[..n], blocks[n..]);
    assert blocks[..n] + blocks[n..] == blocks;
  }

  /** `replay_finalized_blocks` reaches the ledger of the blocks alone, and only with valid certificates. */
  method ReplayFinalizedBlocks(
    c: Crypto, chainId: string, history: seq<Certified>, validators: seq<ValidatorId>, genuine: SignedVote -> bool)
    returns (r: Result<Ledger, LedgerError>)
    ensures r.Ok? <==> ReplaysFinalized(c, chainId, history, validators, genuine)
    ensures r.Ok? ==> r == Replay(c, chainId, BlocksOf(history))
  {
    hide ApplyBlock, CertifiesBlock;
    var state := new LedgerState(chainId);
    ghost var blocks := BlocksOf(history);
    for i := 0 to |history|
      invariant fresh(state)
      invariant ReplayFrom(c, Genesis(chainId), blocks[..i]) == Ok(state.View())
      invariant forall k :: 0 <= k < i ==> CertifiesBlock(c, history[k].certificate, history[k].block, validators, genuine)
    {
      assert blocks[..i + 1][..i] == blocks[..i];
      ghost var was := state.View();
      var receipts := state.ApplyFinalizedBlock(c, history[i].block, history[i].certificate, validators, genuine);
      if receipts.Err? {
        if ApplyBlock(c, was, history[i].block).Err? {
          ReplayFailureStays(c, Genesis(chainId), blocks, i + 1);
        }
        return Err(receipts.error);
      }
    }
    assert blocks[..|blocks|] == blocks;
    return Ok(state.View());
  }
}
