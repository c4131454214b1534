/** Proposer and validator agree on blocks; block ids determine histories and ledgers. */
module Blocks {
  import opened Wrappers
  import opened ConsensusTypes
  import opened Merkle
  import opened LedgerSpec
  import opened LedgerInvariant
  import Certificates

  // ---------------------------------------------------------------- one block

  /** What an accepted block says about the ledger before and after it. */
  lemma ApplyBlockKeepsSound(c: Crypto, l: Ledger, b: LedgerBlock)
    requires Sound(l) && ApplyBlock(c, l, b).Ok?
    ensures var after := ApplyBlock(c, l, b).value.0;
      && Sound(after)
      && after.chainId == l.chainId == b.header.chainId
      && after.height == l.height + 1 == b.header.height
      && after.tipHash == c.blockId(b.header)
      && b.header.parentHash == l.tipHash
      && c.stateRoot(Commitment(after)) == b.header.stateRoot
      && b.header.transactionsRoot == TransactionsRoot(c, b.transactions)
      && Distinct(TransactionIds(c, b.transactions))
      && (forall id :: id in TransactionIds(c, b.transactions) ==> id !in l.appliedTransactions)
      && (forall id :: id in after.appliedTransactions
            <==> id in l.appliedTransactions || id in TransactionIds(c, b.transactions))
  {
    hide TransactionsRoot, SupplyAfter, ApplyAll;
    ApplyAllKeepsSound(c, l, b.transactions, b.header.height);
  }

  /** A proposer's clamp always lands in the range validators allow, and leaves allowed times alone. */
  lemma ClampIsAllowed(l: Ledger, requestedMs: nat)
    requires l.lastBlockTimestampMs <= MAX_BLOCK_TIMESTAMP_MS
    ensures TimestampAllowed(l, NormalizedTimestamp(l, requestedMs))
    ensures NormalizedTimestamp(l, requestedMs) == requestedMs <==> TimestampAllowed(l, requestedMs)
  {
  }

  /**
   * Round trip: whatever the wall clock says, a built block is accepted on the same ledger exactly
   * when it fits the size limit, which `build_block` itself does not check. Applying it yields the
   * state whose root the header commits to.
   */
  lemma BuiltBlockApplies(c: Crypto, l: Ledger, proposer: ValidatorId, round: nat, wallClockMs: nat, txs: seq<SignedTransaction>)
    requires Sound(l) && BuildBlock(c, l, proposer, round, wallClockMs, txs).Ok?
    ensures var b := BuildBlock(c, l, proposer, round, wallClockMs, txs).value;
      && (ApplyBlock(c, l, b).Ok? <==> BlockSize(c, b) <= MAX_BLOCK_BYTES)
      && b.transactions == txs && b.header.proposer == proposer && b.header.round == round
    ensures var b := BuildBlock(c, l, proposer, round, wallClockMs, txs).value;
      BlockSize(c, b) <= MAX_BLOCK_BYTES ==>
        var after := ApplyBlock(c, l, b).value.0;
        && c.stateRoot(Commitment(after)) == b.header.stateRoot
        && after.tipHash == c.blockId(b.header)
        && ApplyAll(c, l, txs, l.height + 1).value.0
           == after.(height := l.height, tipHash := l.tipHash, lastBlockTimestampMs := l.lastBlockTimestampMs)
  {
    hide ApplyAll, TransactionsRoot, TimestampAllowed, NormalizedTimestamp, SupplyAfter, BlockSize;
    ClampIsAllowed(l, wallClockMs);
    ApplyAllKeepsSound(c, l, txs, l.height + 1);
  }

  /** A proposer fails only on a transaction that does not apply in order, or at the end of all heights. */
  lemma BuildSucceedsIff(c: Crypto, l: Ledger, proposer: ValidatorId, round: nat, wallClockMs: nat, txs: seq<SignedTransaction>)
    ensures BuildBlock(c, l, proposer, round, wallClockMs, txs).Ok?
      <==> l.height < U64_MAX && ApplyAll(c, l, txs, l.height + 1).Ok?
  {
  }

  // ---------------------------------------------------------------- block size

  const MAX_TRANSACTIONS_PER_PROPOSAL: nat := 1_000
  const LARGEST_TRANSACTION: nat := 252

  lemma AcceptedTransactionIsSmall(c: Crypto, l: Ledger, tx: SignedTransaction, height: nat)
    requires Validate(c, l, tx, height).Ok?
    ensures TransactionSize(c, tx) <= LARGEST_TRANSACTION
  {
  }

  lemma {:induction false} AcceptedTransactionsAreSmall(c: Crypto, l: Ledger, txs: seq<SignedTransaction>, height: nat)
    requires ApplyAll(c, l, txs, height).Ok?
    ensures TransactionsSize(c, txs) <= LARGEST_TRANSACTION * |txs|
    decreases |txs|
  {
    hide TransactionSize, TransactionFault, Perform;
    if txs != [] {
      var init, last := txs[..|txs| - 1], txs[|txs| - 1];
      AcceptedTransactionsAreSmall(c, l, init, height);
      AcceptedTransactionIsSmall(c, ApplyAll(c, l, init, height).value.0, last, height);
    }
  }

  /**
   * The missing size check of `build_block` does no harm to a node that proposes at most 1,000
   * transactions: no transaction that passes validation is long enough to fill a block.
   */
  lemma NodeProposalsFit(c: Crypto, l: Ledger, proposer: ValidatorId, round: nat, wallClockMs: nat, txs: seq<SignedTransaction>)
    requires ChainIdValid(l.chainId) && |txs| <= MAX_TRANSACTIONS_PER_PROPOSAL
    requires BuildBlock(c, l, proposer, round, wallClockMs, txs).Ok?
    ensures BlockSize(c, BuildBlock(c, l, proposer, round, wallClockMs, txs).value) <= MAX_BLOCK_BYTES
  {
    hide ApplyAll, TransactionsRoot, NormalizedTimestamp;
    AcceptedTransactionsAreSmall(c, l, txs, l.height + 1);
  }

  /** The `nonce`-th of a series of transactions in which one wallet clears its display name. */
  function Rename(chainId: string, key: PublicKey, nonce: nat): SignedTransaction
  {
    SignedTransaction(UnsignedTransaction(PROTOCOL_VERSION, chainId, key, nonce, U64_MAX, SetDisplayName(None)), [])
  }

  function Renames(chainId: string, key: PublicKey, count: nat): (txs: seq<SignedTransaction>)
    ensures |txs| == count
  {
    seq(count, nonce requires 0 <= nonce < count => Rename(chainId, key, nonce))
  }

  /** Keys and signatures of the series are good, and its ids differ. */
  ghost predicate Wallet(c: Crypto, chainId: string, key: PublicKey)
  {
    && ChainIdValid(chainId) && c.keyOk(key)
    && (forall nonce: nat :: c.signatureOk(Rename(chainId, key, nonce)))
    && (forall m: nat, n: nat :: c.transactionId(Rename(chainId, key, m)) == c.transactionId(Rename(chainId, key, n)) ==> m == n)
  }

  /** The ledger after the first `count` of the series. */
  ghost predicate Renamed(c: Crypto, chainId: string, key: PublicKey, count: nat, l: Ledger)
  {
    && l.chainId == chainId && AccountOrDefault(l.accounts, c.addressOf(key)).nextNonce == count
    && forall id :: id in l.appliedTransactions ==> exists n: nat :: n < count && id == c.transactionId(Rename(chainId, key, n))
  }

  lemma {:induction false} RenamesApply(c: Crypto, chainId: string, key: PublicKey, count: nat)
    requires Wallet(c, chainId, key) && count <= U64_MAX
    ensures ApplyAll(c, Genesis(chainId), Renames(chainId, key, count), 1).Ok?
    ensures Renamed(c, chainId, key, count, ApplyAll(c, Genesis(chainId), Renames(chainId, key, count), 1).value.0)
    ensures TransactionsSize(c, Renames(chainId, key, count)) == count * (120 + |chainId|)
    decreases count
  {
    hide Apply, TransactionSize, Rename, Wallet;
    if count > 0 {
      var txs := Renames(chainId, key, count);
      assert txs[..count - 1] == Renames(chainId, key, count - 1) && txs[count - 1] == Rename(chainId, key, count - 1);
      hide Renames;
      RenamesApply(c, chainId, key, count - 1);
      var before := ApplyAll(c, Genesis(chainId), Renames(chainId, key, count - 1), 1).value.0;
      RenameApplies(c, before, chainId, key, count - 1);
      RenameSize(c, chainId, key, count - 1);
    }
  }

  lemma RenameSize(c: Crypto, chainId: string, key: PublicKey, nonce: nat)
    ensures TransactionSize(c, Rename(chainId, key, nonce)) == 120 + |chainId|
  {
  }

  lemma RenameApplies(c: Crypto, l: Ledger, chainId: string, key: PublicKey, nonce: nat)
    requires Wallet(c, chainId, key) && nonce < U64_MAX && Renamed(c, chainId, key, nonce, l)
    ensures Apply(c, l, Rename(chainId, key, nonce), 1).Ok?
    ensures Renamed(c, chainId, key, nonce + 1, Apply(c, l, Rename(chainId, key, nonce), 1).value.0)
  {
    var tx := Rename(chainId, key, nonce);
    assert c.transactionId(tx) !in l.appliedTransactions;
    assert c.signatureOk(tx);
  }

  const TOO_MANY: nat := 20_000

  /** The failing side of the round trip: twenty thousand valid transactions make a block that is too large. */
  lemma OversizedBlockIsBuilt(c: Crypto, chainId: string, key: PublicKey, proposer: ValidatorId, round: nat, wallClockMs: nat)
    requires Wallet(c, chainId, key)
    ensures var built := BuildBlock(c, Genesis(chainId), proposer, round, wallClockMs, Renames(chainId, key, TOO_MANY));
      && built.Ok? && BlockSize(c, built.value) > MAX_BLOCK_BYTES
      && ApplyBlock(c, Genesis(chainId), built.value) == Err(LedgerError.PayloadTooLarge)
  {
    RenamesApply(c, chainId, key, TOO_MANY);
    hide ApplyAll, TransactionsRoot, NormalizedTimestamp, TransactionsSize, Wallet;
    assert |chainId| >= 1 by {
      NonemptyId(c, chainId, key);
    }
  }

  lemma NonemptyId(c: Crypto, chainId: string, key: PublicKey)
    requires Wallet(c, chainId, key)
    ensures |chainId| >= 1
  {
  }

  // ---------------------------------------------------------------- histories

  lemma {:induction false} IdsBindTransactions(c: Crypto, a: seq<SignedTransaction>, b: seq<SignedTransaction>)
    requires HashesBind(c) && TransactionIds(c, a) == TransactionIds(c, b)
    ensures a == b
  {
    assert |a| == |TransactionIds(c, a)| == |TransactionIds(c, b)|;
    forall i | 0 <= i < |a| ensures a[i] == b[i] {
      assert TransactionIds(c, a)[i] == c.transactionId(a[i]);
      assert TransactionIds(c, b)[i] == c.transactionId(b[i]);
    }
  }

  /** Two accepted blocks with the same id are the same block, transactions included. */
  lemma BlockIdBindsBlock(c: Crypto, l: Ledger, m: Ledger, a: LedgerBlock, b: LedgerBlock)
    requires HashesBind(c) && Sound(l) && Sound(m)
    requires ApplyBlock(c, l, a).Ok? && ApplyBlock(c, m, b).Ok?
    requires c.blockId(a.header) == c.blockId(b.header)
    ensures a == b
  {
    ApplyBlockKeepsSound(c, l, a);
    ApplyBlockKeepsSound(c, m, b);
    hide ApplyBlock, Sound;
    DistinctBinding(c.merkle, TransactionIds(c, a.transactions), TransactionIds(c, b.transactions));
    IdsBindTransactions(c, a.transactions, b.transactions);
  }

  lemma {:induction false} ReplayKeepsSound(c: Crypto, l: Ledger, blocks: seq<LedgerBlock>)
    requires Sound(l) && ReplayFrom(c, l, blocks).Ok?
    ensures var after := ReplayFrom(c, l, blocks).value;
      && Sound(after) && after.chainId == l.chainId && after.height == l.height + |blocks|
      && l.appliedTransactions <= after.appliedTransactions
    ensures blocks != [] ==>
      && ReplayFrom(c, l, blocks).value.tipHash == c.blockId(blocks[|blocks| - 1].header)
      && blocks[|blocks| - 1].header.height == l.height + |blocks|
    decreases |blocks|
  {
    hide ApplyBlock, Sound;
    if blocks != [] {
      var init, last := blocks[..|blocks| - 1], blocks[|blocks| - 1];
      ReplayKeepsSound(c, l, init);
      ApplyBlockKeepsSound(c, ReplayFrom(c, l, init).value, last);
    }
  }

  /** Batch replay is incremental application, however the history is cut. */
  lemma {:induction false} ReplaySplits(c: Crypto, l: Ledger, first: seq<LedgerBlock>, second: seq<LedgerBlock>)
    ensures ReplayFrom(c, l, first + second)
      == match ReplayFrom(c, l, first)
         case Err(error) => Err(error)
         case Ok(middle) => ReplayFrom(c, middle, second)
    decreases |second|
  {
    hide ApplyBlock;
    if second == [] {
      assert first + second == first;
    } else {
      var init, last := second[..|second| - 1], second[|second| - 1];
      ReplaySplits(c, l, first, init);
      assert (first + second)[..|first + second| - 1] == first + init;
    }
  }

  /**
   * A tip id determines the whole history behind it, so two replicas on the same tip have applied
   * the same blocks and hold the same ledger.
   */
  lemma {:induction false} TipDeterminesHistory(c: Crypto, chainId: string, a: seq<LedgerBlock>, b: seq<LedgerBlock>)
    requires HashesBind(c) && ChainIdValid(chainId)
    requires Replay(c, chainId, a).Ok? && Replay(c, chainId, b).Ok?
    requires a != [] && b != [] && Replay(c, chainId, a).value.tipHash == Replay(c, chainId, b).value.tipHash
    ensures a == b
    decreases |a|
  {
    hide ApplyBlock, Sound;
    GenesisSound(chainId);
    var g := Genesis(chainId);
    ReplayKeepsSound(c, g, a);
    ReplayKeepsSound(c, g, b);
    var a', x, b', y := a[..|a| - 1], a[|a| - 1], b[..|b| - 1], b[|b| - 1];
    ReplayKeepsSound(c, g, a');
    ReplayKeepsSound(c, g, b');
    BlockIdBindsBlock(c, ReplayFrom(c, g, a').value, ReplayFrom(c, g, b').value, x, y);
    assert a == a' + [x] && b == b' + [y];
    assert |a| == |b|;
    if a' != [] {
      ApplyBlockKeepsSound(c, ReplayFrom(c, g, a').value, x);
      ApplyBlockKeepsSound(c, ReplayFrom(c, g, b').value, y);
      TipDeterminesHistory(c, chainId, a', b');
    }
  }

  // ---------------------------------------------------------------- certified histories

  datatype Certified = Certified(block: LedgerBlock, certificate: Certificates.ProtocolCertificate)

  function BlocksOf(history: seq<Certified>): (blocks: seq<LedgerBlock>)
    ensures |blocks| == |history|
  {
    seq(|history|, i requires 0 <= i < |history| => history[i].block)
  }

  /** `replay_finalized_blocks` succeeds: each certificate is for its block and the blocks replay. */
  ghost predicate ReplaysFinalized(
    c: Crypto, chainId: string, history: seq<Certified>, validators: seq<ValidatorId>, genuine: SignedVote -> bool)
  {
    && (forall i :: 0 <= i < |history| ==> CertifiesBlock(c, history[i].certificate, history[i].block, validators, genuine))
    && Replay(c, chainId, BlocksOf(history)).Ok?
  }

  /**
   * Chain determinism: replicas whose latest certificates name the same block hold the same history
   * and the same ledger, whatever rounds and signers their certificates are from.
   */
  lemma SameIdSameLedger(
    c: Crypto, chainId: string, a: seq<Certified>, b: seq<Certified>, validators: seq<ValidatorId>, genuine: SignedVote -> bool)
    requires HashesBind(c) && ChainIdValid(chainId) && a != [] && b != []
    requires ReplaysFinalized(c, chainId, a, validators, genuine) && ReplaysFinalized(c, chainId, b, validators, genuine)
    requires a[|a| - 1].certificate.blockHash == b[|b| - 1].certificate.blockHash
    ensures BlocksOf(a) == BlocksOf(b)
    ensures Replay(c, chainId, BlocksOf(a)) == Replay(c, chainId, BlocksOf(b))
  {
    var x, y := a[|a| - 1], b[|b| - 1];
    assert CertifiesBlock(c, x.certificate, x.block, validators, genuine);
    assert CertifiesBlock(c, y.certificate, y.block, validators, genuine);
    GenesisSound(chainId);
    ReplayKeepsSound(c, Genesis(chainId), BlocksOf(a));
    ReplayKeepsSound(c, Genesis(chainId), BlocksOf(b));
    TipDeterminesHistory(c, chainId, BlocksOf(a), BlocksOf(b));
  }

  /** A prefix of a certified history is a certified history. */
  lemma PrefixReplays(
    c: Crypto, chainId: string, a: seq<Certified>, n: nat, validators: seq<ValidatorId>, genuine: SignedVote -> bool)
    requires n <= |a| && ReplaysFinalized(c, chainId, a, validators, genuine)
    ensures ReplaysFinalized(c, chainId, a[..n], validators, genuine)
    ensures BlocksOf(a[..n]) == BlocksOf(a)[..n]
  {
    hide CertifiesBlock, ReplayFrom;
    assert BlocksOf(a) == BlocksOf(a[..n]) + BlocksOf(a[n..]);
    ReplaySplits(c, Genesis(chainId), BlocksOf(a[..n]), BlocksOf(a[n..]));
  }
}
