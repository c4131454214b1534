/**
 * The explorer index as a value: what `build_projection` derives from one finalized block and what
 * the tables hold after it (`crates/kcoin-node/src/runtime.rs`, `crates/kcoin-node/src/storage.rs`).
 */
module ExplorerSpec {
  import opened Wrappers
  import opened Merkle
  import opened LedgerSpec
  import opened LedgerInvariant

  datatype Kind = TransferKind | ClaimKind | NameKind

  datatype TransactionRow = TransactionRow(
    blockHeight: nat,
    index: nat,
    kind: Kind,
    sender: Address,
    recipient: Option<Address>,
    amountAtoms: nat,
    nonce: nat)

  datatype AccountRow = AccountRow(
    balanceAtoms: nat,
    nonce: nat,
    displayName: Option<string>,
    transactionCount: nat,
    lastHeight: nat)

  datatype TipRow = TipRow(height: nat, hash: Hash, stateRoot: Hash, issuedSupplyAtoms: nat)

  /** The stored challenge; its expression is a function of the id. */
  datatype ChallengeRow = ChallengeRow(challengeId: nat, issuedAtHeight: nat, rewardAtoms: nat)

  datatype Index = Index(
    accounts: map<Address, AccountRow>,
    transactions: map<Hash, TransactionRow>,
    tip: Option<TipRow>,
    challenge: Option<ChallengeRow>)

  const EMPTY: Index := Index(map[], map[], None, None)

  // ---------------------------------------------------------------- one block, from its receipts

  function RowOfReceipt(r: TransactionReceipt, height: nat, index: nat): TransactionRow
  {
    match r.outcome
    case Transferred(recipient, amount) => TransactionRow(height, index, TransferKind, r.sender, Some(recipient), amount, r.nonce)
    case RewardClaimed(_, reward) => TransactionRow(height, index, ClaimKind, r.sender, Some(r.sender), reward, r.nonce)
    case DisplayNameUpdated(_) => TransactionRow(height, index, NameKind, r.sender, None, 0, r.nonce)
  }

  /** How often a row counts for an address: once, also when sender and recipient are the same. */
  function Mentions(row: TransactionRow, address: Address): nat
  {
    (if row.sender == address then 1 else 0)
    + (if row.recipient.Some? && row.recipient.value != row.sender && row.recipient.value == address then 1 else 0)
  }

  function ReceiptActivity(receipts: seq<TransactionReceipt>, address: Address): nat
  {
    if receipts == [] then 0
    else
      ReceiptActivity(receipts[..|receipts| - 1], address)
      + Mentions(RowOfReceipt(receipts[|receipts| - 1], 0, 0), address)
  }

  function UpsertTransactions(rows: map<Hash, TransactionRow>, receipts: seq<TransactionReceipt>, height: nat): map<Hash, TransactionRow>
  {
    if receipts == [] then rows
    else
      var last := receipts[|receipts| - 1];
      UpsertTransactions(rows, receipts[..|receipts| - 1], height)
        [last.transactionId := RowOfReceipt(last, height, |receipts| - 1)]
  }

  /** Every account of the new state is written, with the old count plus what the block adds. */
  function UpsertAccounts(rows: map<Address, AccountRow>, after: Ledger, receipts: seq<TransactionReceipt>): map<Address, AccountRow>
  {
    rows + map a | a in after.accounts ::
      AccountRow(after.accounts[a].balanceAtoms, after.accounts[a].nextNonce, after.accounts[a].displayName,
        (if a in rows then rows[a].transactionCount else 0) + ReceiptActivity(receipts, a), after.height)
  }

  predicate HasReward(receipts: seq<TransactionReceipt>)
  {
    exists i :: 0 <= i < |receipts| && receipts[i].outcome.RewardClaimed?
  }

  predicate Claims(txs: seq<SignedTransaction>, challengeId: nat)
  {
    exists i :: 0 <= i < |txs| && txs[i].unsigned.action.ClaimReward? && txs[i].unsigned.action.challengeId + 1 == challengeId
  }

  /** `canonical_challenge_issued_height`: the last block whose claim opened the challenge. */
  function CanonicalIssueHeight(blocks: seq<LedgerBlock>, challengeId: nat): Option<nat>
  {
    if challengeId == 0 then Some(0)
    else if blocks == [] then None
    else if Claims(blocks[|blocks| - 1].transactions, challengeId) then Some(blocks[|blocks| - 1].header.height)
    else CanonicalIssueHeight(blocks[..|blocks| - 1], challengeId)
  }

  function NextChallenge(stored: seq<LedgerBlock>, previous: Option<ChallengeRow>, after: Ledger, receipts: seq<TransactionReceipt>):
    ChallengeRow
  {
    var id := after.activeChallengeId;
    var issued :=
      if HasReward(receipts) then after.height
      else if previous.Some? && previous.value.challengeId == id then previous.value.issuedAtHeight
      else
        var found := CanonicalIssueHeight(stored, id);
        if found.Some? then found.value else after.height;
    var reward := RewardForSupply(after.totalSupplyAtoms);
    ChallengeRow(id, issued, if reward.Some? then reward.value else 0)
  }

  /** `build_projection` followed by the upserts of `persist_finalized`. */
  function Project(c: Crypto, stored: seq<LedgerBlock>, index: Index, after: Ledger, block: LedgerBlock, receipts: seq<TransactionReceipt>): Index
  {
    Index(
      UpsertAccounts(index.accounts, after, receipts),
      UpsertTransactions(index.transactions, receipts, block.header.height),
      Some(TipRow(block.header.height, c.blockId(block.header), block.header.stateRoot, after.totalSupplyAtoms)),
      Some(NextChallenge(stored, index.challenge, after, receipts)))
  }

  // ---------------------------------------------------------------- the whole history, from its transactions

  /** Whether a transaction belongs to an address. */
  predicate Touches(c: Crypto, tx: SignedTransaction, address: Address)
  {
    || c.addressOf(tx.unsigned.senderPublicKey) == address
    || (tx.unsigned.action.Transfer? && tx.unsigned.action.recipient == address)
  }

  function CountTouching(c: Crypto, txs: seq<SignedTransaction>, address: Address): nat
  {
    if txs == [] then 0
    else CountTouching(c, txs[..|txs| - 1], address) + if Touches(c, txs[|txs| - 1], address) then 1 else 0
  }

  function HistoryCount(c: Crypto, blocks: seq<LedgerBlock>, address: Address): nat
  {
    if blocks == [] then 0
    else HistoryCount(c, blocks[..|blocks| - 1], address) + CountTouching(c, blocks[|blocks| - 1].transactions, address)
  }

  /** The row of a transaction from its own contents; a reward is read off the issuance schedule. */
  function RowFor(c: Crypto, tx: SignedTransaction, height: nat, index: nat): TransactionRow
  {
    var sender := c.addressOf(tx.unsigned.senderPublicKey);
    match tx.unsigned.action
    case Transfer(recipient, amount) => TransactionRow(height, index, TransferKind, sender, Some(recipient), amount, tx.unsigned.nonce)
    case ClaimReward(id, _) =>
      TransactionRow(height, index, ClaimKind, sender, Some(sender), REWARDS_KCOIN[BandAt(id)] * ATOMS_PER_KCOIN, tx.unsigned.nonce)
    case SetDisplayName(_) => TransactionRow(height, index, NameKind, sender, None, 0, tx.unsigned.nonce)
  }

  /** Every transaction of every block is in the table, with its place and contents, and nothing else is. */
  ghost predicate ListsTransactions(c: Crypto, blocks: seq<LedgerBlock>, rows: map<Hash, TransactionRow>)
  {
    && (forall h, k :: 0 <= h < |blocks| && 0 <= k < |blocks[h].transactions| ==>
          var tx := blocks[h].transactions[k];
          c.transactionId(tx) in rows && rows[c.transactionId(tx)] == RowFor(c, tx, h + 1, k))
    && (forall id :: id in rows ==>
          exists h, k :: 0 <= h < |blocks| && 0 <= k < |blocks[h].transactions| && c.transactionId(blocks[h].transactions[k]) == id)
  }

  predicate HasClaim(txs: seq<SignedTransaction>)
  {
    exists i :: 0 <= i < |txs| && txs[i].unsigned.action.ClaimReward?
  }

  /** The height of the last block with a claim: where the active challenge was opened. */
  function LastClaimHeight(blocks: seq<LedgerBlock>): nat
  {
    if blocks == [] then 0
    else if HasClaim(blocks[|blocks| - 1].transactions) then |blocks|
    else LastClaimHeight(blocks[..|blocks| - 1])
  }

  function AccountRows(c: Crypto, blocks: seq<LedgerBlock>, l: Ledger): map<Address, AccountRow>
  {
    map a | a in l.accounts ::
      AccountRow(l.accounts[a].balanceAtoms, l.accounts[a].nextNonce, l.accounts[a].displayName, HistoryCount(c, blocks, a), l.height)
  }

  /** The index says exactly what the canonical history says. */
  ghost predicate Agrees(c: Crypto, blocks: seq<LedgerBlock>, l: Ledger, index: Index)
  {
    && index.accounts == AccountRows(c, blocks, l)
    && ListsTransactions(c, blocks, index.transactions)
    && (blocks == [] ==> index == EMPTY)
    && (blocks != [] ==>
          && index.tip == Some(TipRow(l.height, l.tipHash, c.stateRoot(Commitment(l)), l.totalSupplyAtoms))
          && index.challenge == Some(ChallengeRow(l.activeChallengeId, LastClaimHeight(blocks),
               if l.activeChallengeId < CLAIMS_TO_CAP then REWARDS_KCOIN[BandAt(l.activeChallengeId)] * ATOMS_PER_KCOIN else 0)))
  }
}
