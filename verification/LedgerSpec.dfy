/**
 * Transactions, blocks and the ledger as values (`crates/kcoin-protocol/src/transaction.rs`,
 * `block.rs` and `ledger.rs`).
 *
 * Hashes, signatures and the encoding are parameters, gathered in `Crypto`. Amounts, nonces, heights
 * and timestamps are 64-bit in the source; wherever the source uses checked or saturating
 * arithmetic, so do these functions.
 */
module LedgerSpec {
  import opened Wrappers
  import opened ConsensusTypes
  import opened Merkle
  import Certificates

  const PROTOCOL_VERSION: nat := Certificates.PROTOCOL_VERSION

  const ATOMS_PER_KCOIN: nat := 1_000_000
  const MAX_SUPPLY_ATOMS: nat := 100_000 * ATOMS_PER_KCOIN
  const REWARD_BAND_ATOMS: nat := 20_000 * ATOMS_PER_KCOIN
  const REWARDS_KCOIN: seq<nat> := [100, 50, 25, 10, 5]
  const MAX_DISPLAY_NAME_BYTES: nat := 64
  const MAX_DISPLAY_NAME_CHARS: nat := 32
  const MAX_BLOCK_BYTES: nat := 2 * 1024 * 1024
  const MAX_BLOCK_TIMESTAMP_STEP_MS: nat := 60_000
  const MAX_BLOCK_TIMESTAMP_MS: nat := 32_503_680_000_000
  const ZERO_HASH: Hash := 0

  type Address = nat
  type PublicKey = nat
  type Word64 = x: nat | x <= U64_MAX

  datatype TransactionAction =
    | Transfer(recipient: Address, amountAtoms: nat)
    | ClaimReward(challengeId: nat, answer: nat)
    | SetDisplayName(displayName: Option<string>)

  datatype UnsignedTransaction = UnsignedTransaction(
    protocolVersion: nat,
    chainId: string,
    senderPublicKey: PublicKey,
    nonce: nat,
    expiryHeight: nat,
    action: TransactionAction)

  datatype SignedTransaction = SignedTransaction(unsigned: UnsignedTransaction, signature: Signature)

  datatype BlockHeader = BlockHeader(
    protocolVersion: nat,
    chainId: string,
    height: Word64,
    parentHash: Hash,
    proposer: ValidatorId,
    round: nat,
    timestampMs: nat,
    transactionsRoot: Hash,
    stateRoot: Hash)

  datatype LedgerBlock = LedgerBlock(header: BlockHeader, transactions: seq<SignedTransaction>)

  datatype AccountState = AccountState(balanceAtoms: nat, nextNonce: nat, displayName: Option<string>)

  datatype Ledger = Ledger(
    chainId: string,
    height: nat,
    tipHash: Hash,
    lastBlockTimestampMs: nat,
    totalSupplyAtoms: nat,
    activeChallengeId: nat,
    accounts: map<Address, AccountState>,
    appliedTransactions: set<Hash>)

  /** What `state_root` hashes: every field but the tip, which the root itself determines. */
  datatype StateCommitment = StateCommitment(
    protocolVersion: nat,
    chainId: string,
    height: nat,
    lastBlockTimestampMs: nat,
    totalSupplyAtoms: nat,
    activeChallengeId: nat,
    accounts: map<Address, AccountState>,
    appliedTransactions: set<Hash>)

  datatype LedgerError =
    | UnsupportedProtocolVersion(expectedVersion: nat, actualVersion: nat)
    | InvalidChainId
    | WrongChain(expectedChain: string, actualChain: string)
    | InvalidPublicKey
    | InvalidSignature
    | DuplicateTransaction
    | Expired(expiryHeight: nat, currentHeight: nat)
    | NonceMismatch(expectedNonce: nat, actualNonce: nat)
    | ZeroAmount
    | InsufficientBalance(available: nat, required: nat)
    | StaleChallenge(expectedChallenge: nat, actualChallenge: nat)
    | WrongChallengeAnswer
    | SupplyExhausted
    | InvalidDisplayName
    | ArithmeticOverflow
    | InvalidBlockHeight(expectedHeight: nat, actualHeight: nat)
    | InvalidParentHash
    | InvalidTimestamp
    | InvalidTransactionsRoot
    | InvalidStateRoot
    | InvalidCommitCertificate
    | CertificateFailed(reason: Certificates.CertificateError)
    | PayloadTooLarge
    | Malformed

  datatype TransactionOutcome =
    | Transferred(recipient: Address, amountAtoms: nat)
    | RewardClaimed(challengeId: nat, rewardAtoms: nat)
    | DisplayNameUpdated(displayName: Option<string>)

  datatype TransactionReceipt = TransactionReceipt(
    transactionId: Hash,
    sender: Address,
    nonce: nat,
    outcome: TransactionOutcome)

  datatype ValidatedTransaction = ValidatedTransaction(id: Hash, sender: Address)

  /** Hash functions, signature checks and Unicode rules the ledger calls. */
  datatype Crypto = Crypto(
    transactionId: SignedTransaction -> Hash,
    addressOf: PublicKey -> Address,
    keyOk: PublicKey -> bool,
    signatureOk: SignedTransaction -> bool,
    nameBytes: string -> nat,
    nameTidy: string -> bool,
    challengeAnswer: nat -> nat,
    stateRoot: StateCommitment -> Hash,
    blockId: BlockHeader -> Hash,
    merkle: Hashing)

  /** Block ids and transaction ids identify what they are computed from. */
  ghost predicate HashesBind(c: Crypto)
  {
    && CollisionFree(c.merkle)
    && (forall x, y :: c.transactionId(x) == c.transactionId(y) ==> x == y)
    && (forall x, y :: c.blockId(x) == c.blockId(y) ==> x == y)
  }

  function CheckedAdd(a: nat, b: nat): Option<nat>
  {
    if a + b > U64_MAX then None else Some(a + b)
  }

  // ---------------------------------------------------------------- transactions

  /** Neither blank at an end nor with control characters is a parameter; the length limits are not. */
  predicate DisplayNameOk(c: Crypto, name: string)
  {
    name != "" && c.nameBytes(name) <= MAX_DISPLAY_NAME_BYTES && |name| <= MAX_DISPLAY_NAME_CHARS && c.nameTidy(name)
  }

  /** `validate_display_name`. */
  function DisplayNameFault(c: Crypto, name: Option<string>): Option<LedgerError>
  {
    if name.Some? && !DisplayNameOk(c, name.value) then Some(InvalidDisplayName) else None
  }

  function ShapeFault(c: Crypto, u: UnsignedTransaction): Option<LedgerError>
  {
    if u.protocolVersion != PROTOCOL_VERSION then Some(LedgerError.UnsupportedProtocolVersion(PROTOCOL_VERSION, u.protocolVersion))
    else if !ChainIdValid(u.chainId) then Some(LedgerError.InvalidChainId)
    else match u.action
      case Transfer(_, amount) => if amount == 0 then Some(ZeroAmount) else None
      case ClaimReward(_, _) => None
      case SetDisplayName(name) => DisplayNameFault(c, name)
  }

  /** `verify_signature`. */
  function SignatureFault(c: Crypto, tx: SignedTransaction): Option<LedgerError>
  {
    var shape := ShapeFault(c, tx.unsigned);
    if shape.Some? then shape
    else if !c.keyOk(tx.unsigned.senderPublicKey) then Some(InvalidPublicKey)
    else if !c.signatureOk(tx) then Some(LedgerError.InvalidSignature)
    else None
  }

  /** `reward_for_supply`. */
  function RewardForSupply(supply: nat): Option<nat>
  {
    if supply >= MAX_SUPPLY_ATOMS then None
    else
      var band := supply / REWARD_BAND_ATOMS;
      var reward := REWARDS_KCOIN[if band < |REWARDS_KCOIN| then band else |REWARDS_KCOIN| - 1] * ATOMS_PER_KCOIN;
      var remaining := MAX_SUPPLY_ATOMS - supply;
      Some(if reward < remaining then reward else remaining)
  }

  function AccountOrDefault(accounts: map<Address, AccountState>, address: Address): AccountState
  {
    if address in accounts then accounts[address] else AccountState(0, 0, None)
  }

  function Genesis(chainId: string): Ledger
  {
    Ledger(chainId, 0, ZERO_HASH, 0, 0, 0, map[], {})
  }

  /** `state_root`. */
  function Commitment(l: Ledger): StateCommitment
  {
    StateCommitment(PROTOCOL_VERSION, l.chainId, l.height, l.lastBlockTimestampMs, l.totalSupplyAtoms,
      l.activeChallengeId, l.accounts, l.appliedTransactions)
  }

  function ActionFault(c: Crypto, l: Ledger, sender: AccountState, action: TransactionAction): Option<LedgerError>
  {
    match action
    case Transfer(_, amount) =>
      if amount == 0 then Some(ZeroAmount)
      else if sender.balanceAtoms < amount then Some(InsufficientBalance(sender.balanceAtoms, amount))
      else None
    case ClaimReward(challengeId, answer) =>
      var reward := RewardForSupply(l.totalSupplyAtoms);
      if challengeId != l.activeChallengeId then Some(StaleChallenge(l.activeChallengeId, challengeId))
      else if answer != c.challengeAnswer(l.activeChallengeId) then Some(WrongChallengeAnswer)
      else if reward.None? then Some(SupplyExhausted)
      else if CheckedAdd(sender.balanceAtoms, reward.value).None? || CheckedAdd(l.activeChallengeId, 1).None?
      then Some(ArithmeticOverflow)
      else None
    case SetDisplayName(name) => DisplayNameFault(c, name)
  }

  /** `validate_transaction`, as the fault it reports. */
  function TransactionFault(c: Crypto, l: Ledger, tx: SignedTransaction, executionHeight: nat): Option<LedgerError>
  {
    var u := tx.unsigned;
    var signature := SignatureFault(c, tx);
    var sender := AccountOrDefault(l.accounts, c.addressOf(u.senderPublicKey));
    if signature.Some? then signature
    else if u.chainId != l.chainId then Some(LedgerError.WrongChain(l.chainId, u.chainId))
    else if c.transactionId(tx) in l.appliedTransactions then Some(DuplicateTransaction)
    else if u.expiryHeight < executionHeight then Some(Expired(u.expiryHeight, executionHeight))
    else if u.nonce != sender.nextNonce then Some(NonceMismatch(sender.nextNonce, u.nonce))
    else if CheckedAdd(sender.nextNonce, 1).None? then Some(ArithmeticOverflow)
    else ActionFault(c, l, sender, u.action)
  }

  function Validate(c: Crypto, l: Ledger, tx: SignedTransaction, executionHeight: nat): Result<ValidatedTransaction, LedgerError>
  {
    var fault := TransactionFault(c, l, tx, executionHeight);
    if fault.Some? then Err(fault.value)
    else Ok(ValidatedTransaction(c.transactionId(tx), c.addressOf(tx.unsigned.senderPublicKey)))
  }

  /** The effect of an action on everything but the nonce and the set of applied ids. */
  function Perform(l: Ledger, sender: Address, action: TransactionAction): Result<(Ledger, TransactionOutcome), LedgerError>
  {
    var account := AccountOrDefault(l.accounts, sender);
    match action
    case Transfer(recipient, amount) =>
      var receiver := AccountOrDefault(l.accounts, recipient);
      if recipient == sender then Ok((l.(accounts := l.accounts[sender := account]), Transferred(recipient, amount)))
      else if CheckedAdd(receiver.balanceAtoms, amount).None? || account.balanceAtoms < amount then Err(ArithmeticOverflow)
      else
        Ok((l.(accounts := l.accounts
            [recipient := receiver.(balanceAtoms := receiver.balanceAtoms + amount)]
            [sender := account.(balanceAtoms := account.balanceAtoms - amount)]),
          Transferred(recipient, amount)))
    case ClaimReward(challengeId, _) =>
      var reward := RewardForSupply(l.totalSupplyAtoms);
      if reward.None? then Err(SupplyExhausted)
      else if CheckedAdd(account.balanceAtoms, reward.value).None? || CheckedAdd(l.totalSupplyAtoms, reward.value).None?
        || CheckedAdd(l.activeChallengeId, 1).None?
      then Err(ArithmeticOverflow)
      else
        Ok((l.(totalSupplyAtoms := l.totalSupplyAtoms + reward.value,
               activeChallengeId := l.activeChallengeId + 1,
               accounts := l.accounts[sender := account.(balanceAtoms := account.balanceAtoms + reward.value)]),
          RewardClaimed(challengeId, reward.value)))
    case SetDisplayName(name) =>
      Ok((l.(accounts := l.accounts[sender := account.(displayName := name)]), DisplayNameUpdated(name)))
  }

  /** `apply_transaction`. */
  function Apply(c: Crypto, l: Ledger, tx: SignedTransaction, executionHeight: nat):
    Result<(Ledger, TransactionReceipt), LedgerError>
  {
    match Validate(c, l, tx, executionHeight)
    case Err(error) => Err(error)
    case Ok(validated) =>
      match Perform(l, validated.sender, tx.unsigned.action)
      case Err(error) => Err(error)
      case Ok((moved, outcome)) =>
        var account := AccountOrDefault(moved.accounts, validated.sender);
        Ok((moved.(
              accounts := moved.accounts[validated.sender := account.(nextNonce := account.nextNonce + 1)],
              appliedTransactions := moved.appliedTransactions + {validated.id}),
            TransactionReceipt(validated.id, validated.sender, tx.unsigned.nonce, outcome)))
  }

  /** Transactions one after the other, stopping at the first that fails. */
  function ApplyAll(c: Crypto, l: Ledger, txs: seq<SignedTransaction>, executionHeight: nat):
    Result<(Ledger, seq<TransactionReceipt>), LedgerError>
  {
    if txs == [] then Ok((l, []))
    else
      match ApplyAll(c, l, txs[..|txs| - 1], executionHeight)
      case Err(error) => Err(error)
      case Ok((before, receipts)) =>
        match Apply(c, before, txs[|txs| - 1], executionHeight)
        case Err(error) => Err(error)
        case Ok((after, receipt)) => Ok((after, receipts + [receipt]))
  }

  // ---------------------------------------------------------------- blocks

  function TransactionIds(c: Crypto, txs: seq<SignedTransaction>): (ids: seq<Hash>)
    ensures |ids| == |txs|
  {
    seq<Hash>(|txs|, i requires 0 <= i < |txs| => c.transactionId(txs[i]))
  }

  /** Lengths of the Borsh encodings: fixed-width numbers and hashes, length-prefixed strings and lists. */
  function ActionSize(c: Crypto, action: TransactionAction): nat
  {
    match action
    case Transfer(_, _) => 1 + 20 + 8
    case ClaimReward(_, _) => 1 + 8 + 2
    case SetDisplayName(None) => 1 + 1
    case SetDisplayName(Some(name)) => 1 + 1 + 4 + c.nameBytes(name)
  }

  function TransactionSize(c: Crypto, tx: SignedTransaction): nat
  {
    2 + (4 + |tx.unsigned.chainId|) + 32 + 8 + 8 + ActionSize(c, tx.unsigned.action) + 64
  }

  function TransactionsSize(c: Crypto, txs: seq<SignedTransaction>): nat
  {
    if txs == [] then 0 else TransactionsSize(c, txs[..|txs| - 1]) + TransactionSize(c, txs[|txs| - 1])
  }

  function BlockSize(c: Crypto, b: LedgerBlock): nat
  {
    2 + (4 + |b.header.chainId|) + 8 + 32 + 32 + 4 + 8 + 32 + 32 + (4 + TransactionsSize(c, b.transactions))
  }

  function TransactionsRoot(c: Crypto, txs: seq<SignedTransaction>): Hash
  {
    MerkleRoot(c.merkle, TransactionIds(c, txs))
  }

  /** `Block::validate_commitments`. */
  function CommitmentsFault(c: Crypto, b: LedgerBlock): Option<LedgerError>
  {
    if BlockSize(c, b) > MAX_BLOCK_BYTES then Some(PayloadTooLarge)
    else if b.header.protocolVersion != PROTOCOL_VERSION
    then Some(LedgerError.UnsupportedProtocolVersion(PROTOCOL_VERSION, b.header.protocolVersion))
    else if !ChainIdValid(b.header.chainId) then Some(LedgerError.InvalidChainId)
    else if TransactionsRoot(c, b.transactions) != b.header.transactionsRoot then Some(InvalidTransactionsRoot)
    else None
  }

  function Max(a: nat, b: nat): nat { if a < b then b else a }

  function Min(a: nat, b: nat): nat { if a < b then a else b }

  function NormalizedTimestamp(l: Ledger, requestedMs: nat): nat
  {
    if l.height == 0 then Min(requestedMs, MAX_BLOCK_TIMESTAMP_MS)
    else
      Min(Min(Max(requestedMs, l.lastBlockTimestampMs),
              SaturatingAdd(l.lastBlockTimestampMs, MAX_BLOCK_TIMESTAMP_STEP_MS, U64_MAX)),
          MAX_BLOCK_TIMESTAMP_MS)
  }

  predicate TimestampAllowed(l: Ledger, timestampMs: nat)
  {
    && timestampMs <= MAX_BLOCK_TIMESTAMP_MS
    && (l.height > 0 ==>
          l.lastBlockTimestampMs <= timestampMs
          <= SaturatingAdd(l.lastBlockTimestampMs, MAX_BLOCK_TIMESTAMP_STEP_MS, U64_MAX))
  }

  /** `build_block`. */
  function BuildBlock(c: Crypto, l: Ledger, proposer: ValidatorId, round: nat, timestampMs: nat, txs: seq<SignedTransaction>):
    Result<LedgerBlock, LedgerError>
  {
    if CheckedAdd(l.height, 1).None? then Err(ArithmeticOverflow)
    else
      var timestamp := NormalizedTimestamp(l, timestampMs);
      match ApplyAll(c, l, txs, l.height + 1)
      case Err(error) => Err(error)
      case Ok((executed, _)) =>
        var candidate := executed.(height := l.height + 1, lastBlockTimestampMs := timestamp);
        Ok(LedgerBlock(
          BlockHeader(PROTOCOL_VERSION, l.chainId, l.height + 1, l.tipHash, proposer, round, timestamp,
            TransactionsRoot(c, txs), c.stateRoot(Commitment(candidate))),
          txs))
  }

  function HeaderFault(l: Ledger, h: BlockHeader): Option<LedgerError>
  {
    if h.chainId != l.chainId then Some(LedgerError.WrongChain(l.chainId, h.chainId))
    else if CheckedAdd(l.height, 1).None? then Some(ArithmeticOverflow)
    else if h.height != l.height + 1 then Some(InvalidBlockHeight(l.height + 1, h.height))
    else if h.parentHash != l.tipHash then Some(InvalidParentHash)
    else if !TimestampAllowed(l, h.timestampMs) then Some(InvalidTimestamp)
    else None
  }

  /** `apply_block`. */
  function ApplyBlock(c: Crypto, l: Ledger, b: LedgerBlock): Result<(Ledger, seq<TransactionReceipt>), LedgerError>
  {
    var commitments := CommitmentsFault(c, b);
    var header := HeaderFault(l, b.header);
    if commitments.Some? then Err(commitments.value)
    else if header.Some? then Err(header.value)
    else
      match ApplyAll(c, l, b.transactions, b.header.height)
      case Err(error) => Err(error)
      case Ok((executed, receipts)) =>
        var candidate := executed.(height := b.header.height, lastBlockTimestampMs := b.header.timestampMs);
        if c.stateRoot(Commitment(candidate)) != b.header.stateRoot then Err(InvalidStateRoot)
        else Ok((candidate.(tipHash := c.blockId(b.header)), receipts))
  }

  // ---------------------------------------------------------------- replay

  /** Blocks one after the other on top of a ledger. */
  function ReplayFrom(c: Crypto, l: Ledger, blocks: seq<LedgerBlock>): Result<Ledger, LedgerError>
  {
    if blocks == [] then Ok(l)
    else
      match ReplayFrom(c, l, blocks[..|blocks| - 1])
      case Err(error) => Err(error)
      case Ok(before) =>
        match ApplyBlock(c, before, blocks[|blocks| - 1])
        case Err(error) => Err(error)
        case Ok((after, _)) => Ok(after)
  }

  /** `replay_blocks`. */
  function Replay(c: Crypto, chainId: string, blocks: seq<LedgerBlock>): Result<Ledger, LedgerError>
  {
    ReplayFrom(c, Genesis(chainId), blocks)
  }

  /** `commit.rs` reduces height and round before adding them, so nothing can overflow. */
  function ExpectedProposer(validators: seq<ValidatorId>, height: nat, round: nat): ValidatorId
    requires |validators| > 0
  {
    validators[(SaturatingSub(height, 1) % |validators| + round % |validators|) % |validators|]
  }

  /** `verify_for_block`, for certificates that `verify` accepts. */
  ghost predicate CertifiesBlock(
    c: Crypto, certificate: Certificates.ProtocolCertificate, b: LedgerBlock, validators: seq<ValidatorId>, genuine: SignedVote -> bool)
  {
    && certificate.chainId == b.header.chainId
    && certificate.height == b.header.height
    && certificate.blockHash == c.blockId(b.header)
    && certificate.round >= b.header.round
    && |validators| > 0
    && b.header.proposer == ExpectedProposer(validators, b.header.height, b.header.round)
    && Certificates.Verified(certificate, validators, genuine)
  }
}
