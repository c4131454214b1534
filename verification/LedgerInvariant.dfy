/** What every transaction keeps: conservation, the issuance schedule and the nonce count. */
module LedgerInvariant {
  import opened Wrappers
  import opened ConsensusTypes
  import opened LedgerSpec
  import opened Merkle

  // ---------------------------------------------------------------- issuance

  const CLAIMS_TO_CAP: nat := 7_400

  /** Supply after a number of successful claims, in closed form: bands of 200, 400, 800, 2000, 4000 claims. */
  function SupplyAfter(claims: nat): nat
  {
    ATOMS_PER_KCOIN *
    (if claims <= 200 then 100 * claims
     else if claims <= 600 then 20_000 + 50 * (claims - 200)
     else if claims <= 1_400 then 40_000 + 25 * (claims - 600)
     else if claims <= 3_400 then 60_000 + 10 * (claims - 1_400)
     else if claims <= CLAIMS_TO_CAP then 80_000 + 5 * (claims - 3_400)
     else 100_000)
  }

  function BandAt(claims: nat): nat
  {
    if claims < 200 then 0 else if claims < 600 then 1 else if claims < 1_400 then 2 else if claims < 3_400 then 3 else 4
  }

  /** The reward follows the schedule to the last atom, and the clamp to the remaining supply never bites. */
  lemma RewardFollowsSchedule(claims: nat)
    ensures claims < CLAIMS_TO_CAP ==>
      && RewardForSupply(SupplyAfter(claims)) == Some(REWARDS_KCOIN[BandAt(claims)] * ATOMS_PER_KCOIN)
      && SupplyAfter(claims + 1) == SupplyAfter(claims) + REWARDS_KCOIN[BandAt(claims)] * ATOMS_PER_KCOIN
    ensures claims >= CLAIMS_TO_CAP <==> RewardForSupply(SupplyAfter(claims)).None?
    ensures SupplyAfter(claims) == MAX_SUPPLY_ATOMS <==> claims >= CLAIMS_TO_CAP
    ensures SupplyAfter(claims) <= MAX_SUPPLY_ATOMS
  {
    if claims < CLAIMS_TO_CAP {
      assert SupplyAfter(claims) / REWARD_BAND_ATOMS == BandAt(claims);
    }
  }

  // ---------------------------------------------------------------- sums over accounts

  ghost function Total(accounts: map<Address, AccountState>, measure: AccountState -> nat): nat
    decreases |accounts|
  {
    if accounts == map[] then 0
    else
      var address :| address in accounts;
      measure(accounts[address]) + Total(accounts - {address}, measure)
  }

  /** The sum may be taken in any order. */
  lemma {:induction false} TotalSplit(accounts: map<Address, AccountState>, measure: AccountState -> nat, address: Address)
    requires address in accounts
    ensures Total(accounts, measure) == measure(accounts[address]) + Total(accounts - {address}, measure)
    decreases |accounts|
  {
    var first :| first in accounts
      && Total(accounts, measure) == measure(accounts[first]) + Total(accounts - {first}, measure);
    if first != address {
      var both := accounts - {first} - {address};
      assert both == accounts - {address} - {first};
      TotalSplit(accounts - {first}, measure, address);
      TotalSplit(accounts - {address}, measure, first);
    }
  }

  lemma TotalUpdate(accounts: map<Address, AccountState>, measure: AccountState -> nat, address: Address, account: AccountState)
    requires measure(AccountState(0, 0, None)) == 0
    ensures Total(accounts[address := account], measure) + measure(AccountOrDefault(accounts, address))
      == Total(accounts, measure) + measure(account)
  {
    var updated := accounts[address := account];
    TotalSplit(updated, measure, address);
    if address in accounts {
      TotalSplit(accounts, measure, address);
      assert updated - {address} == accounts - {address};
    } else {
      assert updated - {address} == accounts;
    }
  }

  /** Two accounts hold no more than everyone together. */
  lemma TwoOfTotal(accounts: map<Address, AccountState>, measure: AccountState -> nat, a: Address, b: Address)
    requires a != b && measure(AccountState(0, 0, None)) == 0
    ensures measure(AccountOrDefault(accounts, a)) + measure(AccountOrDefault(accounts, b)) <= Total(accounts, measure)
  {
    if a in accounts {
      TotalSplit(accounts, measure, a);
      if b in accounts {
        TotalSplit(accounts - {a}, measure, b);
      }
    } else if b in accounts {
      TotalSplit(accounts, measure, b);
    }
  }

  function Balance(account: AccountState): nat { account.balanceAtoms }

  function Nonce(account: AccountState): nat { account.nextNonce }

  // ---------------------------------------------------------------- the invariant

  /** Holds of every ledger that starts at genesis and applies transactions and blocks. */
  ghost predicate Sound(l: Ledger)
  {
    && ChainIdValid(l.chainId)
    && Total(l.accounts, Balance) == l.totalSupplyAtoms
    && l.activeChallengeId <= CLAIMS_TO_CAP
    && l.totalSupplyAtoms == SupplyAfter(l.activeChallengeId)
    && Total(l.accounts, Nonce) == |l.appliedTransactions|
    && l.lastBlockTimestampMs <= MAX_BLOCK_TIMESTAMP_MS
  }

  lemma GenesisSound(chainId: string)
    requires ChainIdValid(chainId)
    ensures Sound(Genesis(chainId))
  {
  }

  /** On a sound ledger no checked addition of balances or supply can fail after validation. */
  lemma PerformSucceeds(c: Crypto, l: Ledger, tx: SignedTransaction, height: nat)
    requires Sound(l) && Validate(c, l, tx, height).Ok?
    ensures Perform(l, c.addressOf(tx.unsigned.senderPublicKey), tx.unsigned.action).Ok?
  {
    hide SupplyAfter;
    RewardFollowsSchedule(l.activeChallengeId);
    var sender := c.addressOf(tx.unsigned.senderPublicKey);
    if tx.unsigned.action.Transfer? && tx.unsigned.action.recipient != sender {
      TwoOfTotal(l.accounts, Balance, sender, tx.unsigned.action.recipient);
    }
  }

  /** Writing one account changes both sums by what changes in that account. */
  lemma WriteAccount(accounts: map<Address, AccountState>, address: Address, account: AccountState)
    ensures Total(accounts[address := account], Balance) + AccountOrDefault(accounts, address).balanceAtoms
      == Total(accounts, Balance) + account.balanceAtoms
    ensures Total(accounts[address := account], Nonce) + AccountOrDefault(accounts, address).nextNonce
      == Total(accounts, Nonce) + account.nextNonce
  {
    TotalUpdate(accounts, Balance, address, account);
    TotalUpdate(accounts, Nonce, address, account);
  }

  /** What an action does to the two sums and to the schedule. */
  lemma PerformConserves(l: Ledger, sender: Address, action: TransactionAction)
    requires Sound(l) && Perform(l, sender, action).Ok?
    ensures var moved := Perform(l, sender, action).value.0;
      && Total(moved.accounts, Balance) == moved.totalSupplyAtoms
      && moved.activeChallengeId <= CLAIMS_TO_CAP
      && moved.totalSupplyAtoms == SupplyAfter(moved.activeChallengeId)
      && Total(moved.accounts, Nonce) == Total(l.accounts, Nonce)
      && moved.(totalSupplyAtoms := l.totalSupplyAtoms, activeChallengeId := l.activeChallengeId, accounts := l.accounts) == l
  {
    hide SupplyAfter, Total, RewardForSupply, ChainIdValid;
    RewardFollowsSchedule(l.activeChallengeId);
    var account := AccountOrDefault(l.accounts, sender);
    match action
    case Transfer(recipient, amount) =>
      if recipient == sender {
        WriteAccount(l.accounts, sender, account);
      } else {
        var receiver := AccountOrDefault(l.accounts, recipient);
        var credited := receiver.(balanceAtoms := receiver.balanceAtoms + amount);
        WriteAccount(l.accounts, recipient, credited);
        WriteAccount(l.accounts[recipient := credited], sender, account.(balanceAtoms := account.balanceAtoms - amount));
      }
    case ClaimReward(_, _) =>
      var reward := RewardForSupply(l.totalSupplyAtoms).value;
      WriteAccount(l.accounts, sender, account.(balanceAtoms := account.balanceAtoms + reward));
    case SetDisplayName(name) =>
      WriteAccount(l.accounts, sender, account.(displayName := name));
  }

  /** Validation is complete: on a sound ledger it passes exactly when application does. */
  lemma ValidateIffApply(c: Crypto, l: Ledger, tx: SignedTransaction, height: nat)
    requires Sound(l)
    ensures Validate(c, l, tx, height).Ok? <==> Apply(c, l, tx, height).Ok?
    ensures Validate(c, l, tx, height).Err? ==> Apply(c, l, tx, height) == Err(Validate(c, l, tx, height).error)
  {
    hide Sound, Validate, Perform;
    if Validate(c, l, tx, height).Ok? {
      PerformSucceeds(c, l, tx, height);
      ValidatedParts(c, l, tx, height);
    }
  }

  lemma ValidatedParts(c: Crypto, l: Ledger, tx: SignedTransaction, height: nat)
    requires Validate(c, l, tx, height).Ok?
    ensures Validate(c, l, tx, height).value
      == ValidatedTransaction(c.transactionId(tx), c.addressOf(tx.unsigned.senderPublicKey))
    ensures c.transactionId(tx) !in l.appliedTransactions
    ensures height <= tx.unsigned.expiryHeight
    ensures tx.unsigned.nonce == AccountOrDefault(l.accounts, c.addressOf(tx.unsigned.senderPublicKey)).nextNonce
  {
  }

  lemma ApplyKeepsSound(c: Crypto, l: Ledger, tx: SignedTransaction, height: nat)
    requires Sound(l) && Apply(c, l, tx, height).Ok?
    ensures var after := Apply(c, l, tx, height).value.0;
      && Sound(after)
      && after.chainId == l.chainId && after.height == l.height && after.tipHash == l.tipHash
      && after.lastBlockTimestampMs == l.lastBlockTimestampMs
      && after.appliedTransactions == l.appliedTransactions + {c.transactionId(tx)}
      && c.transactionId(tx) !in l.appliedTransactions
  {
    hide Validate, Perform, SupplyAfter;
    ValidatedParts(c, l, tx, height);
    var sender := c.addressOf(tx.unsigned.senderPublicKey);
    PerformConserves(l, sender, tx.unsigned.action);
    var moved := Perform(l, sender, tx.unsigned.action).value.0;
    var account := AccountOrDefault(moved.accounts, sender);
    var counted := account.(nextNonce := account.nextNonce + 1);
    TotalUpdate(moved.accounts, Balance, sender, counted);
    TotalUpdate(moved.accounts, Nonce, sender, counted);
  }

  /** A list that applies is duplicate-free and new, and its ids are exactly what is added. */
  lemma {:induction false} ApplyAllKeepsSound(c: Crypto, l: Ledger, txs: seq<SignedTransaction>, height: nat)
    requires Sound(l) && ApplyAll(c, l, txs, height).Ok?
    ensures var after := ApplyAll(c, l, txs, height).value.0;
      && Sound(after)
      && after.chainId == l.chainId && after.height == l.height && after.tipHash == l.tipHash
      && after.lastBlockTimestampMs == l.lastBlockTimestampMs
      && Distinct(TransactionIds(c, txs))
      && (forall id :: id in TransactionIds(c, txs) ==> id !in l.appliedTransactions)
      && (forall id :: id in after.appliedTransactions <==> id in l.appliedTransactions || id in TransactionIds(c, txs))
      && |after.appliedTransactions| == |l.appliedTransactions| + |txs|
    decreases |txs|
  {
    hide Sound, Apply;
    if txs != [] {
      var init, last := txs[..|txs| - 1], txs[|txs| - 1];
      ApplyAllKeepsSound(c, l, init, height);
      var before := ApplyAll(c, l, init, height).value.0;
      ApplyKeepsSound(c, before, last, height);
      assert TransactionIds(c, txs) == TransactionIds(c, init) + [c.transactionId(last)];
    }
  }

  /** What an accepted transaction costs and yields its sender, and what it pays a given address. */
  function Debit(tx: SignedTransaction): nat
  {
    if tx.unsigned.action.Transfer? then tx.unsigned.action.amountAtoms else 0
  }

  function Credit(c: Crypto, l: Ledger, tx: SignedTransaction, address: Address): nat
  {
    match tx.unsigned.action
    case Transfer(recipient, amount) => if recipient == address then amount else 0
    case ClaimReward(_, _) =>
      if c.addressOf(tx.unsigned.senderPublicKey) == address && RewardForSupply(l.totalSupplyAtoms).Some?
      then RewardForSupply(l.totalSupplyAtoms).value else 0
    case SetDisplayName(_) => 0
  }

  /**
   * Every account after a transaction: the sender's nonce advances, debits and credits balance also
   * when sender and recipient are the same, names change only by their owner, and nobody else is
   * touched.
   */
  lemma ApplyMovesValue(c: Crypto, l: Ledger, tx: SignedTransaction, height: nat, address: Address)
    requires Apply(c, l, tx, height).Ok?
    ensures var sender := c.addressOf(tx.unsigned.senderPublicKey);
      var was := AccountOrDefault(l.accounts, address);
      var now := AccountOrDefault(Apply(c, l, tx, height).value.0.accounts, address);
      && now.balanceAtoms + (if address == sender then Debit(tx) else 0) == was.balanceAtoms + Credit(c, l, tx, address)
      && now.nextNonce == was.nextNonce + (if address == sender then 1 else 0)
      && now.displayName == (if address == sender && tx.unsigned.action.SetDisplayName?
                             then tx.unsigned.action.displayName else was.displayName)
  {
    hide TransactionFault, RewardForSupply;
    ValidatedParts(c, l, tx, height);
  }

  function SentBy(c: Crypto, txs: seq<SignedTransaction>, address: Address): nat
  {
    if txs == [] then 0
    else
      SentBy(c, txs[..|txs| - 1], address)
      + if c.addressOf(txs[|txs| - 1].unsigned.senderPublicKey) == address then 1 else 0
  }

  /** A sender's nonces are used one after the other: the next nonce counts the transactions sent. */
  lemma {:induction false} NoncesCountTransactions(c: Crypto, l: Ledger, txs: seq<SignedTransaction>, height: nat, address: Address)
    requires ApplyAll(c, l, txs, height).Ok?
    ensures AccountOrDefault(ApplyAll(c, l, txs, height).value.0.accounts, address).nextNonce
      == AccountOrDefault(l.accounts, address).nextNonce + SentBy(c, txs, address)
    ensures forall i :: 0 <= i < |txs| && c.addressOf(txs[i].unsigned.senderPublicKey) == address ==>
      txs[i].unsigned.nonce == AccountOrDefault(l.accounts, address).nextNonce + SentBy(c, txs[..i], address)
    decreases |txs|
  {
    hide Apply, AccountOrDefault;
    if txs != [] {
      var n := |txs| - 1;
      var init, last := txs[..n], txs[n];
      NoncesCountTransactions(c, l, init, height, address);
      var before := ApplyAll(c, l, init, height).value.0;
      ApplyMovesValue(c, before, last, height, address);
      ApplyUsesNonce(c, before, last, height);
      forall i | 0 <= i < |txs| && c.addressOf(txs[i].unsigned.senderPublicKey) == address
        ensures txs[i].unsigned.nonce == AccountOrDefault(l.accounts, address).nextNonce + SentBy(c, txs[..i], address)
      {
        if i < n {
          assert init[i] == txs[i] && init[..i] == txs[..i];
        }
      }
    }
  }

  lemma ApplyUsesNonce(c: Crypto, l: Ledger, tx: SignedTransaction, height: nat)
    requires Apply(c, l, tx, height).Ok?
    ensures tx.unsigned.nonce == AccountOrDefault(l.accounts, c.addressOf(tx.unsigned.senderPublicKey)).nextNonce
  {
    hide TransactionFault, Perform;
    ValidatedParts(c, l, tx, height);
  }
}
