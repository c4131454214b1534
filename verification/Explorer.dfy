/** The explorer index always says what the canonical history says. */
module Explorer {
  import opened Wrappers
  import opened ConsensusTypes
  import opened Merkle
  import opened LedgerSpec
  import opened LedgerInvariant
  import opened Blocks
  import opened ExplorerSpec

  // ---------------------------------------------------------------- receipts and transactions

  ghost predicate Describes(c: Crypto, tx: SignedTransaction, r: TransactionReceipt)
  {
    && r.transactionId == c.transactionId(tx)
    && r.outcome.RewardClaimed? == tx.unsigned.action.ClaimReward?
    && forall height: nat, index: nat :: RowOfReceipt(r, height, index) == RowFor(c, tx, height, index)
  }

  lemma ReceiptDescribes(c: Crypto, l: Ledger, tx: SignedTransaction, height: nat)
    requires Sound(l) && Apply(c, l, tx, height).Ok?
    ensures Describes(c, tx, Apply(c, l, tx, height).value.1)
  {
    hide SupplyAfter, Total;
    RewardFollowsSchedule(l.activeChallengeId);
    ClaimIsActive(c, l, tx, height);
    hide TransactionFault;
    ValidatedParts(c, l, tx, height);
  }

  lemma ClaimIsActive(c: Crypto, l: Ledger, tx: SignedTransaction, height: nat)
    requires Validate(c, l, tx, height).Ok?
    ensures tx.unsigned.action.ClaimReward? ==>
      tx.unsigned.action.challengeId == l.activeChallengeId && RewardForSupply(l.totalSupplyAtoms).Some?
  {
  }

  lemma {:induction false} ReceiptsDescribe(c: Crypto, l: Ledger, txs: seq<SignedTransaction>, height: nat)
    requires Sound(l) && ApplyAll(c, l, txs, height).Ok?
    ensures var receipts := ApplyAll(c, l, txs, height).value.1;
      |receipts| == |txs| && forall i :: 0 <= i < |txs| ==> Describes(c, txs[i], receipts[i])
    decreases |txs|
  {
    hide Sound, Apply, Describes;
    if txs != [] {
      var n := |txs| - 1;
      ReceiptsDescribe(c, l, txs[..n], height);
      ApplyAllKeepsSound(c, l, txs[..n], height);
      ReceiptDescribes(c, ApplyAll(c, l, txs[..n], height).value.0, txs[n], height);
    }
  }

  lemma {:induction false} ActivityCounts(c: Crypto, txs: seq<SignedTransaction>, receipts: seq<TransactionReceipt>, address: Address)
    requires |receipts| == |txs| && forall i :: 0 <= i < |txs| ==> Describes(c, txs[i], receipts[i])
    ensures ReceiptActivity(receipts, address) == CountTouching(c, txs, address)
    decreases |txs|
  {
    if txs != [] {
      var n := |txs| - 1;
      assert Describes(c, txs[n], receipts[n]);
      MentionsTouch(c, txs[n], receipts[n], address);
      hide Describes;
      ActivityCounts(c, txs[..n], receipts[..n], address);
    }
  }

  lemma MentionsTouch(c: Crypto, tx: SignedTransaction, r: TransactionReceipt, address: Address)
    requires Describes(c, tx, r)
    ensures Mentions(RowOfReceipt(r, 0, 0), address) == if Touches(c, tx, address) then 1 else 0
  {
    assert RowOfReceipt(r, 0, 0) == RowFor(c, tx, 0, 0);
  }

  lemma RewardsAreClaims(c: Crypto, txs: seq<SignedTransaction>, receipts: seq<TransactionReceipt>)
    requires |receipts| == |txs| && forall i :: 0 <= i < |txs| ==> Describes(c, txs[i], receipts[i])
    ensures HasReward(receipts) <==> HasClaim(txs)
  {
    forall i | 0 <= i < |txs| ensures receipts[i].outcome.RewardClaimed? == txs[i].unsigned.action.ClaimReward? {
      assert Describes(c, txs[i], receipts[i]);
    }
  }

  // ---------------------------------------------------------------- accounts

  /** Accounts are never removed, and whoever a transaction touches has one from then on. */
  lemma ApplyGrows(c: Crypto, l: Ledger, tx: SignedTransaction, height: nat)
    requires Apply(c, l, tx, height).Ok?
    ensures var after := Apply(c, l, tx, height).value.0;
      && l.accounts.Keys <= after.accounts.Keys
      && (forall a :: Touches(c, tx, a) ==> a in after.accounts)
      && after.activeChallengeId == l.activeChallengeId + (if tx.unsigned.action.ClaimReward? then 1 else 0)
  {
    hide TransactionFault, RewardForSupply;
    ValidatedParts(c, l, tx, height);
  }

  lemma {:induction false} ApplyAllGrows(c: Crypto, l: Ledger, txs: seq<SignedTransaction>, height: nat)
    requires ApplyAll(c, l, txs, height).Ok?
    ensures var after := ApplyAll(c, l, txs, height).value.0;
      && l.accounts.Keys <= after.accounts.Keys
      && (forall a :: CountTouching(c, txs, a) > 0 ==> a in after.accounts)
      && l.activeChallengeId <= after.activeChallengeId
      && (!HasClaim(txs) ==> after.activeChallengeId == l.activeChallengeId)
    decreases |txs|
  {
    hide Apply, Touches;
    if txs != [] {
      var n := |txs| - 1;
      var init := txs[..n];
      ApplyAllGrows(c, l, init, height);
      ApplyGrows(c, ApplyAll(c, l, init, height).value.0, txs[n], height);
      if HasClaim(init) {
        var i :| 0 <= i < |init| && init[i].unsigned.action.ClaimReward?;
        assert txs[i] == init[i];
      }
    }
  }

  /** Whoever the history touches has an account. */
  lemma {:induction false} TouchedHaveAccounts(c: Crypto, chainId: string, blocks: seq<LedgerBlock>, a: Address)
    requires Replay(c, chainId, blocks).Ok? && HistoryCount(c, blocks, a) > 0
    ensures a in Replay(c, chainId, blocks).value.accounts
    decreases |blocks|
  {
    hide ApplyAll, CommitmentsFault, TimestampAllowed, CountTouching;
    if blocks != [] {
      var init, last := blocks[..|blocks| - 1], blocks[|blocks| - 1];
      var before := ReplayFrom(c, Genesis(chainId), init).value;
      ApplyAllGrows(c, before, last.transactions, last.header.height);
      if CountTouching(c, last.transactions, a) == 0 {
        TouchedHaveAccounts(c, chainId, init, a);
      }
    }
  }

  lemma AccountsAgree(
    c: Crypto, chainId: string, blocks: seq<LedgerBlock>, before: Ledger, block: LedgerBlock, after: Ledger,
    receipts: seq<TransactionReceipt>, rows: map<Address, AccountRow>)
    requires Replay(c, chainId, blocks) == Ok(before)
    requires forall a :: ReceiptActivity(receipts, a) == CountTouching(c, block.transactions, a)
    requires before.accounts.Keys <= after.accounts.Keys
    requires rows == AccountRows(c, blocks, before)
    ensures UpsertAccounts(rows, after, receipts) == AccountRows(c, blocks + [block], after)
  {
    hide Replay, ReceiptActivity, CountTouching, HistoryCount;
    forall a | a in after.accounts
      ensures (if a in rows then rows[a].transactionCount else 0) + ReceiptActivity(receipts, a) == HistoryCount(c, blocks + [block], a)
    {
      OneBlockMore(c, blocks, block, a);
      if a !in rows && HistoryCount(c, blocks, a) > 0 {
        TouchedHaveAccounts(c, chainId, blocks, a);
      }
    }
    SameRows(c, blocks + [block], after, receipts, rows);
  }

  lemma OneBlockMore(c: Crypto, blocks: seq<LedgerBlock>, block: LedgerBlock, a: Address)
    ensures HistoryCount(c, blocks + [block], a) == HistoryCount(c, blocks, a) + CountTouching(c, block.transactions, a)
  {
    hide CountTouching;
    assert (blocks + [block])[..|blocks|] == blocks;
  }

  lemma SameRows(c: Crypto, blocks: seq<LedgerBlock>, after: Ledger, receipts: seq<TransactionReceipt>, rows: map<Address, AccountRow>)
    requires rows.Keys <= after.accounts.Keys
    requires forall a :: a in after.accounts ==>
      (if a in rows then rows[a].transactionCount else 0) + ReceiptActivity(receipts, a) == HistoryCount(c, blocks, a)
    ensures UpsertAccounts(rows, after, receipts) == AccountRows(c, blocks, after)
  {
    hide ReceiptActivity, HistoryCount;
    var upserted, expected := UpsertAccounts(rows, after, receipts), AccountRows(c, blocks, after);
    assert upserted.Keys == expected.Keys;
    forall a | a in upserted ensures upserted[a] == expected[a] {}
  }

  // ---------------------------------------------------------------- transactions

  lemma {:induction false} UpsertLists(
    c: Crypto, rows: map<Hash, TransactionRow>, txs: seq<SignedTransaction>, receipts: seq<TransactionReceipt>, height: nat)
    requires |receipts| == |txs| && forall i :: 0 <= i < |txs| ==> Describes(c, txs[i], receipts[i])
    requires Distinct(TransactionIds(c, txs))
    ensures var after := UpsertTransactions(rows, receipts, height);
      && (forall k :: 0 <= k < |txs| ==>
            c.transactionId(txs[k]) in after && after[c.transactionId(txs[k])] == RowFor(c, txs[k], height, k))
      && (forall id :: id !in TransactionIds(c, txs) ==> (id in after <==> id in rows))
      && (forall id :: id !in TransactionIds(c, txs) && id in rows ==> after[id] == rows[id])
    decreases |txs|
  {
    hide Describes, RowFor, RowOfReceipt;
    if txs != [] {
      var n := |txs| - 1;
      var ids := TransactionIds(c, txs);
      assert TransactionIds(c, txs[..n]) == ids[..n];
      DescribedRow(c, txs[n], receipts[n], height, n);
      UpsertLists(c, rows, txs[..n], receipts[..n], height);
      var before, after := UpsertTransactions(rows, receipts[..n], height), UpsertTransactions(rows, receipts, height);
      assert after == before[ids[n] := RowFor(c, txs[n], height, n)];
      hide UpsertTransactions;
      forall k | 0 <= k < |txs|
        ensures c.transactionId(txs[k]) in after && after[c.transactionId(txs[k])] == RowFor(c, txs[k], height, k)
      {
        if k < n {
          assert ids[k] != ids[n] && txs[..n][k] == txs[k];
        }
      }
      forall id | id !in ids ensures id != ids[n] && id !in ids[..n] {
      }
    }
  }

  lemma DescribedRow(c: Crypto, tx: SignedTransaction, r: TransactionReceipt, height: nat, index: nat)
    requires Describes(c, tx, r)
    ensures r.transactionId == c.transactionId(tx) && RowOfReceipt(r, height, index) == RowFor(c, tx, height, index)
  {
  }

  /** The ids in the table are those that the ledger counts as applied. */
  lemma {:induction false} ListedAreApplied(c: Crypto, chainId: string, blocks: seq<LedgerBlock>, h: nat, k: nat)
    requires ChainIdValid(chainId) && Replay(c, chainId, blocks).Ok?
    requires h < |blocks| && k < |blocks[h].transactions|
    ensures c.transactionId(blocks[h].transactions[k]) in Replay(c, chainId, blocks).value.appliedTransactions
    decreases |blocks|
  {
    hide ApplyBlock, Sound;
    GenesisSound(chainId);
    var init, last := blocks[..|blocks| - 1], blocks[|blocks| - 1];
    ReplayKeepsSound(c, Genesis(chainId), init);
    ApplyBlockKeepsSound(c, ReplayFrom(c, Genesis(chainId), init).value, last);
    if h < |init| {
      ListedAreApplied(c, chainId, init, h, k);
    } else {
      assert TransactionIds(c, last.transactions)[k] == c.transactionId(last.transactions[k]);
    }
  }

  lemma TransactionsAgree(
    c: Crypto, chainId: string, blocks: seq<LedgerBlock>, before: Ledger, block: LedgerBlock,
    receipts: seq<TransactionReceipt>, rows: map<Hash, TransactionRow>)
    requires ChainIdValid(chainId) && Replay(c, chainId, blocks) == Ok(before)
    requires |receipts| == |block.transactions|
    requires forall i :: 0 <= i < |receipts| ==> Describes(c, block.transactions[i], receipts[i])
    requires Distinct(TransactionIds(c, block.transactions))
    requires forall id :: id in TransactionIds(c, block.transactions) ==> id !in before.appliedTransactions
    requires ListsTransactions(c, blocks, rows)
    ensures ListsTransactions(c, blocks + [block], UpsertTransactions(rows, receipts, |blocks| + 1))
  {
    hide Replay, Describes, RowFor;
    var txs, all := block.transactions, blocks + [block];
    var after := UpsertTransactions(rows, receipts, |blocks| + 1);
    UpsertLists(c, rows, txs, receipts, |blocks| + 1);
    hide UpsertTransactions;
    forall h, k | 0 <= h < |all| && 0 <= k < |all[h].transactions|
      ensures c.transactionId(all[h].transactions[k]) in after
        && after[c.transactionId(all[h].transactions[k])] == RowFor(c, all[h].transactions[k], h + 1, k)
    {
      if h < |blocks| {
        assert all[h] == blocks[h];
        ListedAreApplied(c, chainId, blocks, h, k);
      }
    }
    forall id | id in after
      ensures exists h, k :: 0 <= h < |all| && 0 <= k < |all[h].transactions| && c.transactionId(all[h].transactions[k]) == id
    {
      if id in TransactionIds(c, txs) {
        var k :| 0 <= k < |txs| && TransactionIds(c, txs)[k] == id;
        assert all[|blocks|] == block && c.transactionId(all[|blocks|].transactions[k]) == id;
      } else {
        var h, k :| 0 <= h < |blocks| && 0 <= k < |blocks[h].transactions| && c.transactionId(blocks[h].transactions[k]) == id;
        assert all[h] == blocks[h];
      }
    }
  }

  // ---------------------------------------------------------------- the step

  lemma ChallengeAgrees(
    blocks: seq<LedgerBlock>, stored: seq<LedgerBlock>, previous: Option<ChallengeRow>, before: Ledger, after: Ledger,
    block: LedgerBlock, receipts: seq<TransactionReceipt>)
    requires Sound(after) && after.height == |blocks| + 1
    requires HasReward(receipts) <==> HasClaim(block.transactions)
    requires !HasClaim(block.transactions) ==> after.activeChallengeId == before.activeChallengeId
    requires blocks == [] ==> before.activeChallengeId == 0 && previous.None?
    requires blocks != [] ==>
      && previous.Some?
      && previous.value.challengeId == before.activeChallengeId
      && previous.value.issuedAtHeight == LastClaimHeight(blocks)
    ensures NextChallenge(stored, previous, after, receipts) == ChallengeRow(after.activeChallengeId, LastClaimHeight(blocks + [block]),
      if after.activeChallengeId < CLAIMS_TO_CAP then REWARDS_KCOIN[BandAt(after.activeChallengeId)] * ATOMS_PER_KCOIN else 0)
  {
    assert (blocks + [block])[..|blocks|] == blocks;
    hide SupplyAfter, Total, HasReward, HasClaim, RewardForSupply;
    RewardFollowsSchedule(after.activeChallengeId);
  }

  /** One finalized block keeps the index in agreement, whatever part of the history is already stored. */
  lemma ProjectionAgrees(
    c: Crypto, chainId: string, blocks: seq<LedgerBlock>, before: Ledger, block: LedgerBlock, stored: seq<LedgerBlock>, index: Index)
    requires ChainIdValid(chainId) && Replay(c, chainId, blocks) == Ok(before)
    requires ApplyBlock(c, before, block).Ok?
    requires Agrees(c, blocks, before, index)
    ensures var (after, receipts) := ApplyBlock(c, before, block).value;
      Agrees(c, blocks + [block], after, Project(c, stored, index, after, block, receipts))
  {
    hide ApplyBlock, Replay, Sound, UpsertTransactions, UpsertAccounts, NextChallenge, ListsTransactions, AccountRows, Describes,
         TransactionIds, Distinct, HasClaim, HasReward, ReceiptActivity, CountTouching, LastClaimHeight, ChainIdValid;
    var (after, receipts) := ApplyBlock(c, before, block).value;
    BlockFacts(c, chainId, blocks, before, block);
    AllActivityCounts(c, block.transactions, receipts);
    AccountsAgree(c, chainId, blocks, before, block, after, receipts, index.accounts);
    TransactionsAgree(c, chainId, blocks, before, block, receipts, index.transactions);
    RewardsAreClaims(c, block.transactions, receipts);
    ChallengeAgrees(blocks, stored, index.challenge, before, after, block, receipts);
  }

  lemma AllActivityCounts(c: Crypto, txs: seq<SignedTransaction>, receipts: seq<TransactionReceipt>)
    requires |receipts| == |txs| && forall i :: 0 <= i < |txs| ==> Describes(c, txs[i], receipts[i])
    ensures forall a :: ReceiptActivity(receipts, a) == CountTouching(c, txs, a)
  {
    hide Describes, ReceiptActivity, CountTouching;
    forall a ensures ReceiptActivity(receipts, a) == CountTouching(c, txs, a) {
      ActivityCounts(c, txs, receipts, a);
    }
  }

  lemma BlockFacts(c: Crypto, chainId: string, blocks: seq<LedgerBlock>, before: Ledger, block: LedgerBlock)
    requires ChainIdValid(chainId) && Replay(c, chainId, blocks) == Ok(before) && ApplyBlock(c, before, block).Ok?
    ensures var (after, receipts) := ApplyBlock(c, before, block).value;
      && Sound(after) && after.height == |blocks| + 1 == block.header.height
      && after.tipHash == c.blockId(block.header) && c.stateRoot(Commitment(after)) == block.header.stateRoot
      && |receipts| == |block.transactions|
      && (forall i :: 0 <= i < |receipts| ==> Describes(c, block.transactions[i], receipts[i]))
      && Distinct(TransactionIds(c, block.transactions))
      && (forall id :: id in TransactionIds(c, block.transactions) ==> id !in before.appliedTransactions)
      && before.accounts.Keys <= after.accounts.Keys
      && (!HasClaim(block.transactions) ==> after.activeChallengeId == before.activeChallengeId)
      && (blocks == [] ==> before.activeChallengeId == 0)
  {
    GenesisSound(chainId);
    ReplayKeepsSound(c, Genesis(chainId), blocks);
    ApplyBlockKeepsSound(c, before, block);
    hide Sound, Describes, ApplyAll, CommitmentsFault, TimestampAllowed, TransactionIds, HasClaim, CountTouching;
    ReceiptsDescribe(c, before, block.transactions, block.header.height);
    ApplyAllGrows(c, before, block.transactions, block.header.height);
  }

  // ---------------------------------------------------------------- whole histories

  /** The index of a node that has finalized these blocks one after the other. */
  function LiveIndex(c: Crypto, chainId: string, blocks: seq<LedgerBlock>): Index
    requires Replay(c, chainId, blocks).Ok?
  {
    if blocks == [] then EMPTY
    else
      var init, last := blocks[..|blocks| - 1], blocks[|blocks| - 1];
      var (after, receipts) := ApplyBlock(c, ReplayFrom(c, Genesis(chainId), init).value, last).value;
      Project(c, init, LiveIndex(c, chainId, init), after, last, receipts)
  }

  /** After any finalized history the live index agrees with it. */
  lemma {:induction false} LiveIndexAgrees(c: Crypto, chainId: string, blocks: seq<LedgerBlock>)
    requires ChainIdValid(chainId) && Replay(c, chainId, blocks).Ok?
    ensures Agrees(c, blocks, Replay(c, chainId, blocks).value, LiveIndex(c, chainId, blocks))
    decreases |blocks|
  {
    hide ApplyBlock, Agrees, Project;
    if blocks == [] {
      NothingIndexed(c, chainId);
    } else {
      var init, last := blocks[..|blocks| - 1], blocks[|blocks| - 1];
      LiveIndexAgrees(c, chainId, init);
      ProjectionAgrees(c, chainId, init, ReplayFrom(c, Genesis(chainId), init).value, last, init, LiveIndex(c, chainId, init));
      assert blocks == init + [last];
    }
  }

  lemma NothingIndexed(c: Crypto, chainId: string)
    ensures Agrees(c, [], Genesis(chainId), EMPTY)
    ensures Replay(c, chainId, []) == Ok(Genesis(chainId))
  {
    assert AccountRows(c, [], Genesis(chainId)) == map[];
  }

  /** The history leaves no choice: two indexes that agree with it are the same, row for row. */
  lemma AgreeingIndexIsUnique(c: Crypto, blocks: seq<LedgerBlock>, l: Ledger, a: Index, b: Index)
    requires Agrees(c, blocks, l, a) && Agrees(c, blocks, l, b)
    ensures a == b
  {
    hide RowFor, AccountRows;
    forall id ensures id in a.transactions <==> id in b.transactions {
    }
    forall id | id in a.transactions ensures a.transactions[id] == b.transactions[id] {
      var h, k :| 0 <= h < |blocks| && 0 <= k < |blocks[h].transactions| && c.transactionId(blocks[h].transactions[k]) == id;
      assert a.transactions[id] == RowFor(c, blocks[h].transactions[k], h + 1, k);
    }
    assert a.transactions == b.transactions;
  }
}
