/**
 * The node's tables: the write-once signer store and the explorer index with its repair
 * (`crates/kcoin-node/src/storage.rs`, and `reindex_store` in `crates/kcoin-node/src/runtime.rs`). Each
 * SQL transaction is one atomic update.
 */
module Storage {
  import opened Wrappers
  import opened ConsensusTypes
  import opened Merkle
  import opened Protocol
  import Network
  import opened LedgerSpec
  import opened LedgerInvariant
  import opened LedgerMachine
  import opened Blocks
  import opened ExplorerSpec
  import opened Explorer

  // ---------------------------------------------------------------- signer rows

  /** A row of `signer_state`; height and message key are its slot. */
  datatype SignerRow = SignerRow(height: nat, decision: Decision, signature: Signature)

  /** The decisions of one height, oldest first, as `consensus_decisions` lists them. */
  function LogOf(rows: seq<SignerRow>, height: nat): seq<Decision>
  {
    if rows == [] then []
    else
      var rest := LogOf(rows[..|rows| - 1], height);
      var last := rows[|rows| - 1];
      if last.height == height then rest + [last.decision] else rest
  }

  lemma LogOfAppend(rows: seq<SignerRow>, row: SignerRow, height: nat)
    ensures LogOf(rows + [row], height) == LogOf(rows, height) + if row.height == height then [row.decision] else []
  {
    assert (rows + [row])[..|rows|] == rows;
  }

  /** A slot lookup in the table is the lookup in the log of its height. */
  lemma {:induction false} RowOfLog(rows: seq<SignerRow>, height: nat, key: DecisionKey)
    ensures Network.RowOf(LogOf(rows, height), key).None?
      <==> forall i :: 0 <= i < |rows| ==> rows[i].height != height || rows[i].decision.message.Key() != key
    ensures Network.RowOf(LogOf(rows, height), key).Some? ==>
      exists i :: 0 <= i < |rows| && rows[i].height == height && rows[i].decision == Network.RowOf(LogOf(rows, height), key).value
        && rows[i].decision.message.Key() == key
    decreases |rows|
  {
    if rows != [] {
      var init, last := rows[..|rows| - 1], rows[|rows| - 1];
      RowOfLog(init, height, key);
      var rest := LogOf(init, height);
      if last.height == height {
        assert LogOf(rows, height) == rest + [last.decision];
        assert (rest + [last.decision])[..|rest|] == rest;
      }
    }
  }

  ghost predicate SlotsDistinct(rows: seq<SignerRow>)
  {
    forall i, j :: 0 <= i < j < |rows| ==>
      rows[i].height != rows[j].height || rows[i].decision.message.Key() != rows[j].decision.message.Key()
  }

  // ---------------------------------------------------------------- block rows

  /** The columns of `blocks` that are copies of what the stored bytes say. */
  datatype BlockColumns = BlockColumns(
    hash: Hash,
    parentHash: Hash,
    stateRoot: Hash,
    proposer: ValidatorId,
    round: nat,
    timestampMs: nat,
    transactionCount: nat)

  datatype BlockRow = BlockRow(columns: BlockColumns, record: Certified)

  function ColumnsOf(c: Crypto, b: LedgerBlock): BlockColumns
  {
    BlockColumns(c.blockId(b.header), b.header.parentHash, b.header.stateRoot, b.header.proposer, b.header.round,
      b.header.timestampMs, |b.transactions|)
  }

  function RecordsOf(rows: seq<BlockRow>): (records: seq<Certified>)
    ensures |records| == |rows|
  {
    seq(|rows|, i requires 0 <= i < |rows| => rows[i].record)
  }

  /** `block_hash` is UNIQUE. */
  ghost predicate HashesUnique(rows: seq<BlockRow>)
  {
    forall i, j :: 0 <= i < j < |rows| ==> rows[i].columns.hash != rows[j].columns.hash
  }

  ghost predicate ColumnsRight(c: Crypto, rows: seq<BlockRow>)
  {
    forall i :: 0 <= i < |rows| ==> rows[i].columns == ColumnsOf(c, rows[i].record.block)
  }

  /** No later row carries the true hash of an earlier one. */
  ghost predicate NoStolenHash(c: Crypto, rows: seq<BlockRow>)
  {
    forall i, j :: 0 <= i < j < |rows| ==> rows[j].columns.hash != c.blockId(rows[i].record.block.header)
  }

  datatype StorageError =
    | ConflictingFinality(height: nat)
    | DuplicateHash(hash: Hash)
    | ConflictingSignature
    | ConflictingSafetyState
    | HistoryInvalid(reason: LedgerError)
    | ColumnsDisagree

  class Store {
    var signerState: seq<SignerRow>
    var consensusSafety: Option<(nat, SafetyState)>
    /** Rows in height order from 1; the key column is never rewritten. */
    var blocks: seq<BlockRow>
    var index: Index

    constructor ()
      ensures Valid() && signerState == [] && blocks == [] && index == EMPTY && consensusSafety == None
    {
      signerState, consensusSafety, blocks, index := [], None, [], EMPTY;
    }

    /** The safety cell always is the safety state of the latest decision at its height. */
    ghost predicate Valid()
      reads this
    {
      && SlotsDistinct(signerState)
      && HashesUnique(blocks)
      && (consensusSafety.Some? ==>
            var log := LogOf(signerState, consensusSafety.value.0);
            log != [] && log[|log| - 1].safety == consensusSafety.value.1)
    }

    /**
     * `persist_consensus_decision`: the table of each height behaves as the write-once log that the
     * protocol proofs assume, and an occupied slot returns the signature it was first written with.
     */
    method PersistConsensusDecision(height: nat, decision: Decision, signature: Signature)
      returns (r: Result<Signature, StorageError>)
      requires Valid()
      modifies this`signerState, this`consensusSafety
      ensures Valid()
      ensures r.Ok? <==> Network.PersistDecision(old(LogOf(signerState, height)), decision).Ok?
      ensures r.Ok? ==> Network.PersistDecision(old(LogOf(signerState, height)), decision) == Ok(LogOf(signerState, height))
      ensures forall other :: other != height ==> LogOf(signerState, other) == old(LogOf(signerState, other))
      ensures signerState == old(signerState) || signerState == old(signerState) + [SignerRow(height, decision, signature)]
      ensures signerState == old(signerState) ==> consensusSafety == old(consensusSafety)
      ensures signerState != old(signerState) ==> consensusSafety == Some((height, decision.safety))
      ensures r.Ok? ==> exists i :: 0 <= i < |signerState| && signerState[i] == SignerRow(height, decision, r.value)
    {
      var key := decision.message.Key();
      RowOfLog(signerState, height, key);
      for i := 0 to |signerState|
        invariant signerState == old(signerState) && consensusSafety == old(consensusSafety)
        invariant forall k :: 0 <= k < i ==> signerState[k].height != height || signerState[k].decision.message.Key() != key
      {
        if signerState[i].height == height && signerState[i].decision.message.Key() == key {
          if signerState[i].decision.message != decision.message {
            return Err(ConflictingSignature);
          }
          if signerState[i].decision.safety != decision.safety {
            return Err(ConflictingSafetyState);
          }
          return Ok(signerState[i].signature);
        }
      }
      var row := SignerRow(height, decision, signature);
      forall h ensures LogOf(signerState + [row], h) == LogOf(signerState, h) + if h == height then [decision] else [] {
        LogOfAppend(signerState, row, h);
      }
      signerState := signerState + [row];
      consensusSafety := Some((height, decision.safety));
      assert signerState[|signerState| - 1] == row;
      return Ok(signature);
    }

    // ---------------------------------------------------------------- finalized blocks

    /** Another row already holds the hash. */
    predicate HashTaken(hash: Hash, except: nat)
      reads this
    {
      exists j :: 0 <= j < |blocks| && j != except && blocks[j].columns.hash == hash
    }

    /** `persist_finalized`: the block row is written once, the index rows are replaced. */
    method PersistFinalized(c: Crypto, record: Certified, after: Ledger, receipts: seq<TransactionReceipt>)
      returns (error: Option<StorageError>)
      requires Valid() && 0 < record.block.header.height <= |blocks| + 1
      modifies this`blocks, this`index, this`consensusSafety
      ensures Valid()
      ensures error.Some? ==> blocks == old(blocks) && index == old(index) && consensusSafety == old(consensusSafety)
      ensures var height := record.block.header.height;
        error.None? <==>
          if height <= old(|blocks|) then old(blocks)[height - 1].columns.hash == c.blockId(record.block.header)
          else !old(HashTaken(c.blockId(record.block.header), height - 1))
      ensures error.None? ==>
        && blocks == (if record.block.header.height <= old(|blocks|) then old(blocks)
                      else old(blocks) + [BlockRow(ColumnsOf(c, record.block), record)])
        && index == Project(c, BlocksOf(RecordsOf(old(blocks))), old(index), after, record.block, receipts)
        && consensusSafety == (if old(consensusSafety).Some? && old(consensusSafety).value.0 == record.block.header.height
                               then None else old(consensusSafety))
    {
      hide UpsertAccounts, NextChallenge, RowOfReceipt;
      var height := record.block.header.height;
      var hash := c.blockId(record.block.header);
      if height <= |blocks| {
        if blocks[height - 1].columns.hash != hash {
          return Some(ConflictingFinality(height));
        }
      } else {
        if HashTaken(hash, height - 1) {
          return Some(DuplicateHash(hash));
        }
      }
      var rows := index.transactions;
      for i := 0 to |receipts|
        invariant rows == UpsertTransactions(index.transactions, receipts[..i], height)
      {
        assert receipts[..i + 1][..i] == receipts[..i];
        rows := rows[receipts[i].transactionId := RowOfReceipt(receipts[i], height, i)];
      }
      assert receipts[..|receipts|] == receipts;
      var stored := BlocksOf(RecordsOf(blocks));
      index := Index(
        UpsertAccounts(index.accounts, after, receipts),
        rows,
        Some(TipRow(height, hash, record.block.header.stateRoot, after.totalSupplyAtoms)),
        Some(NextChallenge(stored, index.challenge, after, receipts)));
      if height > |blocks| {
        blocks := blocks + [BlockRow(ColumnsOf(c, record.block), record)];
      }
      if consensusSafety.Some? && consensusSafety.value.0 == height {
        consensusSafety := None;
      }
      return None;
    }

    // ---------------------------------------------------------------- repair

    /**
     * `refresh_block_projection`: rewrite the derived columns of the row that holds exactly these
     * bytes. The uniqueness of hashes can refuse it.
     */
    method RefreshBlockProjection(c: Crypto, record: Certified) returns (error: Option<StorageError>)
      requires Valid()
      modifies this`blocks
      ensures Valid()
      ensures error.Some? ==> blocks == old(blocks)
      ensures var at := record.block.header.height - 1;
        && (error.None? <==> 0 <= at < |old(blocks)| && old(blocks)[at].record == record
                             && !old(HashTaken(c.blockId(record.block.header), at)))
        && (error.None? ==> blocks == old(blocks)[at := BlockRow(ColumnsOf(c, record.block), record)])
    {
      var height := record.block.header.height;
      if height == 0 || height > |blocks| || blocks[height - 1].record != record {
        return Some(ConflictingFinality(height));
      }
      if HashTaken(c.blockId(record.block.header), height - 1) {
        return Some(DuplicateHash(c.blockId(record.block.header)));
      }
      blocks := blocks[height - 1 := BlockRow(ColumnsOf(c, record.block), record)];
      return None;
    }

    method ClearProjections()
      requires Valid()
      modifies this`index
      ensures Valid() && index == EMPTY
    {
      index := EMPTY;
    }

    /** `verify_store`: replay every stored block and compare the derived columns. */
    method VerifyStore(c: Crypto, chainId: string, validators: seq<ValidatorId>, genuine: SignedVote -> bool)
      returns (r: Result<Ledger, StorageError>)
      ensures r.Ok? <==> ReplaysFinalized(c, chainId, RecordsOf(blocks), validators, genuine) && ColumnsRight(c, blocks)
      ensures r.Ok? ==> Ok(r.value) == Replay(c, chainId, BlocksOf(RecordsOf(blocks)))
    {
      hide ReplaysFinalized, Replay;
      var replayed := ReplayFinalizedBlocks(c, chainId, RecordsOf(blocks), validators, genuine);
      if replayed.Err? {
        return Err(HistoryInvalid(replayed.error));
      }
      for i := 0 to |blocks|
        invariant forall k :: 0 <= k < i ==> blocks[k].columns == ColumnsOf(c, blocks[k].record.block)
      {
        if blocks[i].columns != ColumnsOf(c, blocks[i].record.block) {
          return Err(ColumnsDisagree);
        }
      }
      return Ok(replayed.value);
    }

    /**
     * `reindex_store`: whatever the index tables and the derived columns hold, rebuilding them from
     * the canonical bytes brings back agreement with the history. It fails exactly when the history
     * itself is invalid or when a later row carries the true hash of an earlier one. Signer rows, and
     * the safety cell of the height in progress, are left alone.
     */
    method Reindex(c: Crypto, chainId: string, validators: seq<ValidatorId>, genuine: SignedVote -> bool)
      returns (r: Result<Ledger, StorageError>)
      requires Valid() && HashesBind(c) && ChainIdValid(chainId)
      modifies this`blocks, this`index, this`consensusSafety
      ensures Valid() && RecordsOf(blocks) == old(RecordsOf(blocks))
      ensures r.Ok? <==>
        && ReplaysFinalized(c, chainId, RecordsOf(old(blocks)), validators, genuine)
        && NoStolenHash(c, old(blocks))
      ensures !ReplaysFinalized(c, chainId, RecordsOf(old(blocks)), validators, genuine) ==> index == old(index) && blocks == old(blocks)
      ensures signerState == old(signerState) && CellKept(old(consensusSafety), consensusSafety, |old(blocks)|)
      ensures r.Ok? ==>
        && Ok(r.value) == Replay(c, chainId, BlocksOf(RecordsOf(blocks)))
        && ColumnsRight(c, blocks)
        && Agrees(c, BlocksOf(RecordsOf(blocks)), r.value, index)
    {
      hide ReplaysFinalized, HashesBind, ChainIdValid, HashesUnique, Progress;
      ghost var rows := blocks;
      var checked := ReplayFinalizedBlocks(c, chainId, RecordsOf(blocks), validators, genuine);
      if checked.Err? {
        return Err(HistoryInvalid(checked.error));
      }
      ClearProjections();
      var ledger := new LedgerState(chainId);
      NothingRebuilt(c, chainId, rows);
      for i := 0 to |blocks|
        invariant Valid() && fresh(ledger) && |blocks| == |rows|
        invariant RecordsOf(blocks) == RecordsOf(rows)
        invariant CellKept(old(consensusSafety), consensusSafety, |rows|)
        invariant Progress(c, chainId, rows, blocks, index, ledger.View(), i)
      {
        var error := RebuildBlock(c, chainId, validators, genuine, rows, i, ledger);
        if error.Some? {
          return Err(error.value);
        }
      }
      AllRebuilt(c, chainId, rows, blocks, index, ledger.View());
      r := VerifyStore(c, chainId, validators, genuine);
    }

    /** One turn of the rebuild: apply the block, repair its row, write its part of the index. */
    method RebuildBlock(
      c: Crypto, chainId: string, validators: seq<ValidatorId>, genuine: SignedVote -> bool,
      ghost rows: seq<BlockRow>, i: nat, ledger: LedgerState)
      returns (error: Option<StorageError>)
      requires Valid() && HashesBind(c) && ChainIdValid(chainId)
      requires ReplaysFinalized(c, chainId, RecordsOf(rows), validators, genuine)
      requires i < |blocks| && Progress(c, chainId, rows, blocks, index, ledger.View(), i)
      modifies this`blocks, this`index, this`consensusSafety, ledger
      ensures Valid() && RecordsOf(blocks) == old(RecordsOf(blocks))
      ensures error.None? ==> Progress(c, chainId, rows, blocks, index, ledger.View(), i + 1)
      ensures error.Some? ==> !NoStolenHash(c, rows)
      ensures CellKept(old(consensusSafety), consensusSafety, |rows|)
    {
      hide ReplaysFinalized, ReplayFrom, Agrees, Project, HashesBind, ChainIdValid, ApplyBlock, CertifiesBlock, HashesUnique;
      ghost var history := BlocksOf(RecordsOf(rows));
      var record := blocks[i].record;
      ghost var before := ledger.View();
      StepBlock(c, chainId, RecordsOf(rows), validators, genuine, i, before);
      var receipts := ledger.ApplyFinalizedBlock(c, record.block, record.certificate, validators, genuine);
      OnlyLaterRows(c, chainId, rows, blocks, validators, genuine, i);
      error := RefreshBlockProjection(c, record);
      if error.Some? {
        return;
      }
      ProjectionAgrees(c, chainId, history[..i], before, record.block, BlocksOf(RecordsOf(blocks)), index);
      assert history[..i] + [record.block] == history[..i + 1];
      error := PersistFinalized(c, record, ledger.View(), receipts.value);
    }
  }

  /** The safety cell is as it was, unless it belonged to a height that is already final. */
  ghost predicate CellKept(before: Option<(nat, SafetyState)>, after: Option<(nat, SafetyState)>, tip: nat)
  {
    after == before || (before.Some? && before.value.0 <= tip && after == None)
  }

  /** How far a rebuild has come: rows, replayed ledger and index up to `i`, and no conflict so far. */
  ghost predicate Progress(c: Crypto, chainId: string, rows: seq<BlockRow>, now: seq<BlockRow>, index: Index, l: Ledger, i: nat)
  {
    && Rebuilt(c, rows, now, i)
    && ReplayFrom(c, Genesis(chainId), BlocksOf(RecordsOf(rows))[..i]) == Ok(l)
    && Agrees(c, BlocksOf(RecordsOf(rows))[..i], l, index)
    && forall x, y :: 0 <= x < i && x < y < |rows| ==> rows[y].columns.hash != c.blockId(rows[x].record.block.header)
  }

  lemma NothingRebuilt(c: Crypto, chainId: string, rows: seq<BlockRow>)
    ensures Progress(c, chainId, rows, rows, EMPTY, Genesis(chainId), 0)
  {
    hide Agrees;
    EmptyAgrees(c, chainId);
  }

  lemma AllRebuilt(c: Crypto, chainId: string, rows: seq<BlockRow>, now: seq<BlockRow>, index: Index, l: Ledger)
    requires Progress(c, chainId, rows, now, index, l, |rows|)
    ensures ColumnsRight(c, now) && NoStolenHash(c, rows)
    ensures RecordsOf(now) == RecordsOf(rows)
    ensures Replay(c, chainId, BlocksOf(RecordsOf(now))) == Ok(l) && Agrees(c, BlocksOf(RecordsOf(now)), l, index)
  {
    hide ReplayFrom, Agrees, ColumnsOf;
    var history := BlocksOf(RecordsOf(rows));
    assert history[..|rows|] == history;
    assert RecordsOf(now) == RecordsOf(rows);
  }

  /** The rows below `i` have their columns rewritten; the others and all bytes are as they were. */
  ghost predicate Rebuilt(c: Crypto, rows: seq<BlockRow>, now: seq<BlockRow>, i: nat)
  {
    && |now| == |rows| && i <= |rows|
    && (forall k :: 0 <= k < |rows| ==> now[k].record == rows[k].record)
    && (forall k :: 0 <= k < i ==> now[k].columns == ColumnsOf(c, rows[k].record.block))
    && (forall k :: i <= k < |rows| ==> now[k] == rows[k])
  }

  lemma EmptyAgrees(c: Crypto, chainId: string)
    ensures Agrees(c, [], Genesis(chainId), EMPTY)
    ensures ReplayFrom(c, Genesis(chainId), []) == Ok(Genesis(chainId))
  {
    assert AccountRows(c, [], Genesis(chainId)) == map[];
  }

  /** The next block of a history that replays. */
  lemma StepBlock(
    c: Crypto, chainId: string, records: seq<Certified>, validators: seq<ValidatorId>, genuine: SignedVote -> bool, i: nat, before: Ledger)
    requires ChainIdValid(chainId) && i < |records| && ReplaysFinalized(c, chainId, records, validators, genuine)
    requires ReplayFrom(c, Genesis(chainId), BlocksOf(records)[..i]) == Ok(before)
    ensures CertifiesBlock(c, records[i].certificate, records[i].block, validators, genuine)
    ensures ApplyBlock(c, before, records[i].block).Ok?
    ensures records[i].block.header.height == i + 1
    ensures ReplayFrom(c, Genesis(chainId), BlocksOf(records)[..i + 1]) == Ok(ApplyBlock(c, before, records[i].block).value.0)
  {
    hide CertifiesBlock, Sound, ApplyBlock;
    var history := BlocksOf(records);
    PrefixReplays(c, chainId, records, i + 1, validators, genuine);
    assert history[..i + 1][..i] == history[..i];
    GenesisSound(chainId);
    ReplayKeepsSound(c, Genesis(chainId), history[..i]);
    ApplyBlockKeepsSound(c, before, records[i].block);
  }

  lemma HeightOf(
    c: Crypto, chainId: string, records: seq<Certified>, validators: seq<ValidatorId>, genuine: SignedVote -> bool, i: nat)
    requires ChainIdValid(chainId) && i < |records| && ReplaysFinalized(c, chainId, records, validators, genuine)
    ensures records[i].block.header.height == i + 1
  {
    hide CertifiesBlock, Sound, ApplyBlock;
    PrefixReplays(c, chainId, records, i, validators, genuine);
    hide ReplaysFinalized;
    StepBlock(c, chainId, records, validators, genuine, i, ReplayFrom(c, Genesis(chainId), BlocksOf(records)[..i]).value);
  }

  /** While the first rows are rebuilt, only a row that still waits can hold the hash of the next block. */
  lemma OnlyLaterRows(
    c: Crypto, chainId: string, rows: seq<BlockRow>, now: seq<BlockRow>, validators: seq<ValidatorId>,
    genuine: SignedVote -> bool, i: nat)
    requires HashesBind(c) && ChainIdValid(chainId) && i < |rows| && Rebuilt(c, rows, now, i)
    requires ReplaysFinalized(c, chainId, RecordsOf(rows), validators, genuine)
    ensures forall j :: 0 <= j < |now| && j != i && now[j].columns.hash == c.blockId(rows[i].record.block.header) ==>
      i < j && rows[j].columns.hash == c.blockId(rows[i].record.block.header)
    ensures forall j :: i < j < |now| ==> now[j].columns.hash == rows[j].columns.hash
  {
    hide ReplaysFinalized;
    HeightOf(c, chainId, RecordsOf(rows), validators, genuine, i);
    forall j | 0 <= j < i ensures now[j].columns.hash != c.blockId(rows[i].record.block.header) {
      HeightOf(c, chainId, RecordsOf(rows), validators, genuine, j);
    }
  }
}
