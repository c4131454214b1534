/**
 * The node actor with its mutable fields, proved against NodeSpec.dfy (`NodeActor` in
 * `crates/kcoin-node/src/runtime.rs`). Ledgers are cloned, changed and put back as a whole there, so
 * the field holds a ledger value.
 */
module NodeMachine {
  import opened Wrappers
  import opened ConsensusTypes
  import opened Merkle
  import opened LedgerSpec
  import opened LedgerMachine
  import opened Blocks
  import opened NodeSpec
  import opened Mempool
  import Certificates

  class NodeActor {
    const env: Env
    var ledger: Ledger
    var history: seq<Certified>
    var mempool: seq<SignedTransaction>
    var mempoolIds: set<Hash>
    var network: NetworkHandle
    var nextRequestId: RequestId
    var peers: set<PeerId>
    var syncTarget: Option<Word64>
    var syncPeer: Option<PeerId>
    var syncRequestId: Option<RequestId>
    var syncRequestDeadline: Option<nat>
    var halted: bool
    var consensusStarted: bool
    var signed: seq<SignableMessage>

    ghost function View(): Actor
      reads this
    {
      Actor(ledger, history, mempool, mempoolIds, network, nextRequestId, peers,
            syncTarget, syncPeer, syncRequestId, syncRequestDeadline, halted, consensusStarted, signed)
    }

    constructor (env: Env, network: NetworkHandle, peers: set<PeerId>)
      ensures this.env == env
      ensures View() == Actor(Genesis(env.chainId), [], [], {}, network, 0, peers, None, None, None, None, false, false, [])
    {
      this.env, this.network, this.peers := env, network, peers;
      ledger, history, mempool, mempoolIds, nextRequestId := Genesis(env.chainId), [], [], {}, 0;
      syncTarget, syncPeer, syncRequestId, syncRequestDeadline := None, None, None, None;
      halted, consensusStarted, signed := false, false, [];
    }

    // ---------------------------------------------------------------- mempool

    /** `accept_transaction`: replay the pending transactions, then validate the new one behind them. */
    method AcceptTransaction(tx: SignedTransaction) returns (r: Option<LedgerError>)
      modifies this
      ensures match Admit(env.c, old(View()), tx)
        case Err(error) => r == Some(error) && View() == old(View())
        case Ok(after) => r == None && View() == after
    {
      hide Apply, Validate;
      if halted || syncTarget.Some? {
        return Some(Malformed);
      }
      var id := env.c.transactionId(tx);
      if id in mempoolIds || id in ledger.appliedTransactions {
        return Some(DuplicateTransaction);
      }
      var height := CheckedAdd(ledger.height, 1);
      if height.None? {
        return Some(ArithmeticOverflow);
      }
      var candidate := ledger;
      ghost var receipts := [];
      for i := 0 to |mempool|
        invariant ApplyAll(env.c, ledger, mempool[..i], height.value) == Ok((candidate, receipts))
      {
        assert mempool[..i + 1][..i] == mempool[..i];
        var applied := Apply(env.c, candidate, mempool[i], height.value);
        if applied.Err? {
          FailureStays(env.c, ledger, mempool, i + 1, height.value);
          return Some(applied.error);
        }
        candidate := applied.value.0;
        receipts := receipts + [applied.value.1];
      }
      assert mempool[..|mempool|] == mempool;
      var validated := Validate(env.c, candidate, tx, height.value);
      if validated.Err? {
        return Some(validated.error);
      }
      mempoolIds := mempoolIds + {id};
      mempool := mempool + [tx];
      return None;
    }

    /** `revalidate_mempool`: keep, in order, what still applies after a block. */
    method RevalidateMempool()
      modifies this
      ensures View() == Revalidate(env.c, old(View()))
    {
      hide Apply;
      var height := ExecutionHeight(ledger);
      var candidate := ledger;
      var kept, ids := [], {};
      for i := 0 to |mempool|
        invariant (kept, candidate) == Survivors(env.c, ledger, mempool[..i], height)
        invariant ids == IdsOf(env.c, kept)
      {
        assert mempool[..i + 1][..i] == mempool[..i];
        var tx := mempool[i];
        var applied := Apply(env.c, candidate, tx, height);
        if applied.Ok? {
          candidate := applied.value.0;
          ids := ids + {env.c.transactionId(tx)};
          kept := kept + [tx];
        }
      }
      assert mempool[..|mempool|] == mempool;
      mempool, mempoolIds := kept, ids;
    }

    /** `build_consensus_proposal`: reproposal carries the stored block unchanged. */
    method BuildConsensusProposal(stored: map<Hash, LedgerBlock>, validBlock: Option<Hash>, round: nat, wallClockMs: nat)
      returns (r: Result<LedgerBlock, LedgerError>)
      ensures r == BuildProposal(env, View(), stored, validBlock, round, wallClockMs)
    {
      hide Apply, BuildBlock;
      if validBlock.Some? && validBlock.value in stored {
        return Ok(stored[validBlock.value]);
      }
      var height := ledger.height + 1;
      var considered := FirstOf(mempool);
      var candidate := ledger;
      var chosen := [];
      for i := 0 to |considered|
        invariant (chosen, candidate) == Survivors(env.c, ledger, considered[..i], height)
      {
        assert considered[..i + 1][..i] == considered[..i];
        var applied := Apply(env.c, candidate, considered[i], height);
        if applied.Ok? {
          candidate := applied.value.0;
          chosen := chosen + [considered[i]];
        }
      }
      assert considered[..|considered|] == considered;
      return BuildBlock(env.c, ledger, env.localId, round, wallClockMs, chosen);
    }

    // ---------------------------------------------------------------- finalized blocks

    method CommitFinalized(record: Certified) returns (error: Option<NodeError>)
      modifies this
      ensures Reply(View(), error) == Commit(env, old(View()), record)
    {
      hide ApplyBlock, CertifiesBlock, Survivors;
      var fault := VerifyForBlock(env.c, record.certificate, record.block, env.validators, env.genuine);
      if fault.Some? {
        return Some(BadCertificate);
      }
      var applied := ApplyBlock(env.c, ledger, record.block);
      if applied.Err? {
        return Some(Rejected(applied.error));
      }
      ledger := applied.value.0;
      history := history + [record];
      RevalidateMempool();
      return None;
    }

    method CheckProof(record: Certified) returns (fault: Option<NodeError>)
      ensures fault == ProofFault(env, View(), record)
    {
      hide CertifiesBlock, CommitmentsFault;
      if record.block.header.chainId != env.chainId || record.certificate.chainId != env.chainId {
        return Some(OtherChain);
      }
      var commitments := ValidateCommitments(env.c, record.block);
      if commitments.Some? {
        return Some(Rejected(commitments.value));
      }
      var certificate := VerifyForBlock(env.c, record.certificate, record.block, env.validators, env.genuine);
      return if certificate.Some? then Some(BadCertificate) else None;
    }

    method EnterHaltedState()
      modifies this
      ensures View() == Halt(old(View()))
    {
      halted, consensusStarted := true, false;
      syncTarget, syncPeer, syncRequestId, syncRequestDeadline := None, None, None, None;
    }

    method FinishSyncIfCurrent()
      modifies this
      ensures View() == FinishSync(old(View()))
    {
      if syncTarget.Some? && ledger.height >= syncTarget.value {
        syncTarget, syncPeer, syncRequestId, syncRequestDeadline := None, None, None, None;
      }
    }

    method ImportFinalized(record: Certified, source: Option<PeerId>, now: nat) returns (error: Option<NodeError>)
      modifies this
      ensures Reply(View(), error) == Import(env, old(View()), record, source, now)
    {
      hide ProofFault, Commit, NodeSpec.BeginSync;
      if halted {
        return Some(NodeError.Halted);
      }
      error := CheckProof(record);
      if error.Some? {
        return;
      }
      var height := record.block.header.height;
      if height <= ledger.height {
        if height == 0 || height > |history| {
          return Some(MissingBlock);
        }
        var existing := history[height - 1].block;
        if env.c.blockId(record.block.header) != env.c.blockId(existing.header) {
          EnterHaltedState();
          return Some(ConflictingBlock(height));
        }
        return None;
      }
      if height != ledger.height + 1 {
        if source.Some? {
          error := BeginSync(source.value, height, now);
          return;
        }
        return Some(BlockGap);
      }
      error := CommitFinalized(record);
      if error.Some? {
        return;
      }
      consensusStarted := false;
      FinishSyncIfCurrent();
    }

    // ---------------------------------------------------------------- synchronization

    method RequestSyncBlocks(peer: PeerId, now: nat) returns (error: Option<NodeError>)
      modifies this
      ensures Reply(View(), error) == RequestBlocks(old(View()), peer, now)
    {
      if network.Absent? {
        return Some(NetworkUnavailable);
      }
      if CheckedAdd(ledger.height, 1).None? {
        return Some(HeightExhausted);
      }
      var id := TakeRequestId();
      if network.Stopped? {
        return Some(NetworkUnavailable);
      }
      syncPeer, syncRequestId, syncRequestDeadline := Some(peer), Some(id), Some(now + WATCHDOG_MS);
      return None;
    }

    method TakeRequestId() returns (id: RequestId)
      modifies this
      ensures id == old(nextRequestId) && View() == old(View()).(nextRequestId := id + 1)
    {
      id := nextRequestId;
      nextRequestId := id + 1;
    }

    method EnsureActiveSyncRequest(preferred: PeerId, now: nat) returns (error: Option<NodeError>)
      modifies this
      ensures Reply(View(), error) == EnsureActive(old(View()), preferred, now)
    {
      if syncRequestId.Some? {
        return None;
      }
      error := RequestSyncBlocks(preferred, now);
    }

    method BeginSync(peer: PeerId, target: Word64, now: nat) returns (error: Option<NodeError>)
      modifies this
      ensures Reply(View(), error) == NodeSpec.BeginSync(old(View()), peer, target, now)
    {
      hide EnsureActive;
      if halted {
        return Some(NodeError.Halted);
      }
      if target <= ledger.height {
        return None;
      }
      syncTarget := Some(if syncTarget.Some? && syncTarget.value > target then syncTarget.value else target);
      consensusStarted := false;
      error := None;
      if !network.Absent? {
        error := EnsureActiveSyncRequest(peer, now);
      }
    }

    /** `choose_sync_retry_peer`: a scan for the smallest connected peer other than the failed one. */
    method ChooseRetryPeer(failed: PeerId) returns (choice: Option<PeerId>)
      ensures choice == RetryPeer(peers, failed)
    {
      choice := SmallestOf(peers - {failed});
      if choice.None? && failed in peers {
        choice := Some(failed);
      }
      OthersAreRest(peers, failed);
      RetryPeerUnique(peers, failed, choice);
    }

    static method SmallestOf(others: set<PeerId>) returns (least: Option<PeerId>)
      ensures least.None? <==> others == {}
      ensures least.Some? ==> least.value in others && forall other :: other in others ==> least.value <= other
    {
      var left := others;
      least := None;
      while left != {}
        invariant left <= others
        invariant least.None? ==> left == others
        invariant least.Some? ==> least.value in others
        invariant least.Some? ==> forall other :: other in others && other !in left ==> least.value <= other
        decreases |left|
      {
        var peer :| peer in left;
        if least.None? || peer < least.value {
          least := Some(peer);
        }
        left := left - {peer};
      }
    }

    method RetrySyncAfterFailure(failed: PeerId, requestId: Option<RequestId>, now: nat) returns (error: Option<NodeError>)
      modifies this
      ensures Reply(View(), error) == Retry(old(View()), failed, requestId, now)
    {
      hide RequestBlocks;
      if syncTarget.None? || syncPeer != Some(failed) {
        return None;
      }
      if requestId.Some? && requestId != syncRequestId {
        return None;
      }
      var next := ChooseRetryPeer(failed);
      syncPeer, syncRequestId, syncRequestDeadline := next, None, None;
      if next.None? {
        return None;
      }
      error := RequestSyncBlocks(next.value, now);
    }

    method RetryTimedOutSyncRequest(now: nat) returns (error: Option<NodeError>)
      modifies this
      ensures Reply(View(), error) == RetryTimedOut(old(View()), now)
    {
      hide Retry;
      if halted || syncRequestId.None? || syncPeer.None? || syncRequestDeadline.None? {
        return None;
      }
      if now < syncRequestDeadline.value {
        return None;
      }
      error := RetrySyncAfterFailure(syncPeer.value, syncRequestId, now);
    }

    method HandleStatusReply(from: PeerId, reply: SyncReply, now: nat) returns (error: Option<NodeError>)
      requires reply.StatusReply?
      modifies this
      ensures Reply(View(), error) == HandleStatus(env, old(View()), from, reply, now)
    {
      hide ProofFault, NodeSpec.BeginSync;
      if reply.height <= ledger.height {
        return None;
      }
      if reply.tip.None? {
        return Some(MissingProof);
      }
      var record := reply.tip.value;
      error := CheckProof(record);
      if error.Some? {
        return;
      }
      if record.block.header.height != reply.height || env.c.blockId(record.block.header) != reply.blockHash
        || record.block.header.stateRoot != reply.stateRoot
      {
        return Some(MismatchedStatus);
      }
      error := BeginSync(from, reply.height, now);
    }

    method ImportBatch(records: seq<Certified>, now: nat) returns (error: Option<NodeError>)
      modifies this
      ensures Reply(View(), error) == ImportAll(env, old(View()), records, now)
    {
      hide Import;
      for i := 0 to |records|
        invariant ImportAll(env, old(View()), records[..i], now) == Done(View())
      {
        assert records[..i + 1][..i] == records[..i];
        error := ImportFinalized(records[i], None, now);
        if error.Some? {
          ImportFailureStays(env, old(View()), records, i + 1, now);
          return;
        }
      }
      assert records[..|records|] == records;
      error := None;
    }

    /** `validate_sync_batch_sequence`. */
    method CheckSequence(records: seq<Certified>) returns (ok: bool)
      ensures ok == InSequence(records, ledger.height)
    {
      for i := 0 to |records|
        invariant forall k :: 0 <= k < i ==> records[k].block.header.height == ledger.height + 1 + k
      {
        if records[i].block.header.height != ledger.height + 1 + i {
          return false;
        }
      }
      return true;
    }

    method HandleBlocksReply(from: PeerId, records: seq<Option<Certified>>, now: nat) returns (error: Option<NodeError>)
      modifies this
      ensures Reply(View(), error) == HandleBlocks(env, old(View()), from, records, now)
    {
      hide ImportAll, RequestBlocks, FinishSync, InSequence;
      if records == [] {
        if syncTarget.Some? && syncTarget.value > ledger.height {
          return Some(EmptyRange);
        }
        if !network.Absent? {
          var asked := TakeRequestId();
          if network.Stopped? {
            return Some(NetworkUnavailable);
          }
        }
        syncRequestId, syncRequestDeadline := None, None;
        return None;
      }
      var decoded := Decoded(records);
      if decoded.None? {
        return Some(UndecodableRecord);
      }
      var inSequence := CheckSequence(decoded.value);
      if !inSequence {
        return Some(BrokenSequence);
      }
      error := ImportBatch(decoded.value, now);
      if error.Some? {
        return;
      }
      if syncTarget.Some? {
        if ledger.height < syncTarget.value {
          if !network.Absent? {
            error := RequestSyncBlocks(from, now);
          }
        } else {
          FinishSyncIfCurrent();
        }
      }
    }

    method HandleSyncResponse(from: PeerId, intent: Intent, reply: SyncReply, now: nat) returns (error: Option<NodeError>)
      modifies this
      ensures Reply(View(), error) == HandleResponse(env, old(View()), from, intent, reply, now)
    {
      hide IntentFault, HandleStatus, HandleBlocks;
      error := ValidateIntent(from, intent, reply);
      if error.Some? {
        return;
      }
      match reply
      case StatusReply(_, _, _, _) => error := HandleStatusReply(from, reply, now);
      case BlocksReply(records) => error := HandleBlocksReply(from, records, now);
      case ErrorReply => error := Some(PeerError);
    }

    method ValidateIntent(from: PeerId, intent: Intent, reply: SyncReply) returns (fault: Option<NodeError>)
      ensures fault == IntentFault(View(), from, intent, reply)
    {
      if from != intent.peer {
        return Some(UnexpectedReply);
      }
      match intent.request {
        case StatusRequest =>
          return if reply.BlocksReply? then Some(UnexpectedReply) else None;
        case BlocksRequest(fromHeight, limit) =>
          if syncTarget.None? || syncRequestId != Some(intent.requestId) || syncPeer != Some(from) {
            return Some(UnexpectedReply);
          }
          if CheckedAdd(ledger.height, 1).None? {
            return Some(HeightExhausted);
          }
          if fromHeight != ledger.height + 1 || limit == 0 {
            return Some(UnexpectedReply);
          }
          return if reply.StatusReply? || (reply.BlocksReply? && |reply.records| > limit) then Some(UnexpectedReply) else None;
      }
    }

    // ---------------------------------------------------------------- consensus

    predicate MayVote()
      reads this
      ensures MayVote() == NodeSpec.MayVote(env, View())
    {
      env.role == Validator && syncTarget == None && !halted
    }

    method ProcessConsensusEvent(requests: seq<EngineRequest>) returns (error: Option<NodeError>)
      modifies this
      ensures Reply(View(), error) == ProcessConsensus(env, old(View()), requests)
    {
      hide Commit;
      error := None;
      if !MayVote() {
        return;
      }
      for i := 0 to |requests|
        invariant Serve(env, old(View()), requests[..i]) == Done(View())
      {
        assert requests[..i + 1][..i] == requests[..i];
        match requests[i] {
          case SignDecision(message) =>
            signed := signed + [message];
          case CommitBlock(record) =>
            error := CommitFinalized(record);
            if error.Some? {
              ServeFailureStays(env, old(View()), requests, i + 1);
              return;
            }
            consensusStarted := false;
        }
      }
      assert requests[..|requests|] == requests;
      error := None;
    }

    method EnsureConsensusStarted(onStart: seq<EngineRequest>) returns (error: Option<NodeError>)
      modifies this
      ensures Reply(View(), error) == EnsureStarted(env, old(View()), onStart)
    {
      hide ProcessConsensus;
      if !MayVote() || consensusStarted {
        return None;
      }
      consensusStarted := true;
      error := ProcessConsensusEvent(onStart);
    }

    method ProduceStandaloneBlock(wallClockMs: nat) returns (error: Option<NodeError>)
      requires |env.validators| > 0
      modifies this
      ensures Reply(View(), error) == ProduceStandalone(env, old(View()), wallClockMs)
    {
      hide Commit, BuildBlock;
      var proposer := env.validators[ledger.height % |env.validators|];
      var built := BuildBlock(env.c, ledger, proposer, 0, wallClockMs, FirstOf(mempool));
      if built.Err? {
        return Some(Rejected(built.error));
      }
      error := CommitFinalized(Certified(built.value, env.selfCertify(built.value)));
    }

    // ---------------------------------------------------------------- commands

    method OnTick(heartbeatDue: bool, wallClockMs: nat, onStart: seq<EngineRequest>, now: nat) returns (error: Option<NodeError>)
      requires |env.validators| > 0
      modifies this
      ensures Reply(View(), error) == HandleTick(env, old(View()), heartbeatDue, wallClockMs, onStart, now)
    {
      hide RetryTimedOut, ProduceStandalone, EnsureStarted;
      error := RetryTimedOutSyncRequest(now);
      if error.Some? || halted || (mempool == [] && !heartbeatDue) {
        return;
      }
      match env.role
      case Standalone => error := ProduceStandaloneBlock(wallClockMs);
      case Validator => error := EnsureConsensusStarted(onStart);
      case Observer =>
    }

    /** One command of the actor's loop. */
    method Execute(command: Command, now: nat)
      requires |env.validators| > 0
      modifies this
      ensures View() == Handle(env, old(View()), command, now)
    {
      hide Admit, HandleTick, EnsureStarted, ProcessConsensus, Import, EnsureActive, Retry, HandleResponse;
      match command
      case Submit(tx) =>
        var refused := AcceptTransaction(tx);
      case Tick(heartbeatDue, wallClockMs, onStart) =>
        var error := OnTick(heartbeatDue, wallClockMs, onStart, now);
      case ConsensusMessage(onStart, onMessage) =>
        if MayVote() {
          var error := EnsureConsensusStarted(onStart);
          if error.None? {
            error := ProcessConsensusEvent(onMessage);
          }
        } else {
          IdleStart(env, View(), onStart);
        }
      case ConsensusTimeout(requests) =>
        if consensusStarted {
          var error := ProcessConsensusEvent(requests);
        }
      case ImportFinalized(record, source) =>
        var error := ImportFinalized(record, source, now);
      case PeerConnected(peer) =>
        peers := peers + {peer};
        if syncTarget.Some? {
          var error := EnsureActiveSyncRequest(peer, now);
        } else if !network.Absent? {
          var id := TakeRequestId();
        }
      case PeerDisconnected(peer) =>
        peers := peers - {peer};
        if syncPeer == Some(peer) {
          var error := RetrySyncAfterFailure(peer, None, now);
        }
      case SyncResponse(from, intent, reply) =>
        var error := HandleSyncResponse(from, intent, reply, now);
        if error.Some? {
          error := RetrySyncAfterFailure(intent.peer, Some(intent.requestId), now);
        }
      case SyncFailure(intent) =>
        if intent.request.BlocksRequest? {
          var error := RetrySyncAfterFailure(intent.peer, Some(intent.requestId), now);
        }
      case NetworkStops =>
        if network.Running? {
          network := Stopped;
        }
    }
  }

  lemma IdleStart(env: Env, a: Actor, onStart: seq<EngineRequest>)
    requires !MayVote(env, a)
    ensures EnsureStarted(env, a, onStart) == Done(a)
  {
  }

  lemma OthersAreRest(peers: set<PeerId>, failed: PeerId)
    ensures forall other :: other in peers && other != failed <==> other in peers - {failed}
    ensures peers - {failed} == {} && failed in peers ==> peers == {failed}
    ensures peers - {failed} == {} && failed !in peers ==> peers == {}
  {
    if peers - {failed} == {} {
      forall other | other in peers ensures other == failed {
        assert other != failed ==> other in peers - {failed};
      }
    }
  }

  lemma RetryPeerUnique(peers: set<PeerId>, failed: PeerId, choice: Option<PeerId>)
    requires IsRetryPeer(peers, failed, choice)
    ensures choice == RetryPeer(peers, failed)
  {
    var other := RetryPeer(peers, failed);
    assert choice.Some? && other.Some? ==> choice.value <= other.value || choice.value == failed || other.value == failed;
  }

  lemma {:induction false} ImportFailureStays(env: Env, a: Actor, records: seq<Certified>, n: nat, now: nat)
    requires n <= |records| && ImportAll(env, a, records[..n], now).error.Some?
    ensures ImportAll(env, a, records, now) == ImportAll(env, a, records[..n], now)
    decreases |records|
  {
    hide Import;
    if n < |records| {
      var init := records[..|records| - 1];
      assert init[..n] == records[..n];
      ImportFailureStays(env, a, init, n, now);
    } else {
      assert records[..n] == records;
    }
  }

  lemma {:induction false} ServeFailureStays(env: Env, a: Actor, requests: seq<EngineRequest>, n: nat)
    requires n <= |requests| && Serve(env, a, requests[..n]).error.Some?
    ensures Serve(env, a, requests) == Serve(env, a, requests[..n])
    decreases |requests|
  {
    hide Commit;
    if n < |requests| {
      var init := requests[..|requests| - 1];
      assert init[..n] == requests[..n];
      ServeFailureStays(env, a, init, n);
    } else {
      assert requests[..n] == requests;
    }
  }
}
