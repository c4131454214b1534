/** What every command of the node actor keeps, and what follows for whole runs of a node. */
module NodeInvariant {
  import opened Wrappers
  import opened ConsensusTypes
  import opened Merkle
  import opened LedgerSpec
  import opened LedgerInvariant
  import opened Blocks
  import opened NodeSpec
  import opened Mempool

  /** At most one block request, with a target, a peer and a deadline; none of it after a halt. */
  ghost predicate RequestSound(a: Actor)
  {
    && (a.syncRequestId.Some? <==> a.syncRequestDeadline.Some?)
    && (a.syncRequestId.Some? ==> a.syncPeer.Some? && a.syncRequestId.value < a.nextRequestId)
    && (a.syncPeer.Some? ==> a.syncTarget.Some?)
    && (a.syncTarget.Some? ==> !a.consensusStarted)
    && (a.halted ==> a.syncTarget.None? && !a.consensusStarted)
  }

  /** A target is ahead of the ledger. */
  ghost predicate Ahead(a: Actor)
  {
    a.syncTarget.Some? ==> a.syncTarget.value > a.ledger.height
  }

  /** While the network runs, a set target with a connected peer has a request on its way. */
  ghost predicate Asking(a: Actor)
  {
    a.network.Running? && a.syncTarget.Some? && a.peers != {} ==> a.syncRequestId.Some?
  }

  /** Only a standalone node, which produces blocks of its own, can lose these (see Asking.dfy). */
  ghost predicate TargetAhead(env: Env, a: Actor)
  {
    env.role.Standalone? || Ahead(a)
  }

  ghost predicate KeepsAsking(env: Env, a: Actor)
  {
    env.role.Standalone? || Asking(a)
  }

  ghost predicate SyncSound(env: Env, a: Actor)
  {
    RequestSound(a) && TargetAhead(env, a) && KeepsAsking(env, a)
  }

  /** The stored history is certified and replays to the ledger. */
  ghost predicate ChainSound(env: Env, a: Actor)
  {
    && ChainIdValid(env.chainId)
    && ReplaysFinalized(env.c, env.chainId, a.history, env.validators, env.genuine)
    && Replay(env.c, env.chainId, BlocksOf(a.history)) == Ok(a.ledger)
  }

  ghost predicate Invariant(env: Env, a: Actor)
  {
    SyncSound(env, a) && ChainSound(env, a) && MempoolSound(env.c, a)
  }

  function Started(chainId: string, network: NetworkHandle, peers: set<PeerId>): Actor
  {
    Actor(Genesis(chainId), [], [], {}, network, 0, peers, None, None, None, None, false, false, [])
  }

  lemma StartedSound(env: Env, network: NetworkHandle, peers: set<PeerId>)
    requires ChainIdValid(env.chainId)
    ensures Invariant(env, Started(env.chainId, network, peers))
  {
  }

  lemma ChainLedgerSound(env: Env, a: Actor)
    requires ChainSound(env, a)
    ensures Sound(a.ledger) && a.ledger.height == |a.history| && a.ledger.chainId == env.chainId
  {
    GenesisSound(env.chainId);
    hide Sound;
    ReplayKeepsSound(env.c, Genesis(env.chainId), BlocksOf(a.history));
  }

  // ---------------------------------------------------------------- the parts a step leaves alone

  /** Nothing that the ledger, its history or the mempool is made of has changed. */
  ghost predicate SameChain(a: Actor, b: Actor)
  {
    b.ledger == a.ledger && b.history == a.history && b.mempool == a.mempool && b.mempoolIds == a.mempoolIds
  }

  lemma SameChainKeeps(env: Env, a: Actor, b: Actor)
    requires ChainSound(env, a) && MempoolSound(env.c, a) && SameChain(a, b)
    ensures ChainSound(env, b) && MempoolSound(env.c, b)
  {
  }

  // ---------------------------------------------------------------- commits

  /** A committed block extends the certified history by itself and moves the ledger one up. */
  lemma CommitKeeps(env: Env, a: Actor, record: Certified)
    requires ChainSound(env, a) && MempoolSound(env.c, a)
    ensures var r := Commit(env, a, record);
      && ChainSound(env, r.actor) && MempoolSound(env.c, r.actor)
      && (r.error.Some? ==> r.actor == a)
      && (r.error.None? ==> r.actor.ledger.height == a.ledger.height + 1 && r.actor.history == a.history + [record])
      && r.actor.(ledger := a.ledger, history := a.history, mempool := a.mempool, mempoolIds := a.mempoolIds) == a
  {
    hide CertifiesBlock, ApplyBlock, MempoolSound, Sound, Survivors;
    ChainLedgerSound(env, a);
    var r := Commit(env, a, record);
    if r.error.None? {
      ApplyBlockKeepsSound(env.c, a.ledger, record.block);
      var blocks := BlocksOf(a.history);
      assert BlocksOf(a.history + [record]) == blocks + [record.block];
      assert (blocks + [record.block])[..|blocks|] == blocks;
      var after := ApplyBlock(env.c, a.ledger, record.block).value.0;
      RevalidateSound(env.c, a.(ledger := after, history := a.history + [record]));
    }
  }

  // ---------------------------------------------------------------- requests

  lemma RequestBlocksKeeps(env: Env, a: Actor, peer: PeerId, now: nat)
    requires RequestSound(a) && TargetAhead(env, a) && a.syncTarget.Some?
    ensures var b := RequestBlocks(a, peer, now).actor;
      SyncSound(env, b) && SameChain(a, b) && b.halted == a.halted && b.signed == a.signed
  {
  }

  lemma EnsureActiveKeeps(env: Env, a: Actor, peer: PeerId, now: nat)
    requires RequestSound(a) && TargetAhead(env, a) && a.syncTarget.Some?
    ensures var b := EnsureActive(a, peer, now).actor;
      SyncSound(env, b) && SameChain(a, b) && b.halted == a.halted && b.signed == a.signed
  {
    if a.syncRequestId.None? {
      RequestBlocksKeeps(env, a, peer, now);
    }
  }

  lemma BeginSyncKeeps(env: Env, a: Actor, peer: PeerId, target: Word64, now: nat)
    requires SyncSound(env, a)
    ensures var b := BeginSync(a, peer, target, now).actor;
      SyncSound(env, b) && SameChain(a, b) && b.halted == a.halted && b.signed == a.signed
  {
    hide EnsureActive;
    if !a.halted && target > a.ledger.height {
      var higher := if a.syncTarget.Some? && a.syncTarget.value > target then a.syncTarget.value else target;
      var syncing := a.(syncTarget := Some(higher), consensusStarted := false);
      EnsureActiveKeeps(env, syncing, peer, now);
    }
  }

  lemma RetryKeeps(env: Env, a: Actor, failed: PeerId, requestId: Option<RequestId>, now: nat)
    requires RequestSound(a) && TargetAhead(env, a)
    requires KeepsAsking(env, a) || (requestId.None? && a.syncPeer == Some(failed))
    ensures var b := Retry(a, failed, requestId, now).actor;
      SyncSound(env, b) && SameChain(a, b) && b.halted == a.halted && b.signed == a.signed
  {
    hide RequestBlocks;
    if a.syncTarget.Some? && a.syncPeer == Some(failed) && (requestId.None? || requestId == a.syncRequestId) {
      var next := RetryPeer(a.peers, failed);
      if next.Some? {
        RequestBlocksKeeps(env, a.(syncPeer := next, syncRequestId := None, syncRequestDeadline := None), next.value, now);
      }
    }
  }

  lemma RetryTimedOutKeeps(env: Env, a: Actor, now: nat)
    requires SyncSound(env, a)
    ensures var b := RetryTimedOut(a, now).actor;
      SyncSound(env, b) && SameChain(a, b) && b.halted == a.halted && b.signed == a.signed
  {
    hide Retry;
    if a.syncPeer.Some? {
      RetryKeeps(env, a, a.syncPeer.value, a.syncRequestId, now);
    }
  }

  // ---------------------------------------------------------------- import

  lemma FinishSyncKeeps(env: Env, a: Actor)
    requires RequestSound(a)
    requires a.network.Running? && a.syncTarget.Some? && a.peers != {} ==> a.syncRequestId.Some? || env.role.Standalone?
    ensures var b := FinishSync(a);
      SyncSound(env, b) && SameChain(a, b) && b.halted == a.halted && b.signed == a.signed
  {
  }

  lemma ImportKeeps(env: Env, a: Actor, record: Certified, source: Option<PeerId>, now: nat)
    requires Invariant(env, a)
    ensures var r := Import(env, a, record, source, now);
      && Invariant(env, r.actor)
      && r.actor.signed == a.signed && r.actor.peers == a.peers && r.actor.network == a.network
      && (a.halted ==> r.actor == a)
      && a.ledger.height <= r.actor.ledger.height
  {
    hide ChainSound, MempoolSound, Commit, BeginSync, ProofFault;
    ChainLedgerSound(env, a);
    var height := record.block.header.height;
    if !a.halted && ProofFault(env, a, record).None? {
      if height <= a.ledger.height {
        SameChainKeeps(env, a, Halt(a));
      } else if height != a.ledger.height + 1 {
        if source.Some? {
          BeginSyncKeeps(env, a, source.value, height, now);
          BeginSyncFrame(a, source.value, height, now);
          SameChainKeeps(env, a, BeginSync(a, source.value, height, now).actor);
        }
      } else {
        CommitKeeps(env, a, record);
        var committed := Commit(env, a, record);
        if committed.error.None? {
          var reset := committed.actor.(consensusStarted := false);
          FinishSyncKeeps(env, reset);
          SameChainKeeps(env, committed.actor, FinishSync(reset));
        }
      }
    }
  }

  lemma BeginSyncFrame(a: Actor, peer: PeerId, target: Word64, now: nat)
    ensures var b := BeginSync(a, peer, target, now).actor;
      && b.peers == a.peers && b.network == a.network && b.signed == a.signed && SameChain(a, b)
      && (a.syncRequestId.Some? ==> b.syncRequestId == a.syncRequestId && b.syncPeer == a.syncPeer
                                     && b.syncRequestDeadline == a.syncRequestDeadline)
  {
  }

  /** Importing the next record either fails or raises the ledger by exactly one. */
  lemma ImportNextAdvances(env: Env, a: Actor, record: Certified, source: Option<PeerId>, now: nat)
    requires Invariant(env, a) && record.block.header.height == a.ledger.height + 1
    ensures var r := Import(env, a, record, source, now);
      r.error.None? ==> r.actor.ledger.height == a.ledger.height + 1 && r.actor.history == a.history + [record]
  {
    hide Invariant, ChainSound, MempoolSound, Commit, ProofFault;
    Parts(env, a);
    CommitKeeps(env, a, record);
  }

  lemma Parts(env: Env, a: Actor)
    requires Invariant(env, a)
    ensures SyncSound(env, a) && ChainSound(env, a) && MempoolSound(env.c, a)
  {
  }

  lemma {:induction false} ImportAllKeeps(env: Env, a: Actor, records: seq<Certified>, now: nat)
    requires Invariant(env, a)
    ensures var r := ImportAll(env, a, records, now);
      && Invariant(env, r.actor)
      && r.actor.signed == a.signed && r.actor.peers == a.peers && r.actor.network == a.network
      && (a.halted ==> r.actor == a)
      && a.ledger.height <= r.actor.ledger.height
    decreases |records|
  {
    hide Invariant, Import;
    if records != [] {
      var before := ImportAll(env, a, records[..|records| - 1], now);
      ImportAllKeeps(env, a, records[..|records| - 1], now);
      if before.error.None? {
        ImportKeeps(env, before.actor, records[|records| - 1], None, now);
      }
    }
  }

  /** A batch in sequence that is imported without error raises the height by its length. */
  lemma {:induction false} BatchAdvances(env: Env, a: Actor, records: seq<Certified>, now: nat)
    requires Invariant(env, a) && InSequence(records, a.ledger.height)
    ensures var r := ImportAll(env, a, records, now);
      r.error.None? ==> r.actor.ledger.height == a.ledger.height + |records| && r.actor.history == a.history + records
    decreases |records|
  {
    hide Invariant, Import;
    if records != [] {
      var init := records[..|records| - 1];
      var before := ImportAll(env, a, init, now);
      BatchAdvances(env, a, init, now);
      ImportAllKeeps(env, a, init, now);
      if before.error.None? {
        ImportNextAdvances(env, before.actor, records[|records| - 1], None, now);
        assert records == init + [records[|records| - 1]];
      }
    }
  }

  // ---------------------------------------------------------------- responses

  lemma HandleStatusKeeps(env: Env, a: Actor, from: PeerId, reply: SyncReply, now: nat)
    requires SyncSound(env, a) && reply.StatusReply?
    ensures var b := HandleStatus(env, a, from, reply, now).actor;
      SyncSound(env, b) && SameChain(a, b) && b.halted == a.halted && b.signed == a.signed
  {
    hide BeginSync, ProofFault, SyncSound;
    BeginSyncKeeps(env, a, from, reply.height, now);
  }

  lemma HandleBlocksKeeps(env: Env, a: Actor, from: PeerId, intent: Intent, records: seq<Option<Certified>>, now: nat)
    requires Invariant(env, a) && intent.request.BlocksRequest?
    requires IntentFault(a, from, intent, BlocksReply(records)).None?
    ensures var b := HandleBlocks(env, a, from, records, now).actor;
      Invariant(env, b) && b.signed == a.signed
  {
    hide ImportAll, RequestBlocks, ChainSound, MempoolSound;
    if records == [] {
      SameChainKeeps(env, a, HandleBlocks(env, a, from, records, now).actor);
    } else if Decoded(records).Some? && InSequence(Decoded(records).value, a.ledger.height) {
      ImportAllKeeps(env, a, Decoded(records).value, now);
      var imported := ImportAll(env, a, Decoded(records).value, now);
      if imported.error.None? && imported.actor.syncTarget.Some? {
        RequestBlocksKeeps(env, imported.actor, from, now);
        FinishSyncKeeps(env, imported.actor);
        SameChainKeeps(env, imported.actor, HandleBlocks(env, a, from, records, now).actor);
      }
    }
  }

  /** Each accepted batch of blocks strictly raises the height, by as many blocks as it brought. */
  lemma AcceptedBatchAdvances(env: Env, a: Actor, from: PeerId, intent: Intent, records: seq<Option<Certified>>, now: nat)
    requires Invariant(env, a) && intent.request.BlocksRequest? && records != []
    ensures var r := HandleResponse(env, a, from, intent, BlocksReply(records), now);
      r.error.None? ==>
        && r.actor.ledger.height == a.ledger.height + |records| > a.ledger.height
        && Decoded(records).Some? && r.actor.history == a.history + Decoded(records).value
  {
    hide Invariant, ImportAll, RequestBlocks, IntentFault;
    if Decoded(records).Some? && InSequence(Decoded(records).value, a.ledger.height) {
      BatchAdvances(env, a, Decoded(records).value, now);
      var imported := ImportAll(env, a, Decoded(records).value, now);
      RequestBlocksFrame(imported.actor, from, now);
    }
  }

  lemma RequestBlocksFrame(a: Actor, peer: PeerId, now: nat)
    ensures SameChain(a, RequestBlocks(a, peer, now).actor)
  {
  }

  lemma HandleResponseKeeps(env: Env, a: Actor, from: PeerId, intent: Intent, reply: SyncReply, now: nat)
    requires Invariant(env, a)
    ensures var b := HandleResponse(env, a, from, intent, reply, now).actor;
      Invariant(env, b) && b.signed == a.signed && (a.halted ==> SameChain(a, b) && b.halted)
  {
    hide ChainSound, MempoolSound, HandleStatus, HandleBlocks;
    if IntentFault(a, from, intent, reply).None? {
      match reply
      case StatusReply(_, _, _, _) =>
        HandleStatusKeeps(env, a, from, reply, now);
        SameChainKeeps(env, a, HandleStatus(env, a, from, reply, now).actor);
      case BlocksReply(records) =>
        HandleBlocksKeeps(env, a, from, intent, records, now);
      case ErrorReply =>
    }
  }

  // ---------------------------------------------------------------- voting

  lemma {:induction false} ServeKeeps(env: Env, a: Actor, requests: seq<EngineRequest>)
    requires Invariant(env, a) && MayVote(env, a)
    ensures var b := Serve(env, a, requests).actor;
      Invariant(env, b) && MayVote(env, b)
    decreases |requests|
  {
    hide ChainSound, MempoolSound, Commit;
    if requests != [] {
      var before := Serve(env, a, requests[..|requests| - 1]);
      ServeKeeps(env, a, requests[..|requests| - 1]);
      if before.error.None? {
        match requests[|requests| - 1]
        case SignDecision(message) =>
          SameChainKeeps(env, before.actor, before.actor.(signed := before.actor.signed + [message]));
        case CommitBlock(record) =>
          CommitKeeps(env, before.actor, record);
          var committed := Commit(env, before.actor, record);
          SameChainKeeps(env, committed.actor, committed.actor.(consensusStarted := false));
      }
    }
  }

  lemma ProcessKeeps(env: Env, a: Actor, requests: seq<EngineRequest>)
    requires Invariant(env, a)
    ensures var b := ProcessConsensus(env, a, requests).actor;
      Invariant(env, b) && (!MayVote(env, a) ==> b == a) && b.syncTarget == a.syncTarget && b.halted == a.halted
  {
    hide Invariant, Serve;
    if MayVote(env, a) {
      ServeKeeps(env, a, requests);
    }
  }

  lemma EnsureStartedKeeps(env: Env, a: Actor, onStart: seq<EngineRequest>)
    requires Invariant(env, a)
    ensures var b := EnsureStarted(env, a, onStart).actor;
      Invariant(env, b) && (!MayVote(env, a) ==> b == a) && b.syncTarget == a.syncTarget && b.halted == a.halted
  {
    hide ChainSound, MempoolSound, ProcessConsensus;
    if MayVote(env, a) && !a.consensusStarted {
      var started := a.(consensusStarted := true);
      SameChainKeeps(env, a, started);
      ProcessKeeps(env, started, onStart);
    }
  }

  // ---------------------------------------------------------------- commands

  lemma ProduceKeeps(env: Env, a: Actor, wallClockMs: nat)
    requires Invariant(env, a) && |env.validators| > 0 && env.role.Standalone?
    ensures var b := ProduceStandalone(env, a, wallClockMs).actor;
      Invariant(env, b) && b.signed == a.signed
  {
    hide ChainSound, MempoolSound, Commit, BuildBlock, FirstOf;
    var proposer := env.validators[a.ledger.height % |env.validators|];
    var built := BuildBlock(env.c, a.ledger, proposer, 0, wallClockMs, FirstOf(a.mempool));
    if built.Ok? {
      CommitKeeps(env, a, Certified(built.value, env.selfCertify(built.value)));
    }
  }

  /** A step that signs nothing, and none of whose effects outlast a halt. */
  ghost predicate Quiet(a: Actor, b: Actor)
  {
    b.signed == a.signed && (a.halted ==> b.halted && SameChain(a, b))
  }

  lemma TickKeeps(env: Env, a: Actor, heartbeatDue: bool, wallClockMs: nat, onStart: seq<EngineRequest>, now: nat)
    requires Invariant(env, a) && |env.validators| > 0
    ensures var b := HandleTick(env, a, heartbeatDue, wallClockMs, onStart, now).actor;
      Invariant(env, b) && (!MayVote(env, a) ==> Quiet(a, b))
  {
    hide ChainSound, MempoolSound, RetryTimedOut, EnsureStarted, ProduceStandalone, SyncSound;
    RetryTimedOutKeeps(env, a, now);
    RetryTimedOutIdle(a, now);
    var b := RetryTimedOut(a, now).actor;
    SameChainKeeps(env, a, b);
    if env.role.Standalone? {
      ProduceKeeps(env, b, wallClockMs);
    } else {
      EnsureStartedKeeps(env, b, onStart);
    }
  }

  lemma RetryTimedOutIdle(a: Actor, now: nat)
    ensures RetryTimedOut(a, now).actor.syncTarget == a.syncTarget
  {
  }

  lemma SubmitKeeps(env: Env, a: Actor, tx: SignedTransaction)
    requires Invariant(env, a) && Admit(env.c, a, tx).Ok?
    ensures var b := Admit(env.c, a, tx).value;
      Invariant(env, b) && Quiet(a, b)
  {
    hide Sound, ReplaysFinalized, Replay, MempoolSound, ApplyAll, Validate;
    ChainLedgerSound(env, a);
    AcceptSound(env.c, a, tx);
  }

  lemma ResponseKeeps(env: Env, a: Actor, from: PeerId, intent: Intent, reply: SyncReply, now: nat)
    requires Invariant(env, a)
    ensures var b := HandleResponse(env, a, from, intent, reply, now).actor;
      var c := Retry(b, intent.peer, Some(intent.requestId), now).actor;
      Invariant(env, b) && Quiet(a, b) && Invariant(env, c) && Quiet(a, c)
  {
    hide ChainSound, MempoolSound, HandleResponse, Retry;
    HandleResponseKeeps(env, a, from, intent, reply, now);
    var b := HandleResponse(env, a, from, intent, reply, now).actor;
    RetryKeeps(env, b, intent.peer, Some(intent.requestId), now);
    SameChainKeeps(env, b, Retry(b, intent.peer, Some(intent.requestId), now).actor);
  }

  lemma PeersKeep(env: Env, a: Actor, peer: PeerId, command: Command, now: nat)
    requires Invariant(env, a) && |env.validators| > 0
    requires command == PeerConnected(peer) || command == PeerDisconnected(peer)
    ensures var b := Handle(env, a, command, now);
      Invariant(env, b) && Quiet(a, b)
  {
    hide ChainSound, MempoolSound, Retry, EnsureActive;
    var b := Handle(env, a, command, now);
    if command.PeerConnected? {
      var joined := a.(peers := a.peers + {peer});
      if joined.syncTarget.Some? {
        EnsureActiveKeeps(env, joined, peer, now);
      }
    } else {
      var left := a.(peers := a.peers - {peer});
      if left.syncPeer == Some(peer) {
        RetryKeeps(env, left, peer, None, now);
      }
    }
    SameChainKeeps(env, a, b);
  }

  /**
   * Every command keeps the whole invariant. A node that may not vote, because it has a target, is
   * halted or is no validator, signs nothing; a halted node changes no chain and no mempool.
   */
  lemma HandleKeeps(env: Env, a: Actor, command: Command, now: nat)
    requires Invariant(env, a) && |env.validators| > 0
    ensures Invariant(env, Handle(env, a, command, now))
    ensures !MayVote(env, a) ==> Quiet(a, Handle(env, a, command, now))
  {
    hide Invariant, HandleTick, EnsureStarted, ProcessConsensus, Import, HandleResponse, Retry, EnsureActive, Admit;
    match command
    case Submit(tx) =>
      if Admit(env.c, a, tx).Ok? { SubmitKeeps(env, a, tx); }
    case Tick(heartbeatDue, wallClockMs, onStart) => TickKeeps(env, a, heartbeatDue, wallClockMs, onStart, now);
    case ConsensusMessage(onStart, onMessage) =>
      EnsureStartedKeeps(env, a, onStart);
      ProcessKeeps(env, EnsureStarted(env, a, onStart).actor, onMessage);
    case ConsensusTimeout(requests) => ProcessKeeps(env, a, requests);
    case ImportFinalized(record, source) => ImportKeeps(env, a, record, source, now);
    case PeerConnected(peer) => PeersKeep(env, a, peer, command, now);
    case PeerDisconnected(peer) => PeersKeep(env, a, peer, command, now);
    case SyncResponse(from, intent, reply) => ResponseKeeps(env, a, from, intent, reply, now);
    case SyncFailure(intent) => FailureKeeps(env, a, intent, now);
    case NetworkStops => NetworkStopsKeeps(env, a, now);
  }

  lemma FailureKeeps(env: Env, a: Actor, intent: Intent, now: nat)
    requires Invariant(env, a)
    ensures var b := Retry(a, intent.peer, Some(intent.requestId), now).actor;
      Invariant(env, b) && Quiet(a, b)
  {
    hide ChainSound, MempoolSound, Retry;
    RetryKeeps(env, a, intent.peer, Some(intent.requestId), now);
    SameChainKeeps(env, a, Retry(a, intent.peer, Some(intent.requestId), now).actor);
  }

  lemma NetworkStopsKeeps(env: Env, a: Actor, now: nat)
    requires Invariant(env, a)
    ensures Invariant(env, a.(network := Stopped))
  {
    SameChainKeeps(env, a, a.(network := Stopped));
  }
}
