/** Theorems about runs of the node actor: no votes out of turn, permanent halts, stale replies, agreement. */
module NodeTheorems {
  import opened Wrappers
  import opened ConsensusTypes
  import opened Protocol
  import opened Network
  import opened Recovery
  import opened Finality
  import opened LedgerSpec
  import opened LedgerInvariant
  import opened Blocks
  import opened NodeSpec
  import opened Mempool
  import opened NodeInvariant
  import Certificates
  import Merkle

  /** A run of one node: commands one at a time, each at some time of its clock. */
  ghost predicate NodeRun(env: Env, states: seq<Actor>, commands: seq<(Command, nat)>)
    requires |env.validators| > 0
  {
    && ChainIdValid(env.chainId)
    && |states| == |commands| + 1
    && (exists network, peers :: states[0] == Started(env.chainId, network, peers))
    && forall i :: 0 <= i < |commands| ==> states[i + 1] == Handle(env, states[i], commands[i].0, commands[i].1)
  }

  /** The invariant holds in every state a node can reach. */
  lemma {:induction false} NodeRunSound(env: Env, states: seq<Actor>, commands: seq<(Command, nat)>, i: nat)
    requires |env.validators| > 0 && NodeRun(env, states, commands) && i < |states|
    ensures Invariant(env, states[i])
    decreases i
  {
    hide Invariant, Handle;
    if i == 0 {
      var network, peers :| states[0] == Started(env.chainId, network, peers);
      StartedSound(env, network, peers);
    } else {
      NodeRunSound(env, states, commands, i - 1);
      HandleKeeps(env, states[i - 1], commands[i - 1].0, commands[i - 1].1);
    }
  }

  /** A halt is permanent, and from then on the node signs nothing and its chain and mempool stand still. */
  lemma {:induction false} HaltIsForever(env: Env, states: seq<Actor>, commands: seq<(Command, nat)>, i: nat, j: nat)
    requires |env.validators| > 0 && NodeRun(env, states, commands) && i <= j < |states| && states[i].halted
    ensures states[j].halted && states[j].signed == states[i].signed && SameChain(states[i], states[j])
    decreases j
  {
    hide Invariant, Handle;
    if i < j {
      HaltIsForever(env, states, commands, i, j - 1);
      NodeRunSound(env, states, commands, j - 1);
      HandleKeeps(env, states[j - 1], commands[j - 1].0, commands[j - 1].1);
    }
  }

  /** Whenever a node's signatures grow, it was a validator, neither synchronizing nor halted. */
  lemma VotesOnlyInTurn(env: Env, states: seq<Actor>, commands: seq<(Command, nat)>, i: nat)
    requires |env.validators| > 0 && NodeRun(env, states, commands) && i < |commands|
    requires states[i + 1].signed != states[i].signed
    ensures env.role.Validator? && states[i].syncTarget.None? && !states[i].halted
  {
    hide Invariant, Handle;
    NodeRunSound(env, states, commands, i);
    HandleKeeps(env, states[i], commands[i].0, commands[i].1);
  }

  // ---------------------------------------------------------------- stale replies

  /** What is known of the active request. */
  ghost predicate SameRequest(a: Actor, b: Actor)
  {
    b.syncRequestId == a.syncRequestId && b.syncPeer == a.syncPeer && b.syncRequestDeadline == a.syncRequestDeadline
  }

  lemma StaleReplyHandled(env: Env, a: Actor, from: PeerId, intent: Intent, reply: SyncReply, now: nat)
    requires a.syncRequestId.Some? && a.syncRequestId != Some(intent.requestId)
    ensures SameRequest(a, HandleResponse(env, a, from, intent, reply, now).actor)
  {
    hide ProofFault, BeginSync, HandleBlocks;
    if reply.StatusReply? && IntentFault(a, from, intent, reply).None? {
      BeginSyncFrame(a, from, reply.height, now);
    }
  }

  /** Replies and failures that belong to an earlier request never cancel the one that replaced it. */
  lemma SuccessorSurvives(env: Env, a: Actor, command: Command, now: nat)
    requires |env.validators| > 0 && a.syncRequestId.Some?
    requires (command.SyncResponse? || command.SyncFailure?) && a.syncRequestId != Some(command.intent.requestId)
    ensures SameRequest(a, Handle(env, a, command, now))
  {
    hide HandleResponse;
    if command.SyncResponse? {
      StaleReplyHandled(env, a, command.from, command.intent, command.reply, now);
    }
  }

  /** Nor does a watchdog tick before the deadline of the active request. */
  lemma EarlyWatchdogIsIdle(a: Actor, now: nat)
    requires a.syncRequestDeadline.Some? && now < a.syncRequestDeadline.value
    ensures RetryTimedOut(a, now) == Done(a)
  {
  }

  /** A tick past the deadline replaces the request, preferably by one to another peer. */
  lemma LateWatchdogRotates(a: Actor, now: nat)
    requires RequestSound(a) && !a.halted && a.network.Running? && a.peers != {} && a.ledger.height < U64_MAX
    requires a.syncRequestDeadline.Some? && a.syncRequestDeadline.value <= now
    ensures var b := RetryTimedOut(a, now).actor;
      && b.syncRequestId == Some(a.nextRequestId) && b.syncRequestId != a.syncRequestId
      && b.syncPeer.Some? && b.syncPeer.value in a.peers
      && (b.syncPeer == a.syncPeer ==> a.peers == {a.syncPeer.value})
      && b.syncRequestDeadline == Some(now + WATCHDOG_MS)
  {
  }

  // ---------------------------------------------------------------- a standalone node can stall

  /**
   * Why the role matters: a standalone node produces blocks while it synchronizes. Once its own height
   * has reached the target, an empty reply to the active request drops that request and leaves the
   * target set, with a connected peer and nothing on its way.
   */
  lemma StandaloneCanStall(env: Env, a: Actor, peer: PeerId, id: RequestId, now: nat)
    requires |env.validators| > 0
    requires a.network.Running? && peer in a.peers && a.ledger.height < U64_MAX
    requires a.syncTarget.Some? && a.syncTarget.value <= a.ledger.height
    requires a.syncPeer == Some(peer) && a.syncRequestId == Some(id)
    ensures var intent := Intent(id, peer, BlocksRequest(a.ledger.height + 1, SYNC_BATCH_LIMIT));
      var b := Handle(env, a, SyncResponse(peer, intent, BlocksReply([])), now);
      b.syncTarget == a.syncTarget && b.network.Running? && b.peers == a.peers && b.syncRequestId.None?
  {
  }

  /** How a standalone node gets there: a block of its own may reach the target without clearing it. */
  lemma StandaloneKeepsTarget(env: Env, a: Actor, wallClockMs: nat)
    requires |env.validators| > 0
    ensures var r := ProduceStandalone(env, a, wallClockMs);
      && r.actor.syncTarget == a.syncTarget && r.actor.syncRequestId == a.syncRequestId && r.actor.peers == a.peers
      && (r.error.None? ==> r.actor.ledger.height == a.ledger.height + 1)
  {
    hide Commit, BuildBlock, FirstOf;
    var built := BuildBlock(env.c, a.ledger, env.validators[a.ledger.height % |env.validators|], 0, wallClockMs, FirstOf(a.mempool));
    if built.Ok? {
      CommitFrame(env, a, Certified(built.value, env.selfCertify(built.value)));
    }
  }

  lemma CommitFrame(env: Env, a: Actor, record: Certified)
    ensures var r := Commit(env, a, record);
      && r.actor.syncTarget == a.syncTarget && r.actor.syncRequestId == a.syncRequestId && r.actor.peers == a.peers
      && (r.error.None? ==> r.actor.ledger.height == a.ledger.height + 1)
  {
    hide CertifiesBlock, ApplyBlock, Survivors;
    BlockRaisesHeight(env.c, a.ledger, record.block);
  }

  lemma BlockRaisesHeight(c: Crypto, l: Ledger, b: LedgerBlock)
    ensures ApplyBlock(c, l, b).Ok? ==> ApplyBlock(c, l, b).value.0.height == l.height + 1
  {
    hide ApplyAll, CommitmentsFault, TimestampAllowed;
  }

  // ---------------------------------------------------------------- halts and agreement

  /** A node halts only when it is shown a certificate for a block other than its own at some height. */
  lemma HaltNeedsConflict(env: Env, a: Actor, command: Command, now: nat)
    requires |env.validators| > 0 && Invariant(env, a) && !a.halted
    requires Handle(env, a, command, now).halted
    ensures command.ImportFinalized?
    ensures var record := command.record;
      var height := record.block.header.height;
      && 0 < height <= |a.history|
      && CertifiesBlock(env.c, record.certificate, record.block, env.validators, env.genuine)
      && record.block.header.chainId == env.chainId
      && env.c.blockId(record.block.header) != env.c.blockId(a.history[height - 1].block.header)
  {
    hide Invariant, Commit, ApplyAll, CertifiesBlock;
    if !command.ImportFinalized? {
      OthersDoNotHalt(env, a, command, now);
    } else {
      ImportHaltsIff(env, a, command.record, command.source, now);
    }
  }

  /** An import halts exactly on a verified record of a stored height with another block id. */
  lemma ImportHaltsIff(env: Env, a: Actor, record: Certified, source: Option<PeerId>, now: nat)
    requires !a.halted
    ensures var height := record.block.header.height;
      Import(env, a, record, source, now).actor.halted
      <==> ProofFault(env, a, record).None? && height <= a.ledger.height && 0 < height <= |a.history|
           && env.c.blockId(record.block.header) != env.c.blockId(a.history[height - 1].block.header)
  {
    hide Commit, ProofFault, BeginSync;
    CommitHalts(env, a, record);
    if source.Some? {
      BeginSyncHalts(a, source.value, record.block.header.height, now);
    }
  }

  lemma CommitHalts(env: Env, a: Actor, record: Certified)
    ensures Commit(env, a, record).actor.halted == a.halted
  {
    hide CertifiesBlock, ApplyBlock, Survivors;
  }

  lemma BeginSyncHalts(a: Actor, peer: PeerId, target: Word64, now: nat)
    ensures BeginSync(a, peer, target, now).actor.halted == a.halted
  {
  }

  lemma {:induction false} BatchDoesNotHalt(env: Env, a: Actor, records: seq<Certified>, now: nat)
    requires Invariant(env, a) && !a.halted && InSequence(records, a.ledger.height)
    ensures !ImportAll(env, a, records, now).actor.halted
    decreases |records|
  {
    hide Invariant, Import;
    if records != [] {
      var init := records[..|records| - 1];
      var before := ImportAll(env, a, init, now);
      BatchDoesNotHalt(env, a, init, now);
      if before.error.None? {
        ImportAllKeeps(env, a, init, now);
        BatchAdvances(env, a, init, now);
        NextDoesNotHalt(env, before.actor, records[|records| - 1], now);
      }
    }
  }

  lemma NextDoesNotHalt(env: Env, a: Actor, record: Certified, now: nat)
    requires Invariant(env, a) && !a.halted && record.block.header.height == a.ledger.height + 1
    ensures !Import(env, a, record, None, now).actor.halted
  {
    hide Invariant, Commit, ProofFault;
    CommitHalts(env, a, record);
  }

  lemma RetryHalts(a: Actor, failed: PeerId, requestId: Option<RequestId>, now: nat)
    ensures Retry(a, failed, requestId, now).actor.halted == a.halted
  {
  }

  lemma ResponseDoesNotHalt(env: Env, a: Actor, from: PeerId, intent: Intent, reply: SyncReply, now: nat)
    requires Invariant(env, a) && !a.halted
    ensures !HandleResponse(env, a, from, intent, reply, now).actor.halted
  {
    hide Invariant, ImportAll, BeginSync, ProofFault, RequestBlocks, IntentFault;
    if reply.StatusReply? {
      BeginSyncHalts(a, from, reply.height, now);
    }
    if reply.BlocksReply? && Decoded(reply.records).Some? && InSequence(Decoded(reply.records).value, a.ledger.height) {
      BatchDoesNotHalt(env, a, Decoded(reply.records).value, now);
      RequestHalts(ImportAll(env, a, Decoded(reply.records).value, now).actor, from, now);
    }
  }

  lemma RequestHalts(a: Actor, peer: PeerId, now: nat)
    ensures RequestBlocks(a, peer, now).actor.halted == a.halted
  {
  }

  lemma TickDoesNotHalt(env: Env, a: Actor, heartbeatDue: bool, wallClockMs: nat, onStart: seq<EngineRequest>, now: nat)
    requires |env.validators| > 0 && Invariant(env, a) && !a.halted
    ensures !HandleTick(env, a, heartbeatDue, wallClockMs, onStart, now).actor.halted
  {
    Parts(env, a);
    hide ChainSound, MempoolSound, SyncSound, Commit, BuildBlock, EnsureStarted, Retry, FirstOf;
    RetryTimedOutKeeps(env, a, now);
    if a.syncPeer.Some? {
      RetryHalts(a, a.syncPeer.value, a.syncRequestId, now);
    }
    var b := RetryTimedOut(a, now).actor;
    SameChainKeeps(env, a, b);
    EnsureStartedKeeps(env, b, onStart);
    var built := BuildBlock(env.c, b.ledger, env.validators[b.ledger.height % |env.validators|], 0, wallClockMs, FirstOf(b.mempool));
    if built.Ok? {
      CommitKeeps(env, b, Certified(built.value, env.selfCertify(built.value)));
    }
  }

  lemma OthersDoNotHalt(env: Env, a: Actor, command: Command, now: nat)
    requires |env.validators| > 0 && Invariant(env, a) && !a.halted && !command.ImportFinalized?
    ensures !Handle(env, a, command, now).halted
  {
    hide Invariant, HandleTick, EnsureStarted, ProcessConsensus, Import, HandleResponse, Retry, ApplyAll, Validate;
    match command
    case Tick(heartbeatDue, wallClockMs, onStart) => TickDoesNotHalt(env, a, heartbeatDue, wallClockMs, onStart, now);
    case ConsensusMessage(onStart, onMessage) =>
      EnsureStartedKeeps(env, a, onStart);
      ProcessKeeps(env, EnsureStarted(env, a, onStart).actor, onMessage);
    case ConsensusTimeout(requests) => ProcessKeeps(env, a, requests);
    case PeerDisconnected(peer) => RetryHalts(a.(peers := a.peers - {peer}), peer, None, now);
    case SyncResponse(from, intent, reply) =>
      ResponseDoesNotHalt(env, a, from, intent, reply, now);
      RetryHalts(HandleResponse(env, a, from, intent, reply, now).actor, intent.peer, Some(intent.requestId), now);
    case SyncFailure(intent) => RetryHalts(a, intent.peer, Some(intent.requestId), now);
    case _ =>
  }

  lemma StoredBlockCertified(env: Env, a: Actor, height: nat)
    requires ChainSound(env, a) && 0 < height <= |a.history|
    ensures var record := a.history[height - 1];
      && CertifiesBlock(env.c, record.certificate, record.block, env.validators, env.genuine)
      && record.certificate.height == height && record.certificate.chainId == env.chainId
  {
    hide CertifiesBlock;
    PrefixReplays(env.c, env.chainId, a.history, height, env.validators, env.genuine);
    LastHeight(env.c, env.chainId, a.history[..height], env.validators, env.genuine);
  }

  /**
   * Within the fault bound no command makes a node halt: the conflict it would need is two certified
   * blocks at one height, which consensus rules out.
   */
  lemma NeverHalts(env: Env, a: Actor, command: Command, now: nat, w: World, states: seq<Net>, actions: seq<Action>)
    requires |env.validators| > 0 && Invariant(env, a) && !a.halted
    requires command.ImportFinalized? ==>
      Governs(w, states, actions, env.chainId, env.validators, command.record.block.header.height, env.genuine)
    ensures !Handle(env, a, command, now).halted
  {
    hide Invariant, Handle, Init, Next, NetSound, CertifiesBlock, World.Valid, World.FaultsBounded;
    if Handle(env, a, command, now).halted {
      HaltNeedsConflict(env, a, command, now);
      var record := command.record;
      var height := record.block.header.height;
      Parts(env, a);
      StoredBlockCertified(env, a, height);
      RunSound(w, states, actions, |actions|);
      CertifiedIdsAgree(env, w, states[|actions|], record, a.history[height - 1], height);
    }
  }

  /**
   * So over a whole run no node halts over a conflict, if the fault bound holds at every height for
   * which it is shown a certificate.
   */
  lemma {:induction false} RunNeverHalts(
    env: Env, states: seq<Actor>, commands: seq<(Command, nat)>, i: nat,
    worlds: nat -> World, nets: nat -> seq<Net>, actions: nat -> seq<Action>)
    requires |env.validators| > 0 && NodeRun(env, states, commands) && i < |states|
    requires forall k :: 0 <= k < |commands| && commands[k].0.ImportFinalized? ==>
      var height := commands[k].0.record.block.header.height;
      Governs(worlds(height), nets(height), actions(height), env.chainId, env.validators, height, env.genuine)
    ensures !states[i].halted
    decreases i
  {
    hide Invariant, Handle, Governs;
    if i == 0 {
      var network, peers :| states[0] == Started(env.chainId, network, peers);
    } else {
      RunNeverHalts(env, states, commands, i - 1, worlds, nets, actions);
      NodeRunSound(env, states, commands, i - 1);
      var command, now := commands[i - 1].0, commands[i - 1].1;
      var height: nat := if command.ImportFinalized? then command.record.block.header.height else 0;
      NeverHalts(env, states[i - 1], command, now, worlds(height), nets(height), actions(height));
    }
  }

  lemma CertifiedIdsAgree(env: Env, w: World, s: Net, x: Certified, y: Certified, height: nat)
    requires w.Valid() && w.FaultsBounded() && NetSound(w, s)
    requires w.config.chainId == env.chainId && w.validators.validators == env.validators && w.height == height
    requires forall signed :: env.genuine(signed) && signed.vote.height == height ==> signed in s.auth
    requires CertifiesBlock(env.c, x.certificate, x.block, env.validators, env.genuine)
    requires CertifiesBlock(env.c, y.certificate, y.block, env.validators, env.genuine)
    requires x.block.header.height == height && x.block.header.chainId == env.chainId
    requires y.certificate.height == height && y.certificate.chainId == env.chainId
    ensures env.c.blockId(x.block.header) == env.c.blockId(y.block.header)
  {
    hide NetSound, World.Valid, World.FaultsBounded, Certificates.Verified;
    VerifiedCertificatesAgree(w, s, x.certificate, y.certificate, env.genuine);
  }

  lemma ChainParts(env: Env, a: Actor)
    requires Invariant(env, a)
    ensures ChainIdValid(env.chainId) && a.ledger.height == |a.history|
    ensures ReplaysFinalized(env.c, env.chainId, a.history, env.validators, env.genuine)
    ensures Replay(env.c, env.chainId, BlocksOf(a.history)) == Ok(a.ledger)
  {
    hide SyncSound, MempoolSound, ReplaysFinalized;
    ChainLedgerSound(env, a);
  }

  /**
   * Nodes of one network hold prefixes of one chain, and the same ledger at the same height, if the
   * fault bound holds at the lower of their heights. Roles, mempools and schedules do not matter.
   */
  lemma NodesAgree(
    x: Env, y: Env, a: Actor, b: Actor, w: World, states: seq<Net>, actions: seq<Action>)
    requires x.c == y.c && x.chainId == y.chainId && x.validators == y.validators && x.genuine == y.genuine
    requires HashesBind(x.c) && Invariant(x, a) && Invariant(y, b) && 0 < |a.history| <= |b.history|
    requires Governs(w, states, actions, x.chainId, x.validators, |a.history|, x.genuine)
    ensures BlocksOf(a.history) == BlocksOf(b.history)[..|a.history|]
    ensures a.ledger.height == b.ledger.height ==> a.ledger == b.ledger
  {
    hide HashesBind, Governs, Invariant, ReplaysFinalized, Sound, Replay;
    ChainParts(x, a);
    ChainParts(y, b);
    ReplicasAgree(x.c, x.chainId, a.history, b.history, x.validators, x.genuine, w, states, actions);
    assert |a.history| == |b.history| ==> BlocksOf(b.history)[..|a.history|] == BlocksOf(b.history);
  }

  // ---------------------------------------------------------------- where targets come from

  ghost predicate TargetKept(a: Actor, b: Actor)
  {
    b.syncTarget == a.syncTarget || b.syncTarget.None?
  }

  lemma ImportTarget(env: Env, a: Actor, record: Certified, source: Option<PeerId>, now: nat)
    ensures var b := Import(env, a, record, source, now).actor;
      TargetKept(a, b)
      || (source.Some? && ProofFault(env, a, record).None? && b.syncTarget == Some(record.block.header.height))
  {
    hide Commit, ProofFault;
    CommitFrame(env, a, record);
  }

  lemma {:induction false} BatchTarget(env: Env, a: Actor, records: seq<Certified>, now: nat)
    ensures TargetKept(a, ImportAll(env, a, records, now).actor)
    decreases |records|
  {
    hide Import;
    if records != [] {
      var before := ImportAll(env, a, records[..|records| - 1], now);
      BatchTarget(env, a, records[..|records| - 1], now);
      ImportTarget(env, before.actor, records[|records| - 1], None, now);
    }
  }

  lemma {:induction false} ServeTarget(env: Env, a: Actor, requests: seq<EngineRequest>)
    ensures Serve(env, a, requests).actor.syncTarget == a.syncTarget
    decreases |requests|
  {
    hide Commit;
    if requests != [] {
      var before := Serve(env, a, requests[..|requests| - 1]);
      ServeTarget(env, a, requests[..|requests| - 1]);
      if requests[|requests| - 1].CommitBlock? {
        CommitFrame(env, before.actor, requests[|requests| - 1].record);
      }
    }
  }

  lemma RetryTarget(a: Actor, failed: PeerId, requestId: Option<RequestId>, now: nat)
    ensures Retry(a, failed, requestId, now).actor.syncTarget == a.syncTarget
  {
  }

  /** The record that a command carries as proof of a height, if it carries one. */
  function ProofIn(command: Command): Option<Certified>
  {
    match command
    case ImportFinalized(record, source) => if source.Some? then Some(record) else None
    case SyncResponse(_, _, StatusReply(_, _, _, tip)) => tip
    case _ => None
  }

  lemma ResponseTarget(env: Env, a: Actor, from: PeerId, intent: Intent, reply: SyncReply, now: nat)
    ensures var b := HandleResponse(env, a, from, intent, reply, now).actor;
      TargetKept(a, b)
      || (reply.StatusReply? && reply.tip.Some? && ProofFault(env, a, reply.tip.value).None?
          && b.syncTarget == Some(reply.tip.value.block.header.height))
  {
    hide ImportAll, ProofFault, IntentFault;
    if reply.BlocksReply? && Decoded(reply.records).Some? {
      BatchTarget(env, a, Decoded(reply.records).value, now);
    }
  }

  lemma TickTarget(env: Env, a: Actor, heartbeatDue: bool, wallClockMs: nat, onStart: seq<EngineRequest>, now: nat)
    requires |env.validators| > 0
    ensures HandleTick(env, a, heartbeatDue, wallClockMs, onStart, now).actor.syncTarget == a.syncTarget
  {
    hide Retry, Commit, BuildBlock, FirstOf, Serve;
    if a.syncPeer.Some? {
      RetryTarget(a, a.syncPeer.value, a.syncRequestId, now);
    }
    var b := RetryTimedOut(a, now).actor;
    ServeTarget(env, b.(consensusStarted := true), onStart);
    var built := BuildBlock(env.c, b.ledger, env.validators[b.ledger.height % |env.validators|], 0, wallClockMs, FirstOf(b.mempool));
    if built.Ok? {
      CommitFrame(env, b, Certified(built.value, env.selfCertify(built.value)));
    }
  }

  /**
   * A node starts or extends a synchronization only on proof: a new target is the height of a block
   * whose certificate passed verification. Votes, proposals and bare height claims never set one.
   */
  lemma TargetNeedsProof(env: Env, a: Actor, command: Command, now: nat)
    requires |env.validators| > 0
    ensures var b := Handle(env, a, command, now);
      TargetKept(a, b)
      || (ProofIn(command).Some? && ProofFault(env, a, ProofIn(command).value).None?
          && b.syncTarget == Some(ProofIn(command).value.block.header.height))
  {
    hide HandleTick, Serve, Import, HandleResponse, Retry, ProofFault, ApplyAll, Validate;
    match command
    case Tick(heartbeatDue, wallClockMs, onStart) => TickTarget(env, a, heartbeatDue, wallClockMs, onStart, now);
    case ConsensusMessage(onStart, onMessage) =>
      ServeTarget(env, a.(consensusStarted := true), onStart);
      ServeTarget(env, EnsureStarted(env, a, onStart).actor, onMessage);
    case ConsensusTimeout(requests) => ServeTarget(env, a, requests);
    case ImportFinalized(record, source) => ImportTarget(env, a, record, source, now);
    case PeerDisconnected(peer) => RetryTarget(a.(peers := a.peers - {peer}), peer, None, now);
    case SyncResponse(from, intent, reply) =>
      ResponseTarget(env, a, from, intent, reply, now);
      RetryTarget(HandleResponse(env, a, from, intent, reply, now).actor, intent.peer, Some(intent.requestId), now);
    case SyncFailure(intent) => RetryTarget(a, intent.peer, Some(intent.requestId), now);
    case _ =>
  }
}
