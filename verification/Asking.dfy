/**
 * When the synchronizer stops asking. In every role the two invariants "a target is ahead of the
 * ledger" and "a target with a connected peer has a request on its way" are kept by every command,
 * except for the steps that are stated here exactly.
 */
module Asking {
  import opened Wrappers
  import opened ConsensusTypes
  import opened LedgerSpec
  import opened LedgerInvariant
  import opened Blocks
  import opened NodeSpec
  import opened NodeInvariant
  import opened NodeTheorems
  import opened Mempool
  import Certificates
  import Merkle

  /** As long as a node synchronizes, a next height exists in 64 bits. */
  ghost predicate Room(a: Actor)
  {
    a.syncTarget.Some? ==> a.ledger.height < U64_MAX
  }

  // ---------------------------------------------------------------- which step loses the request

  /** An empty reply to the active request, when the node's own height has reached the target. */
  ghost predicate Stalls(a: Actor, command: Command)
  {
    && command.SyncResponse? && command.reply == BlocksReply([])
    && IntentFault(a, command.from, command.intent, command.reply).None?
    && a.network.Running? && a.peers != {}
    && a.syncTarget.Some? && a.syncTarget.value <= a.ledger.height
  }

  lemma RetryAsks(a: Actor, failed: PeerId, requestId: Option<RequestId>, now: nat)
    requires RequestSound(a) && Room(a)
    requires Asking(a) || (a.syncTarget.Some? && a.syncPeer == Some(failed) && requestId.None?)
    ensures Asking(Retry(a, failed, requestId, now).actor)
  {
  }

  /** What a commit leaves alone. */
  lemma CommitKeepsSync(env: Env, a: Actor, record: Certified)
    ensures Commit(env, a, record).error.Some? ==> Commit(env, a, record).actor == a
    ensures var b := Commit(env, a, record).actor;
      b.(ledger := a.ledger, history := a.history, mempool := a.mempool, mempoolIds := a.mempoolIds) == a
  {
    hide CertifiesBlock, ApplyBlock, Survivors;
  }

  lemma TargetFits(a: Actor)
    ensures a.syncTarget.Some? ==> a.syncTarget.value <= U64_MAX
  {
  }

  lemma ImportAsks(env: Env, a: Actor, record: Certified, source: Option<PeerId>, now: nat)
    requires Asking(a) && RequestSound(a) && Room(a)
    ensures var b := Import(env, a, record, source, now).actor;
      Asking(b) && RequestSound(b) && Room(b)
  {
    hide Commit, ProofFault;
    CommitKeepsSync(env, a, record);
    TargetFits(a);
    BeginSyncFrame(a, if source.Some? then source.value else 0, record.block.header.height, now);
  }

  lemma {:induction false} ImportAllAsks(env: Env, a: Actor, records: seq<Certified>, now: nat)
    requires Asking(a) && RequestSound(a) && Room(a)
    ensures var b := ImportAll(env, a, records, now).actor;
      Asking(b) && RequestSound(b) && Room(b)
    decreases |records|
  {
    hide Import, Asking, RequestSound, Room;
    if records != [] {
      var before := ImportAll(env, a, records[..|records| - 1], now);
      ImportAllAsks(env, a, records[..|records| - 1], now);
      ImportAsks(env, before.actor, records[|records| - 1], None, now);
    }
  }

  /** A reply keeps the node asking unless it is the one that stalls it. */
  lemma ResponseAsks(env: Env, a: Actor, from: PeerId, intent: Intent, reply: SyncReply, now: nat)
    requires Asking(a) && RequestSound(a) && Room(a)
    ensures var r := HandleResponse(env, a, from, intent, reply, now);
      if Stalls(a, SyncResponse(from, intent, reply)) then r.error.None? && !Asking(r.actor)
      else Asking(r.actor) && RequestSound(r.actor) && Room(r.actor)
  {
    hide ImportAll, ProofFault, IntentFault, Asking, RequestSound;
    if IntentFault(a, from, intent, reply).None? {
      BlocksNeedRequest(a, from, intent, reply);
      match reply
      case StatusReply(height, _, _, _) => StatusAsks(env, a, from, reply, now);
      case BlocksReply(records) =>
        if records == [] {
          EmptyReplyAsks(env, a, from, now);
        } else {
          BlocksAsk(env, a, from, records, now);
        }
      case ErrorReply =>
    }
  }

  lemma BlocksNeedRequest(a: Actor, from: PeerId, intent: Intent, reply: SyncReply)
    requires IntentFault(a, from, intent, reply).None?
    ensures reply.BlocksReply? ==> intent.request.BlocksRequest? && a.syncTarget.Some? && a.syncRequestId == Some(intent.requestId)
  {
  }

  lemma StatusAsks(env: Env, a: Actor, from: PeerId, reply: SyncReply, now: nat)
    requires Asking(a) && RequestSound(a) && Room(a) && reply.StatusReply?
    ensures var b := HandleStatus(env, a, from, reply, now).actor;
      Asking(b) && RequestSound(b) && Room(b)
  {
    hide ProofFault;
    BeginSyncFrame(a, from, reply.height, now);
  }

  lemma EmptyReplyAsks(env: Env, a: Actor, from: PeerId, now: nat)
    requires Asking(a) && RequestSound(a) && Room(a) && a.syncTarget.Some?
    ensures var r := HandleBlocks(env, a, from, [], now);
      if a.network.Running? && a.peers != {} && a.syncTarget.value <= a.ledger.height then r.error.None? && !Asking(r.actor)
      else Asking(r.actor) && RequestSound(r.actor) && Room(r.actor)
  {
  }

  lemma BlocksAsk(env: Env, a: Actor, from: PeerId, records: seq<Option<Certified>>, now: nat)
    requires Asking(a) && RequestSound(a) && Room(a) && records != []
    ensures var b := HandleBlocks(env, a, from, records, now).actor;
      Asking(b) && RequestSound(b) && Room(b)
  {
    hide ImportAll, InSequence;
    if Decoded(records).Some? {
      ImportAllAsks(env, a, Decoded(records).value, now);
    }
  }

  lemma {:induction false} ServeKeepsSync(env: Env, a: Actor, requests: seq<EngineRequest>)
    ensures var b := Serve(env, a, requests).actor;
      && b.network == a.network && b.peers == a.peers && b.syncTarget == a.syncTarget && b.syncRequestId == a.syncRequestId
    decreases |requests|
  {
    hide Commit;
    if requests != [] {
      var before := Serve(env, a, requests[..|requests| - 1]);
      ServeKeepsSync(env, a, requests[..|requests| - 1]);
      if requests[|requests| - 1].CommitBlock? {
        CommitKeepsSync(env, before.actor, requests[|requests| - 1].record);
      }
    }
  }

  lemma TickAsks(env: Env, a: Actor, heartbeatDue: bool, wallClockMs: nat, onStart: seq<EngineRequest>, now: nat)
    requires |env.validators| > 0 && Asking(a) && RequestSound(a) && Room(a)
    ensures Asking(HandleTick(env, a, heartbeatDue, wallClockMs, onStart, now).actor)
  {
    hide Retry, Commit, BuildBlock, FirstOf, Serve;
    if a.syncPeer.Some? {
      RetryAsks(a, a.syncPeer.value, a.syncRequestId, now);
    }
    var b := RetryTimedOut(a, now).actor;
    ServeKeepsSync(env, b.(consensusStarted := true), onStart);
    var built := BuildBlock(env.c, b.ledger, env.validators[b.ledger.height % |env.validators|], 0, wallClockMs, FirstOf(b.mempool));
    if built.Ok? {
      CommitKeepsSync(env, b, Certified(built.value, env.selfCertify(built.value)));
    }
  }

  lemma AskingLostWithRoom(env: Env, a: Actor, command: Command, now: nat)
    requires |env.validators| > 0 && Asking(a) && RequestSound(a) && Room(a)
    ensures !Asking(Handle(env, a, command, now)) <==> Stalls(a, command)
  {
    hide HandleTick, Serve, Import, HandleResponse, Retry, ProofFault, ApplyAll, Validate;
    match command
    case Submit(tx) =>
    case Tick(heartbeatDue, wallClockMs, onStart) => TickAsks(env, a, heartbeatDue, wallClockMs, onStart, now);
    case ConsensusMessage(onStart, onMessage) =>
      ServeKeepsSync(env, a.(consensusStarted := true), onStart);
      ServeKeepsSync(env, EnsureStarted(env, a, onStart).actor, onMessage);
    case ConsensusTimeout(requests) => ServeKeepsSync(env, a, requests);
    case ImportFinalized(record, source) => ImportAsks(env, a, record, source, now);
    case PeerConnected(peer) =>
    case PeerDisconnected(peer) => RetryAsks(a.(peers := a.peers - {peer}), peer, None, now);
    case SyncResponse(from, intent, reply) =>
      ResponseAsks(env, a, from, intent, reply, now);
      var handled := HandleResponse(env, a, from, intent, reply, now);
      if handled.error.Some? {
        RetryAsks(handled.actor, intent.peer, Some(intent.requestId), now);
      }
    case SyncFailure(intent) => RetryAsks(a, intent.peer, Some(intent.requestId), now);
    case NetworkStops =>
  }

  // ---------------------------------------------------------------- the end of all heights

  /** The commands that drop the active request, or find none, and send the next one. */
  ghost predicate AsksAgain(a: Actor, command: Command, now: nat)
  {
    match command
    case Tick(_, _, _) => a.syncRequestDeadline.Some? && a.syncRequestDeadline.value <= now && a.peers != {}
    case PeerConnected(_) => a.syncRequestId.None?
    case PeerDisconnected(peer) => a.syncPeer == Some(peer) && a.peers - {peer} != {}
    case SyncResponse(from, intent, reply) =>
      && a.syncPeer == Some(intent.peer) && a.syncRequestId == Some(intent.requestId) && a.peers != {}
      && !(from == intent.peer && intent.request.StatusRequest? && reply.StatusReply?)
    case SyncFailure(intent) =>
      intent.request.BlocksRequest? && a.syncPeer == Some(intent.peer) && a.syncRequestId == Some(intent.requestId) && a.peers != {}
    case _ => false
  }

  /** With the last 64-bit height on the ledger and a target still set, there is no height to ask for. */
  ghost predicate Exhausts(a: Actor, command: Command, now: nat)
  {
    !Room(a) && a.network.Running? && AsksAgain(a, command, now)
  }

  lemma RetryExhausts(a: Actor, failed: PeerId, requestId: Option<RequestId>, now: nat)
    requires RequestSound(a) && !Room(a)
    requires Asking(a) || (a.syncPeer == Some(failed) && requestId.None?)
    ensures !Asking(Retry(a, failed, requestId, now).actor)
      <==> a.network.Running? && a.peers != {} && a.syncPeer == Some(failed) && (requestId.None? || requestId == a.syncRequestId)
  {
  }

  lemma ResponseExhausts(env: Env, a: Actor, from: PeerId, intent: Intent, reply: SyncReply, now: nat)
    requires RequestSound(a) && !Room(a)
    ensures var r := HandleResponse(env, a, from, intent, reply, now);
      r.actor == a && (r.error.None? <==> from == intent.peer && intent.request.StatusRequest? && reply.StatusReply?)
  {
    hide ImportAll, ProofFault;
  }

  lemma ImportExhausts(env: Env, a: Actor, record: Certified, source: Option<PeerId>, now: nat)
    requires !Room(a)
    ensures var b := Import(env, a, record, source, now).actor; b == a || b == Halt(a)
  {
    hide Commit, ProofFault, BeginSync;
  }

  lemma TickExhausts(env: Env, a: Actor, heartbeatDue: bool, wallClockMs: nat, onStart: seq<EngineRequest>, now: nat)
    requires |env.validators| > 0 && Asking(a) && RequestSound(a) && !Room(a)
    ensures !Asking(HandleTick(env, a, heartbeatDue, wallClockMs, onStart, now).actor)
      <==> Exhausts(a, Tick(heartbeatDue, wallClockMs, onStart), now)
  {
    hide Retry, Commit, BuildBlock, FirstOf, Serve;
    if a.syncPeer.Some? {
      RetryExhausts(a, a.syncPeer.value, a.syncRequestId, now);
    }
    var b := RetryTimedOut(a, now).actor;
    ServeKeepsSync(env, b.(consensusStarted := true), onStart);
    RetryOutcome(a, now);
    var built := BuildBlock(env.c, b.ledger, env.validators[b.ledger.height % |env.validators|], 0, wallClockMs, FirstOf(b.mempool));
    if built.Ok? {
      CommitKeepsSync(env, b, Certified(built.value, env.selfCertify(built.value)));
    }
  }

  lemma RetryOutcome(a: Actor, now: nat)
    ensures var b := RetryTimedOut(a, now).actor;
      b.network == a.network && b.peers == a.peers && b.syncTarget == a.syncTarget && b.halted == a.halted
  {
  }

  lemma AskingLostWithoutRoom(env: Env, a: Actor, command: Command, now: nat)
    requires |env.validators| > 0 && Asking(a) && RequestSound(a) && !Room(a)
    ensures !Asking(Handle(env, a, command, now)) <==> Exhausts(a, command, now)
    ensures !Stalls(a, command)
  {
    hide HandleTick, Serve, Import, HandleResponse, Retry, ProofFault, ApplyAll, Validate;
    match command
    case Submit(tx) =>
    case Tick(heartbeatDue, wallClockMs, onStart) => TickExhausts(env, a, heartbeatDue, wallClockMs, onStart, now);
    case ConsensusMessage(onStart, onMessage) =>
    case ConsensusTimeout(requests) =>
    case ImportFinalized(record, source) => ImportExhausts(env, a, record, source, now);
    case PeerConnected(peer) =>
    case PeerDisconnected(peer) =>
      if a.syncPeer == Some(peer) { RetryExhausts(a.(peers := a.peers - {peer}), peer, None, now); }
    case SyncResponse(from, intent, reply) =>
      ResponseExhausts(env, a, from, intent, reply, now);
      RetryExhausts(a, intent.peer, Some(intent.requestId), now);
    case SyncFailure(intent) => RetryExhausts(a, intent.peer, Some(intent.requestId), now);
    case NetworkStops =>
  }

  /**
   * Exactly when an asking node stops asking, in any role: on an empty reply to the active request at
   * a moment when its own ledger has already reached the target, or when it would have to ask for a
   * height beyond 64 bits.
   */
  lemma AskingLostIff(env: Env, a: Actor, command: Command, now: nat)
    requires |env.validators| > 0 && Asking(a) && RequestSound(a)
    ensures !Asking(Handle(env, a, command, now)) <==> Stalls(a, command) || Exhausts(a, command, now)
  {
    hide Handle, Asking, RequestSound, Room, Stalls, AsksAgain;
    if Room(a) {
      AskingLostWithRoom(env, a, command, now);
    } else {
      AskingLostWithoutRoom(env, a, command, now);
    }
  }

  // ---------------------------------------------------------------- which step overtakes the target

  /** A block of its own takes a standalone node to its target. */
  ghost predicate Overtakes(env: Env, a: Actor, command: Command, now: nat)
    requires |env.validators| > 0
  {
    && command.Tick? && env.role.Standalone?
    && a.syncTarget.Some? && a.syncTarget.value == a.ledger.height + 1
    && (a.mempool != [] || command.heartbeatDue)
    && RetryTimedOut(a, now).error.None?
    && ProduceStandalone(env, RetryTimedOut(a, now).actor, command.wallClockMs).error.None?
  }

  lemma ImportStaysAhead(env: Env, a: Actor, record: Certified, source: Option<PeerId>, now: nat)
    requires Ahead(a)
    ensures Ahead(Import(env, a, record, source, now).actor)
  {
    hide Commit, ProofFault;
    CommitKeepsSync(env, a, record);
    BeginSyncFrame(a, if source.Some? then source.value else 0, record.block.header.height, now);
  }

  lemma {:induction false} ImportAllStaysAhead(env: Env, a: Actor, records: seq<Certified>, now: nat)
    requires Ahead(a)
    ensures Ahead(ImportAll(env, a, records, now).actor)
    decreases |records|
  {
    hide Import, Ahead;
    if records != [] {
      var before := ImportAll(env, a, records[..|records| - 1], now);
      ImportAllStaysAhead(env, a, records[..|records| - 1], now);
      ImportStaysAhead(env, before.actor, records[|records| - 1], None, now);
    }
  }

  lemma ResponseStaysAhead(env: Env, a: Actor, from: PeerId, intent: Intent, reply: SyncReply, now: nat)
    requires Ahead(a)
    ensures Ahead(HandleResponse(env, a, from, intent, reply, now).actor)
  {
    hide ImportAll, ProofFault, IntentFault;
    if reply.BlocksReply? && Decoded(reply.records).Some? {
      ImportAllStaysAhead(env, a, Decoded(reply.records).value, now);
    }
  }

  lemma RetryKeepsTarget(a: Actor, failed: PeerId, requestId: Option<RequestId>, now: nat)
    ensures var b := Retry(a, failed, requestId, now).actor;
      b.syncTarget == a.syncTarget && b.ledger == a.ledger && b.halted == a.halted && b.mempool == a.mempool
  {
  }

  lemma TickOvertakes(env: Env, a: Actor, heartbeatDue: bool, wallClockMs: nat, onStart: seq<EngineRequest>, now: nat)
    requires |env.validators| > 0 && Ahead(a) && RequestSound(a)
    ensures !Ahead(HandleTick(env, a, heartbeatDue, wallClockMs, onStart, now).actor)
      <==> Overtakes(env, a, Tick(heartbeatDue, wallClockMs, onStart), now)
  {
    hide Retry, ProduceStandalone, Serve;
    if a.syncPeer.Some? {
      RetryKeepsTarget(a, a.syncPeer.value, a.syncRequestId, now);
    }
    var b := RetryTimedOut(a, now).actor;
    ServeKeepsSync(env, b.(consensusStarted := true), onStart);
    StandaloneKeepsTarget(env, b, wallClockMs);
    FailedProductionChangesNothing(env, b, wallClockMs);
  }

  lemma FailedProductionChangesNothing(env: Env, a: Actor, wallClockMs: nat)
    requires |env.validators| > 0
    ensures var r := ProduceStandalone(env, a, wallClockMs);
      r.error.Some? ==> r.actor == a
  {
    hide Commit, BuildBlock, FirstOf;
    var built := BuildBlock(env.c, a.ledger, env.validators[a.ledger.height % |env.validators|], 0, wallClockMs, FirstOf(a.mempool));
    if built.Ok? {
      CommitKeepsSync(env, a, Certified(built.value, env.selfCertify(built.value)));
    }
  }

  /** Exactly one kind of step brings a ledger up to a target that stays set: standalone production. */
  lemma AheadLostIff(env: Env, a: Actor, command: Command, now: nat)
    requires |env.validators| > 0 && Ahead(a) && RequestSound(a)
    ensures !Ahead(Handle(env, a, command, now)) <==> Overtakes(env, a, command, now)
  {
    hide HandleTick, Serve, Import, HandleResponse, Retry, ProofFault, ApplyAll, Validate, ProduceStandalone, RetryTimedOut;
    match command
    case Submit(tx) =>
    case Tick(heartbeatDue, wallClockMs, onStart) => TickOvertakes(env, a, heartbeatDue, wallClockMs, onStart, now);
    case ConsensusMessage(onStart, onMessage) =>
      ServeKeepsSync(env, a.(consensusStarted := true), onStart);
      ServeKeepsSync(env, EnsureStarted(env, a, onStart).actor, onMessage);
    case ConsensusTimeout(requests) => ServeKeepsSync(env, a, requests);
    case ImportFinalized(record, source) => ImportStaysAhead(env, a, record, source, now);
    case PeerConnected(peer) =>
    case PeerDisconnected(peer) => RetryKeepsTarget(a.(peers := a.peers - {peer}), peer, None, now);
    case SyncResponse(from, intent, reply) =>
      ResponseStaysAhead(env, a, from, intent, reply, now);
      RetryKeepsTarget(HandleResponse(env, a, from, intent, reply, now).actor, intent.peer, Some(intent.requestId), now);
    case SyncFailure(intent) => RetryKeepsTarget(a, intent.peer, Some(intent.requestId), now);
    case NetworkStops =>
  }

  /** While the target is ahead neither happens. */
  lemma AheadNeverStalls(a: Actor, command: Command, now: nat)
    requires Ahead(a)
    ensures !Stalls(a, command) && !Exhausts(a, command, now) && Room(a)
  {
    TargetFits(a);
  }

  // ---------------------------------------------------------------- whole runs

  /** In a run of any role, asking holds for as long as no step of the run is one of the two. */
  lemma {:induction false} AskingUntilStall(env: Env, states: seq<Actor>, commands: seq<(Command, nat)>, i: nat)
    requires |env.validators| > 0 && NodeRun(env, states, commands) && i < |states|
    requires forall k :: 0 <= k < i ==> !Stalls(states[k], commands[k].0) && !Exhausts(states[k], commands[k].0, commands[k].1)
    ensures Asking(states[i])
    decreases i
  {
    hide Invariant, Handle, Stalls, Exhausts;
    if i == 0 {
      FreshAsks(env, states, commands);
    } else {
      AskingUntilStall(env, states, commands, i - 1);
      NodeRunSound(env, states, commands, i - 1);
      RequestPart(env, states[i - 1]);
      AskingLostIff(env, states[i - 1], commands[i - 1].0, commands[i - 1].1);
    }
  }

  lemma FreshAsks(env: Env, states: seq<Actor>, commands: seq<(Command, nat)>)
    requires |env.validators| > 0 && NodeRun(env, states, commands)
    ensures Asking(states[0])
  {
    hide Handle;
  }

  lemma RequestPart(env: Env, a: Actor)
    requires Invariant(env, a)
    ensures RequestSound(a)
  {
  }

  // ---------------------------------------------------------------- a run that stalls

  /** What the three keys of a standalone node are for: they certify every block of its rotation. */
  ghost predicate SelfCertifying(env: Env)
    requires |env.validators| > 0
  {
    forall b: LedgerBlock ::
      b.header.chainId == env.chainId && b.header.round == 0 && b.header.proposer == ExpectedProposer(env.validators, b.header.height, 0)
      ==> CertifiesBlock(env.c, env.selfCertify(b), b, env.validators, env.genuine)
  }

  /** The certificate of a standalone node: three of the four development keys sign the precommit. */
  function ThreeSignatures(c: Crypto, validators: seq<ValidatorId>, sign: Vote -> Signature, b: LedgerBlock): Certificates.ProtocolCertificate
    requires |validators| == 4
  {
    var signatures := seq(3, i requires 0 <= i < 3 => Certificates.CommitSignature(validators[i], sign(PrecommitFor(c, b, validators[i]))));
    Certificates.ProtocolCertificate(PROTOCOL_VERSION, b.header.chainId, b.header.height, b.header.round, c.blockId(b.header),
      Certificates.SortByValidator(signatures))
  }

  function PrecommitFor(c: Crypto, b: LedgerBlock, v: ValidatorId): Vote
  {
    Vote(b.header.chainId, b.header.height, b.header.round, VoteKind.Precommit, v, Block(c.blockId(b.header)))
  }

  /** With four distinct keys whose signatures are genuine, that certificate always passes. */
  lemma ThreeOfFourCertify(env: Env, sign: Vote -> Signature)
    requires |env.validators| == 4 && ValidatorSet(env.validators).Valid() && ChainIdValid(env.chainId)
    requires forall vote: Vote :: vote.validator in env.validators ==> env.genuine(SignedVote(vote, sign(vote)))
    requires forall b :: env.selfCertify(b) == ThreeSignatures(env.c, env.validators, sign, b)
    ensures SelfCertifying(env)
  {
    forall b: LedgerBlock | b.header.chainId == env.chainId && b.header.round == 0
        && b.header.proposer == ExpectedProposer(env.validators, b.header.height, 0)
      ensures CertifiesBlock(env.c, env.selfCertify(b), b, env.validators, env.genuine)
    {
      ThreeSignaturesVerify(env, sign, b);
    }
  }

  lemma ThreeSignaturesVerify(env: Env, sign: Vote -> Signature, b: LedgerBlock)
    requires |env.validators| == 4 && ValidatorSet(env.validators).Valid() && ChainIdValid(b.header.chainId)
    requires forall vote: Vote :: vote.validator in env.validators ==> env.genuine(SignedVote(vote, sign(vote)))
    ensures Certificates.Verified(ThreeSignatures(env.c, env.validators, sign, b), env.validators, env.genuine)
  {
    var plain := seq(3, i requires 0 <= i < 3 =>
      Certificates.CommitSignature(env.validators[i], sign(PrecommitFor(env.c, b, env.validators[i]))));
    Certificates.SortDistinct(plain);
    var p := ThreeSignatures(env.c, env.validators, sign, b);
    forall i | 0 <= i < |p.signatures| ensures Certificates.Endorsed(p, p.signatures[i], env.validators, env.genuine) {
      assert p.signatures[i] in plain;
      var k :| 0 <= k < 3 && plain[k] == p.signatures[i];
      assert Certificates.SignedPrecommit(p, plain[k])
        == SignedVote(PrecommitFor(env.c, b, env.validators[k]), sign(PrecommitFor(env.c, b, env.validators[k])));
    }
  }

  /** The block a standalone node makes of an empty mempool on a fresh ledger. */
  lemma FirstBlock(env: Env, a: Actor, wallClockMs: nat) returns (record: Certified)
    requires |env.validators| > 0 && SelfCertifying(env) && ChainIdValid(env.chainId)
    requires a.ledger == Genesis(env.chainId) && a.mempool == [] && a.mempoolIds == {}
    ensures ProduceStandalone(env, a, wallClockMs) == Commit(env, a, record)
    ensures Commit(env, a, record).error.None? && Commit(env, a, record).actor.ledger.height == 1
    ensures record.block.header.height == 1 && record.block.header.chainId == env.chainId
    ensures CommitmentsFault(env.c, record.block).None?
    ensures CertifiesBlock(env.c, record.certificate, record.block, env.validators, env.genuine)
    ensures record.certificate.chainId == env.chainId
  {
    GenesisSound(env.chainId);
    EmptyMempoolSound(env, a);
    hide Sound, MempoolSound, ApplyBlock, Survivors, CommitmentsFault;
    var proposer := env.validators[a.ledger.height % |env.validators|];
    StandaloneProposer(env.validators, a.ledger);
    ProducersSucceed(env, a, proposer, 0, wallClockMs);
    var built := BuildBlock(env.c, a.ledger, proposer, 0, wallClockMs, FirstOf(a.mempool)).value;
    BuiltHeader(env.c, a.ledger, proposer, wallClockMs, FirstOf(a.mempool));
    AppliedCommitments(env.c, a.ledger, built);
    record := Certified(built, env.selfCertify(built));
    CommitFrame(env, a, record);
  }

  lemma EmptyMempoolSound(env: Env, a: Actor)
    requires a.mempool == [] && a.mempoolIds == {}
    ensures MempoolSound(env.c, a)
  {
  }

  lemma BuiltHeader(c: Crypto, l: Ledger, proposer: ValidatorId, wallClockMs: nat, txs: seq<SignedTransaction>)
    requires BuildBlock(c, l, proposer, 0, wallClockMs, txs).Ok?
    ensures var h := BuildBlock(c, l, proposer, 0, wallClockMs, txs).value.header;
      h.height == l.height + 1 && h.round == 0 && h.proposer == proposer && h.chainId == l.chainId
  {
    hide ApplyAll, TransactionsRoot, NormalizedTimestamp;
  }

  lemma AppliedCommitments(c: Crypto, l: Ledger, b: LedgerBlock)
    requires ApplyBlock(c, l, b).Ok?
    ensures CommitmentsFault(c, b).None?
  {
    hide ApplyAll, TimestampAllowed, BlockSize, TransactionsRoot;
  }

  /** A status reply with a verified tip sets the target and sends the first request. */
  lemma TipSetsTarget(env: Env, a: Actor, p: PeerId, id: RequestId, record: Certified, now: nat)
    requires |env.validators| > 0 && !a.halted && a.network.Running? && a.syncTarget.None? && a.syncRequestId.None?
    requires ProofFault(env, a, record).None? && record.block.header.height == a.ledger.height + 1
    ensures var reply := StatusReply(record.block.header.height, env.c.blockId(record.block.header), record.block.header.stateRoot, Some(record));
      Handle(env, a, SyncResponse(p, Intent(id, p, StatusRequest), reply), now)
      == a.(syncTarget := Some(record.block.header.height), consensusStarted := false, nextRequestId := a.nextRequestId + 1,
            syncPeer := Some(p), syncRequestId := Some(a.nextRequestId), syncRequestDeadline := Some(now + WATCHDOG_MS))
  {
    hide ProofFault;
  }

  lemma TickProduces(env: Env, a: Actor, wallClockMs: nat, now: nat)
    requires |env.validators| > 0 && env.role.Standalone? && !a.halted
    requires a.syncRequestDeadline.Some? && now < a.syncRequestDeadline.value
    ensures Handle(env, a, Tick(true, wallClockMs, []), now) == ProduceStandalone(env, a, wallClockMs).actor
  {
    hide ProduceStandalone;
  }

  lemma FailureAsksAgain(env: Env, a: Actor, p: PeerId, id: RequestId, fromHeight: nat, now: nat)
    requires |env.validators| > 0 && a.network.Running? && a.peers == {p} && a.ledger.height < U64_MAX
    requires a.syncTarget.Some? && a.syncPeer == Some(p) && a.syncRequestId == Some(id)
    ensures Handle(env, a, SyncFailure(Intent(id, p, BlocksRequest(fromHeight, SYNC_BATCH_LIMIT))), now)
      == a.(nextRequestId := a.nextRequestId + 1, syncPeer := Some(p), syncRequestId := Some(a.nextRequestId),
            syncRequestDeadline := Some(now + WATCHDOG_MS))
  {
    assert a.peers - {p} == {};
  }

  /**
   * The exception is reachable: a standalone node hears of a certified tip one ahead, makes the block
   * itself, has its request fail and sent again, and then receives an empty reply.
   */
  lemma StandaloneStalls(env: Env, p: PeerId, wallClockMs: nat) returns (states: seq<Actor>, commands: seq<(Command, nat)>)
    requires |env.validators| > 0 && env.role.Standalone? && ChainIdValid(env.chainId) && SelfCertifying(env)
    ensures NodeRun(env, states, commands)
    ensures |commands| > 0 && Asking(states[|commands| - 1]) && Stalls(states[|commands| - 1], commands[|commands| - 1].0)
    ensures !Asking(states[|commands|])
  {
    hide Handle, CertifiesBlock, Commit, ProduceStandalone, SelfCertifying, CommitmentsFault;
    var s0 := Started(env.chainId, Running, {});
    var s1 := s0.(peers := {p}, nextRequestId := 1);
    PeerJoins(env, s0, p);
    var record := FirstBlock(env, s1, wallClockMs);
    var reply := StatusReply(1, env.c.blockId(record.block.header), record.block.header.stateRoot, Some(record));
    var status := SyncResponse(p, Intent(0, p, StatusRequest), reply);
    TipSetsTarget(env, s1, p, 0, record, 0);
    var s2 := s1.(syncTarget := Some(1), nextRequestId := 2, syncPeer := Some(p), syncRequestId := Some(1),
                  syncRequestDeadline := Some(WATCHDOG_MS));
    var again := FirstBlock(env, s2, wallClockMs);
    TickProduces(env, s2, wallClockMs, 0);
    CommitKeepsSync(env, s2, again);
    var s3 := ProduceStandalone(env, s2, wallClockMs).actor;
    var failure := SyncFailure(Intent(1, p, BlocksRequest(1, SYNC_BATCH_LIMIT)));
    FailureAsksAgain(env, s3, p, 1, 1, 0);
    var s4 := s3.(nextRequestId := 3, syncPeer := Some(p), syncRequestId := Some(2), syncRequestDeadline := Some(WATCHDOG_MS));
    var empty := SyncResponse(p, Intent(2, p, BlocksRequest(2, SYNC_BATCH_LIMIT)), BlocksReply([]));
    AskingLostIff(env, s4, empty, 0);
    states := [s0, s1, s2, s3, s4, Handle(env, s4, empty, 0)];
    commands := [(PeerConnected(p), 0), (status, 0), (Tick(true, wallClockMs, []), 0), (failure, 0), (empty, 0)];
  }

  lemma PeerJoins(env: Env, a: Actor, p: PeerId)
    requires |env.validators| > 0 && a.syncTarget.None? && !a.network.Absent?
    ensures Handle(env, a, PeerConnected(p), 0) == a.(peers := a.peers + {p}, nextRequestId := a.nextRequestId + 1)
  {
  }
}
