/**
 * The node actor as values (`NodeActor` in `crates/kcoin-node/src/runtime.rs`): the mempool, block
 * production, import of certified blocks, the block synchronizer and the halt.
 *
 * One command is handled at a time. Consensus enters as the effects its engine asks the node for, in
 * any order; clocks and signing are parameters of the commands.
 */
module NodeSpec {
  import opened Wrappers
  import opened ConsensusTypes
  import opened Merkle
  import opened LedgerSpec
  import opened Blocks
  import Certificates

  const SYNC_BATCH_LIMIT: nat := 128
  const WATCHDOG_MS: nat := 12_000

  type PeerId = nat
  type RequestId = nat

  datatype Role = Standalone | Validator | Observer

  datatype NetworkHandle = Absent | Running | Stopped

  /** What is fixed while a node runs. `selfCertify` signs with the three keys of a standalone node. */
  datatype Env = Env(
    c: Crypto,
    chainId: string,
    validators: seq<ValidatorId>,
    genuine: SignedVote -> bool,
    role: Role,
    localId: ValidatorId,
    selfCertify: LedgerBlock -> Certificates.ProtocolCertificate)

  datatype SyncRequest = StatusRequest | BlocksRequest(fromHeight: nat, limit: nat)

  datatype Intent = Intent(requestId: RequestId, peer: PeerId, request: SyncRequest)

  /** Records and proofs that do not decode are `None`. */
  datatype SyncReply =
    | StatusReply(height: Word64, blockHash: Hash, stateRoot: Hash, tip: Option<Certified>)
    | BlocksReply(records: seq<Option<Certified>>)
    | ErrorReply

  /** What the node does for its consensus engine: sign a decision, or commit a finalized block. */
  datatype EngineRequest = SignDecision(message: SignableMessage) | CommitBlock(record: Certified)

  datatype Command =
    | Submit(tx: SignedTransaction)
    | Tick(heartbeatDue: bool, wallClockMs: nat, onStart: seq<EngineRequest>)
    | ConsensusMessage(onStart: seq<EngineRequest>, onMessage: seq<EngineRequest>)
    | ConsensusTimeout(requests: seq<EngineRequest>)
    | ImportFinalized(record: Certified, source: Option<PeerId>)
    | PeerConnected(peer: PeerId)
    | PeerDisconnected(peer: PeerId)
    | SyncResponse(from: PeerId, intent: Intent, reply: SyncReply)
    | SyncFailure(intent: Intent)
    | NetworkStops

  datatype NodeError =
    | Halted
    | OtherChain
    | Rejected(reason: LedgerError)
    | BadCertificate
    | ConflictingBlock(height: nat)
    | MissingBlock
    | BlockGap
    | NetworkUnavailable
    | HeightExhausted
    | UnexpectedReply
    | PeerError
    | MissingProof
    | MismatchedStatus
    | EmptyRange
    | UndecodableRecord
    | BrokenSequence

  datatype Actor = Actor(
    ledger: Ledger,
    history: seq<Certified>,
    mempool: seq<SignedTransaction>,
    mempoolIds: set<Hash>,
    network: NetworkHandle,
    nextRequestId: RequestId,
    peers: set<PeerId>,
    syncTarget: Option<Word64>,
    syncPeer: Option<PeerId>,
    syncRequestId: Option<RequestId>,
    syncRequestDeadline: Option<nat>,
    halted: bool,
    consensusStarted: bool,
    signed: seq<SignableMessage>)

  datatype Reply = Reply(actor: Actor, error: Option<NodeError>)

  function Done(a: Actor): Reply { Reply(a, None) }

  function Failed(a: Actor, error: NodeError): Reply { Reply(a, Some(error)) }

  // ---------------------------------------------------------------- mempool

  function ExecutionHeight(l: Ledger): nat
  {
    SaturatingAdd(l.height, 1, U64_MAX)
  }

  /** The transactions that apply one after the other, skipping those that fail, and where they lead. */
  function Survivors(c: Crypto, l: Ledger, txs: seq<SignedTransaction>, height: nat): (seq<SignedTransaction>, Ledger)
  {
    if txs == [] then ([], l)
    else
      var (kept, candidate) := Survivors(c, l, txs[..|txs| - 1], height);
      match Apply(c, candidate, txs[|txs| - 1], height)
      case Ok((after, _)) => (kept + [txs[|txs| - 1]], after)
      case Err(_) => (kept, candidate)
  }

  function IdsOf(c: Crypto, txs: seq<SignedTransaction>): set<Hash>
  {
    set tx | tx in txs :: c.transactionId(tx)
  }

  function Revalidate(c: Crypto, a: Actor): Actor
  {
    var kept := Survivors(c, a.ledger, a.mempool, ExecutionHeight(a.ledger)).0;
    a.(mempool := kept, mempoolIds := IdsOf(c, kept))
  }

  /** `accept_transaction`. */
  function Admit(c: Crypto, a: Actor, tx: SignedTransaction): Result<Actor, LedgerError>
  {
    var id := c.transactionId(tx);
    if a.halted || a.syncTarget.Some? then Err(Malformed)
    else if id in a.mempoolIds || id in a.ledger.appliedTransactions then Err(DuplicateTransaction)
    else if CheckedAdd(a.ledger.height, 1).None? then Err(ArithmeticOverflow)
    else
      match ApplyAll(c, a.ledger, a.mempool, a.ledger.height + 1)
      case Err(error) => Err(error)
      case Ok((candidate, _)) =>
        match Validate(c, candidate, tx, a.ledger.height + 1)
        case Err(error) => Err(error)
        case Ok(_) => Ok(a.(mempool := a.mempool + [tx], mempoolIds := a.mempoolIds + {id}))
  }

  function FirstOf(txs: seq<SignedTransaction>): seq<SignedTransaction>
  {
    if |txs| <= MAX_TRANSACTIONS_PER_PROPOSAL then txs else txs[..MAX_TRANSACTIONS_PER_PROPOSAL]
  }

  /** `build_consensus_proposal`: the stored bytes of the valid block, or a fresh block of what survives. */
  function BuildProposal(
    env: Env, a: Actor, stored: map<Hash, LedgerBlock>, validBlock: Option<Hash>, round: nat, wallClockMs: nat):
    Result<LedgerBlock, LedgerError>
  {
    if validBlock.Some? && validBlock.value in stored then Ok(stored[validBlock.value])
    else
      var chosen := Survivors(env.c, a.ledger, FirstOf(a.mempool), a.ledger.height + 1).0;
      BuildBlock(env.c, a.ledger, env.localId, round, wallClockMs, chosen)
  }

  // ---------------------------------------------------------------- finalized blocks

  /** `commit_finalized`. */
  ghost function Commit(env: Env, a: Actor, record: Certified): Reply
  {
    if !CertifiesBlock(env.c, record.certificate, record.block, env.validators, env.genuine)
    then Failed(a, BadCertificate)
    else
      match ApplyBlock(env.c, a.ledger, record.block)
      case Err(error) => Failed(a, Rejected(error))
      case Ok((after, _)) => Done(Revalidate(env.c, a.(ledger := after, history := a.history + [record])))
  }

  function Halt(a: Actor): Actor
  {
    a.(halted := true, consensusStarted := false,
       syncTarget := None, syncPeer := None, syncRequestId := None, syncRequestDeadline := None)
  }

  function FinishSync(a: Actor): Actor
  {
    if a.syncTarget.Some? && a.ledger.height >= a.syncTarget.value
    then a.(syncTarget := None, syncPeer := None, syncRequestId := None, syncRequestDeadline := None)
    else a
  }

  /** What `import_finalized` and the status path check before they trust a record. */
  ghost function ProofFault(env: Env, a: Actor, record: Certified): Option<NodeError>
  {
    var commitments := CommitmentsFault(env.c, record.block);
    if record.block.header.chainId != env.chainId || record.certificate.chainId != env.chainId
    then Some(OtherChain)
    else if commitments.Some? then Some(Rejected(commitments.value))
    else if !CertifiesBlock(env.c, record.certificate, record.block, env.validators, env.genuine) then Some(BadCertificate)
    else None
  }

  /** `import_finalized`. */
  ghost function Import(env: Env, a: Actor, record: Certified, source: Option<PeerId>, now: nat): Reply
  {
    var height := record.block.header.height;
    var fault := ProofFault(env, a, record);
    if a.halted then Failed(a, Halted)
    else if fault.Some? then Failed(a, fault.value)
    else if height <= a.ledger.height then
      if height == 0 || height > |a.history| then Failed(a, MissingBlock)
      else if env.c.blockId(record.block.header) != env.c.blockId(a.history[height - 1].block.header)
      then Failed(Halt(a), ConflictingBlock(height))
      else Done(a)
    else if height != a.ledger.height + 1 then
      if source.Some? then BeginSync(a, source.value, height, now) else Failed(a, BlockGap)
    else
      var committed := Commit(env, a, record);
      if committed.error.Some? then committed
      else Done(FinishSync(committed.actor.(consensusStarted := false)))
  }

  /** Records one after the other, stopping at the first that is refused. */
  ghost function ImportAll(env: Env, a: Actor, records: seq<Certified>, now: nat): Reply
  {
    if records == [] then Done(a)
    else
      var before := ImportAll(env, a, records[..|records| - 1], now);
      if before.error.Some? then before
      else Import(env, before.actor, records[|records| - 1], None, now)
  }

  // ---------------------------------------------------------------- synchronization

  /** A request leaves under a fresh id, unless there is no network task to take it. */
  function RequestBlocks(a: Actor, peer: PeerId, now: nat): Reply
  {
    if a.network.Absent? then Failed(a, NetworkUnavailable)
    else if CheckedAdd(a.ledger.height, 1).None? then Failed(a, HeightExhausted)
    else
      var id := a.nextRequestId;
      var sent := a.(nextRequestId := id + 1);
      if a.network.Stopped? then Failed(sent, NetworkUnavailable)
      else Done(sent.(syncPeer := Some(peer), syncRequestId := Some(id), syncRequestDeadline := Some(now + WATCHDOG_MS)))
  }

  function EnsureActive(a: Actor, peer: PeerId, now: nat): Reply
  {
    if a.syncRequestId.Some? then Done(a) else RequestBlocks(a, peer, now)
  }

  function BeginSync(a: Actor, peer: PeerId, target: Word64, now: nat): Reply
  {
    if a.halted then Failed(a, Halted)
    else if target <= a.ledger.height then Done(a)
    else
      var higher := if a.syncTarget.Some? && a.syncTarget.value > target then a.syncTarget.value else target;
      var syncing := a.(syncTarget := Some(higher), consensusStarted := false);
      if a.network.Absent? then Done(syncing) else EnsureActive(syncing, peer, now)
  }

  /** The retry peer: the smallest other peer, else the failed one if it is still connected. */
  ghost predicate IsRetryPeer(peers: set<PeerId>, failed: PeerId, choice: Option<PeerId>)
  {
    match choice
    case Some(peer) =>
      && peer in peers
      && (peer != failed ==> forall other :: other in peers && other != failed ==> peer <= other)
      && (peer == failed ==> peers == {failed})
    case None => peers == {}
  }

  ghost function RetryPeer(peers: set<PeerId>, failed: PeerId): (choice: Option<PeerId>)
    ensures IsRetryPeer(peers, failed, choice)
  {
    var others := peers - {failed};
    if others != {} then
      SmallestPeer(others);
      var peer :| peer in others && forall other :: other in others ==> peer <= other;
      assert forall other :: other in peers && other != failed ==> other in others;
      Some(peer)
    else if failed in peers then Some(failed)
    else None
  }

  lemma SmallestPeer(peers: set<PeerId>)
    requires peers != {}
    ensures exists peer :: peer in peers && forall other :: other in peers ==> peer <= other
  {
    var some :| some in peers;
    SmallestBelow(peers, some);
  }

  lemma {:induction false} SmallestBelow(peers: set<PeerId>, some: PeerId)
    requires some in peers
    ensures exists peer :: peer in peers && forall other :: other in peers ==> peer <= other
    decreases some
  {
    if other :| other in peers && other < some {
      SmallestBelow(peers, other);
    }
  }

  ghost function Retry(a: Actor, failed: PeerId, requestId: Option<RequestId>, now: nat): Reply
  {
    if a.syncTarget.None? || a.syncPeer != Some(failed) then Done(a)
    else if requestId.Some? && requestId != a.syncRequestId then Done(a)
    else
      var next := RetryPeer(a.peers, failed);
      var cleared := a.(syncPeer := next, syncRequestId := None, syncRequestDeadline := None);
      if next.None? then Done(cleared) else RequestBlocks(cleared, next.value, now)
  }

  ghost function RetryTimedOut(a: Actor, now: nat): Reply
  {
    if a.halted || a.syncRequestId.None? || a.syncPeer.None? || a.syncRequestDeadline.None? then Done(a)
    else if now < a.syncRequestDeadline.value then Done(a)
    else Retry(a, a.syncPeer.value, a.syncRequestId, now)
  }

  /** `validate_sync_response_intent`. */
  function IntentFault(a: Actor, from: PeerId, intent: Intent, reply: SyncReply): Option<NodeError>
  {
    if from != intent.peer then Some(UnexpectedReply)
    else match intent.request
      case StatusRequest => if reply.BlocksReply? then Some(UnexpectedReply) else None
      case BlocksRequest(fromHeight, limit) =>
        if a.syncTarget.None? || a.syncRequestId != Some(intent.requestId) || a.syncPeer != Some(from) then Some(UnexpectedReply)
        else if CheckedAdd(a.ledger.height, 1).None? then Some(HeightExhausted)
        else if fromHeight != a.ledger.height + 1 || limit == 0 then Some(UnexpectedReply)
        else match reply
          case StatusReply(_, _, _, _) => Some(UnexpectedReply)
          case BlocksReply(records) => if |records| > limit then Some(UnexpectedReply) else None
          case ErrorReply => None
  }

  ghost function HandleStatus(env: Env, a: Actor, from: PeerId, reply: SyncReply, now: nat): Reply
    requires reply.StatusReply?
  {
    if reply.height <= a.ledger.height then Done(a)
    else match reply.tip
      case None => Failed(a, MissingProof)
      case Some(record) =>
        var fault := ProofFault(env, a, record);
        if fault.Some? then Failed(a, fault.value)
        else if record.block.header.height != reply.height || env.c.blockId(record.block.header) != reply.blockHash
          || record.block.header.stateRoot != reply.stateRoot
        then Failed(a, MismatchedStatus)
        else BeginSync(a, from, reply.height, now)
  }

  function Decoded(records: seq<Option<Certified>>): (decoded: Option<seq<Certified>>)
    ensures decoded.Some? <==> forall i :: 0 <= i < |records| ==> records[i].Some?
    ensures decoded.Some? ==> |decoded.value| == |records|
    ensures decoded.Some? ==> forall i :: 0 <= i < |records| ==> decoded.value[i] == records[i].value
  {
    if forall i :: 0 <= i < |records| ==> records[i].Some?
    then Some(seq(|records|, i requires 0 <= i < |records| && records[i].Some? => records[i].value))
    else None
  }

  predicate InSequence(records: seq<Certified>, height: nat)
  {
    forall i :: 0 <= i < |records| ==> records[i].block.header.height == height + 1 + i
  }

  ghost function HandleBlocks(env: Env, a: Actor, from: PeerId, records: seq<Option<Certified>>, now: nat): Reply
  {
    if records == [] then
      if a.syncTarget.Some? && a.syncTarget.value > a.ledger.height then Failed(a, EmptyRange)
      else
        var asked := if a.network.Absent? then a else a.(nextRequestId := a.nextRequestId + 1);
        if a.network.Stopped? then Failed(asked, NetworkUnavailable)
        else Done(asked.(syncRequestId := None, syncRequestDeadline := None))
    else if Decoded(records).None? then Failed(a, UndecodableRecord)
    else if !InSequence(Decoded(records).value, a.ledger.height) then Failed(a, BrokenSequence)
    else
      var imported := ImportAll(env, a, Decoded(records).value, now);
      if imported.error.Some? then imported
      else
        var b := imported.actor;
        if b.syncTarget.None? then Done(b)
        else if b.ledger.height < b.syncTarget.value then
          if b.network.Absent? then Done(b) else RequestBlocks(b, from, now)
        else Done(FinishSync(b))
  }

  ghost function HandleResponse(env: Env, a: Actor, from: PeerId, intent: Intent, reply: SyncReply, now: nat): Reply
  {
    var fault := IntentFault(a, from, intent, reply);
    if fault.Some? then Failed(a, fault.value)
    else match reply
      case StatusReply(_, _, _, _) => HandleStatus(env, a, from, reply, now)
      case BlocksReply(records) => HandleBlocks(env, a, from, records, now)
      case ErrorReply => Failed(a, PeerError)
  }

  // ---------------------------------------------------------------- consensus

  /** The effects of a consensus event, in order, until one fails. */
  ghost function Serve(env: Env, a: Actor, requests: seq<EngineRequest>): Reply
  {
    if requests == [] then Done(a)
    else
      var before := Serve(env, a, requests[..|requests| - 1]);
      if before.error.Some? then before
      else match requests[|requests| - 1]
        case SignDecision(message) => Done(before.actor.(signed := before.actor.signed + [message]))
        case CommitBlock(record) =>
          var committed := Commit(env, before.actor, record);
          if committed.error.Some? then committed else Done(committed.actor.(consensusStarted := false))
  }

  predicate MayVote(env: Env, a: Actor)
  {
    env.role.Validator? && a.syncTarget.None? && !a.halted
  }

  /** `process_consensus_event`. */
  ghost function ProcessConsensus(env: Env, a: Actor, requests: seq<EngineRequest>): Reply
  {
    if MayVote(env, a) then Serve(env, a, requests) else Done(a)
  }

  ghost function EnsureStarted(env: Env, a: Actor, onStart: seq<EngineRequest>): Reply
  {
    if !MayVote(env, a) || a.consensusStarted then Done(a)
    else ProcessConsensus(env, a.(consensusStarted := true), onStart)
  }

  ghost function ProduceStandalone(env: Env, a: Actor, wallClockMs: nat): Reply
    requires |env.validators| > 0
  {
    var proposer := env.validators[a.ledger.height % |env.validators|];
    match BuildBlock(env.c, a.ledger, proposer, 0, wallClockMs, FirstOf(a.mempool))
    case Err(error) => Failed(a, Rejected(error))
    case Ok(block) => Commit(env, a, Certified(block, env.selfCertify(block)))
  }

  // ---------------------------------------------------------------- commands

  ghost function HandleTick(env: Env, a: Actor, heartbeatDue: bool, wallClockMs: nat, onStart: seq<EngineRequest>, now: nat): Reply
    requires |env.validators| > 0
  {
    var retried := RetryTimedOut(a, now);
    if retried.error.Some? then retried
    else
      var b := retried.actor;
      if b.halted || (b.mempool == [] && !heartbeatDue) then Done(b)
      else match env.role
        case Standalone => ProduceStandalone(env, b, wallClockMs)
        case Validator => EnsureStarted(env, b, onStart)
        case Observer => Done(b)
  }

  /** One turn of the actor's loop. Errors are logged; a bad sync response is retried. */
  ghost function Handle(env: Env, a: Actor, command: Command, now: nat): Actor
    requires |env.validators| > 0
  {
    match command
    case Submit(tx) =>
      var accepted := Admit(env.c, a, tx);
      if accepted.Ok? then accepted.value else a
    case Tick(heartbeatDue, wallClockMs, onStart) => HandleTick(env, a, heartbeatDue, wallClockMs, onStart, now).actor
    case ConsensusMessage(onStart, onMessage) =>
      var started := EnsureStarted(env, a, onStart);
      if !MayVote(env, a) || started.error.Some? then started.actor
      else ProcessConsensus(env, started.actor, onMessage).actor
    case ConsensusTimeout(requests) =>
      if a.consensusStarted then ProcessConsensus(env, a, requests).actor else a
    case ImportFinalized(record, source) => Import(env, a, record, source, now).actor
    case PeerConnected(peer) =>
      var joined := a.(peers := a.peers + {peer});
      if joined.syncTarget.Some? then EnsureActive(joined, peer, now).actor else AskStatus(joined)
    case PeerDisconnected(peer) =>
      var left := a.(peers := a.peers - {peer});
      if left.syncPeer == Some(peer) then Retry(left, peer, None, now).actor else left
    case SyncResponse(from, intent, reply) =>
      var handled := HandleResponse(env, a, from, intent, reply, now);
      if handled.error.Some? then Retry(handled.actor, intent.peer, Some(intent.requestId), now).actor
      else handled.actor
    case SyncFailure(intent) =>
      if intent.request.BlocksRequest? then Retry(a, intent.peer, Some(intent.requestId), now).actor else a
    case NetworkStops => if a.network.Running? then a.(network := Stopped) else a
  }

  /** A status request takes an id and changes nothing else. */
  function AskStatus(a: Actor): Actor
  {
    if a.network.Absent? then a else a.(nextRequestId := a.nextRequestId + 1)
  }
}
