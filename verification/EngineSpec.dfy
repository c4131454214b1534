/**
 * The consensus engine as a function on values: what one call of `Consensus::step` does to the
 * engine's fields and which effects or error it returns (`crates/kcoin-consensus/src/engine.rs`).
 * The class in Consensus.dfy is proved against these functions; the protocol theorems are about
 * them.
 */
module EngineSpec {
  import opened Wrappers
  import opened Quorums
  import opened ConsensusTypes

  /** The rounds and kinds under which votes are cached. */
  datatype VoteSlot = VoteSlot(round: nat, kind: VoteKind)

  datatype Engine = Engine(
    localId: ValidatorId,
    validators: ValidatorSet,
    config: ConsensusConfig,
    height: nat,
    round: nat,
    phase: Phase,
    started: bool,
    finalized: Option<Finalization>,
    lockedRound: Option<nat>,
    lockedBlock: Option<BlockId>,
    validRound: Option<nat>,
    validBlock: Option<BlockId>,
    validProof: seq<SignedVote>,
    proposals: map<nat, SignedProposal>,
    votes: map<VoteSlot, map<ValidatorId, SignedVote>>,
    requestedProposals: set<nat>,
    localDecisions: map<DecisionKey, SignableMessage>,
    pendingPersistence: map<DecisionKey, SignableMessage>)

  /** State after a call, the effects pushed so far, and the error if the call failed. */
  datatype Outcome = Outcome(engine: Engine, effects: seq<Effect>, error: Option<ConsensusError>)
  {
    /** What `step` returns: an error drops the effects. */
    function Reply(): Result<seq<Effect>, ConsensusError>
    {
      if error.Some? then Err(error.value) else Ok(effects)
    }
  }

  function Unchanged(e: Engine): Outcome
  {
    Outcome(e, [], None)
  }

  function Failed(e: Engine, error: ConsensusError): Outcome
  {
    Outcome(e, [], Some(error))
  }

  // ---------------------------------------------------------------- vote counting

  ghost predicate Ascending(ids: seq<ValidatorId>)
  {
    forall i, j :: 0 <= i < j < |ids| ==> ids[i] < ids[j]
  }

  /** The signed votes in `votes` for `value`, in the order of the ids listed. */
  function Select(votes: map<ValidatorId, SignedVote>, ids: seq<ValidatorId>, value: VoteValue): seq<SignedVote>
  {
    if ids == [] then []
    else
      var rest := Select(votes, ids[..|ids| - 1], value);
      var last := ids[|ids| - 1];
      if last in votes && votes[last].vote.value == value then rest + [votes[last]] else rest
  }

  /** The validators with a cached vote for `value`. */
  function Voters(votes: map<ValidatorId, SignedVote>, value: VoteValue): set<ValidatorId>
  {
    set v | v in votes && votes[v].vote.value == value
  }

  /** The ids in ascending order, the iteration order of a `BTreeMap`. */
  ghost function SortedIds(ids: set<ValidatorId>): (sorted: seq<ValidatorId>)
    ensures Ascending(sorted)
    ensures forall v :: v in sorted <==> v in ids
    decreases |ids|
  {
    if ids == {} then []
    else
      var max := Largest(ids);
      SortedIds(ids - {max}) + [max]
  }

  ghost function Largest(ids: set<ValidatorId>): (max: ValidatorId)
    requires ids != {}
    ensures max in ids && forall v :: v in ids ==> v <= max
    decreases |ids|
  {
    var v :| v in ids;
    if ids - {v} == {} then assert ids == {v}; v
    else
      var rest := Largest(ids - {v});
      assert forall w :: w in ids ==> w == v || w in ids - {v};
      if v <= rest then rest else v
  }

  /** The order `BTreeMap<VoteValue, _>` gives vote values: nil first, then blocks by id. */
  predicate ValueBefore(a: VoteValue, b: VoteValue)
  {
    match (a, b)
    case (Nil, Block(_)) => true
    case (Block(x), Block(y)) => x < y
    case _ => false
  }

  predicate HasQuorum(votes: map<ValidatorId, SignedVote>, value: VoteValue, quorum: nat)
  {
    |Voters(votes, value)| >= quorum
  }

  /** The first value, in value order, for which a quorum of votes is cached. */
  ghost predicate IsQuorumValue(votes: map<ValidatorId, SignedVote>, value: VoteValue, quorum: nat)
  {
    && HasQuorum(votes, value, quorum)
    && forall other :: ValueBefore(other, value) ==> !HasQuorum(votes, other, quorum)
  }

  ghost function SlotVotes(e: Engine, round: nat, kind: VoteKind): map<ValidatorId, SignedVote>
  {
    var slot := VoteSlot(round, kind);
    if slot in e.votes then e.votes[slot] else map[]
  }

  /** `quorum_votes`: the quorum value of a round and kind with its votes in validator order. */
  ghost function QuorumVotes(e: Engine, round: nat, kind: VoteKind): Option<(VoteValue, seq<SignedVote>)>
  {
    var votes := SlotVotes(e, round, kind);
    if exists value :: IsQuorumValue(votes, value, e.validators.Quorum()) then
      var value :| IsQuorumValue(votes, value, e.validators.Quorum());
      Some((value, Select(votes, SortedIds(votes.Keys), value)))
    else None
  }

  // ---------------------------------------------------------------- validation

  function ContextFault(e: Engine, chainId: string, height: nat): Option<ConsensusError>
  {
    if chainId != e.config.chainId then Some(WrongChain(e.config.chainId, chainId))
    else if height != e.height then Some(WrongHeight(e.height, height))
    else None
  }

  function VoteStructureFault(e: Engine, signed: SignedVote): Option<ConsensusError>
  {
    var vote := signed.vote;
    var context := ContextFault(e, vote.chainId, vote.height);
    if context.Some? then context
    else if vote.validator !in e.validators.validators then Some(UnknownValidator(vote.validator))
    else if vote.round >= e.config.maxRoundsPerHeight then Some(RoundOutsideWindow(vote.round))
    else None
  }

  function VoteVerdict(validator: MessageValidator, signed: SignedVote): Option<ConsensusError>
  {
    match validator.validateVote(signed)
    case Accept => None
    case Reject(error) => Some(Validation(error))
  }

  /** What is wrong with the `i`-th vote of a quorum proof, given the votes before it. */
  ghost function ProofVoteFault(
    e: Engine, proof: seq<SignedVote>, i: nat, round: nat, kind: VoteKind, blockId: BlockId,
    mismatch: ConsensusError, validator: MessageValidator): Option<ConsensusError>
    requires i < |proof|
  {
    var vote := proof[i].vote;
    if |proof[i].signature| > e.config.maxSignatureBytes then Some(SignatureTooLarge)
    else if VoteStructureFault(e, proof[i]).Some? then VoteStructureFault(e, proof[i])
    else if vote.round != round || vote.kind != kind || vote.value != Block(blockId)
      || exists j :: 0 <= j < i && proof[j].vote.validator == vote.validator
    then Some(mismatch)
    else VoteVerdict(validator, proof[i])
  }

  /** The fault of the first bad vote of a quorum proof, or none. */
  ghost function ProofFault(
    e: Engine, proof: seq<SignedVote>, round: nat, kind: VoteKind, blockId: BlockId,
    mismatch: ConsensusError, validator: MessageValidator): Option<ConsensusError>
  {
    FirstFault(e, proof, |proof|, round, kind, blockId, mismatch, validator)
  }

  ghost function FirstFault(
    e: Engine, proof: seq<SignedVote>, count: nat, round: nat, kind: VoteKind, blockId: BlockId,
    mismatch: ConsensusError, validator: MessageValidator): Option<ConsensusError>
    requires count <= |proof|
  {
    if count == 0 then None
    else
      var earlier := FirstFault(e, proof, count - 1, round, kind, blockId, mismatch, validator);
      if earlier.Some? then earlier
      else ProofVoteFault(e, proof, count - 1, round, kind, blockId, mismatch, validator)
  }

  function ProofSizeOk(e: Engine, proof: seq<SignedVote>): bool
  {
    e.validators.Quorum() <= |proof| <= |e.validators.validators|
  }

  ghost function ProposalStructureFault(e: Engine, signed: SignedProposal, validator: MessageValidator): Option<ConsensusError>
    requires |e.validators.validators| > 0
  {
    var p := signed.proposal;
    var context := ContextFault(e, p.chainId, p.height);
    var expected := e.validators.Proposer(e.height, p.round);
    if context.Some? then context
    else if p.proposer !in e.validators.validators then Some(UnknownValidator(p.proposer))
    else if p.proposer != expected then Some(UnexpectedProposer(p.round, expected, p.proposer))
    else if p.round >= e.config.maxRoundsPerHeight then Some(RoundOutsideWindow(p.round))
    else match p.validRound
      case None => if p.validRoundProof == [] then None else Some(InvalidValidRoundProof)
      case Some(validRound) =>
        if validRound < p.round then
          if !ProofSizeOk(e, p.validRoundProof) then Some(InvalidValidRoundProof)
          else ProofFault(e, p.validRoundProof, validRound, VoteKind.Prevote, p.blockId, InvalidValidRoundProof, validator)
        else Some(InvalidValidRoundProof)
  }

  ghost function MessageFault(e: Engine, message: SignedMessage, validator: MessageValidator): Option<ConsensusError>
    requires |e.validators.validators| > 0
  {
    if |message.Signature()| > e.config.maxSignatureBytes then Some(SignatureTooLarge)
    else match message
      case SignedProposalMessage(p) =>
        var structure := ProposalStructureFault(e, p, validator);
        if structure.Some? then structure
        else (match validator.validateProposal(p)
          case Accept => None
          case Reject(error) => Some(Validation(error)))
      case SignedVoteMessage(v) =>
        var structure := VoteStructureFault(e, v);
        if structure.Some? then structure else VoteVerdict(validator, v)
  }

  ghost function CertificateFault(e: Engine, c: CommitCertificate, validator: MessageValidator): Option<ConsensusError>
  {
    var context := ContextFault(e, c.chainId, c.height);
    if context.Some? then context
    else if c.round >= e.config.maxRoundsPerHeight || !ProofSizeOk(e, c.precommits) then Some(InvalidCertificate)
    else
      var proof := ProofFault(e, c.precommits, c.round, VoteKind.Precommit, c.blockId, InvalidCertificate, validator);
      if proof.Some? then proof
      else match validator.validateCertificate(c)
        case Accept => None
        case Reject(error) => Some(Validation(error))
  }

  // ---------------------------------------------------------------- bounded caches

  /** How many earlier rounds are kept; the configured count is cut to 32 bits. */
  function RetainedBefore(config: ConsensusConfig): nat
  {
    SaturatingSub(config.maxCachedRounds, 1) % (U32_MAX + 1)
  }

  function OldestKept(e: Engine): nat
  {
    SaturatingSub(e.round, RetainedBefore(e.config))
  }

  function NewestKept(e: Engine): nat
  {
    SaturatingAdd(e.round, e.config.maxRoundAhead, U32_MAX)
  }

  predicate Cacheable(e: Engine, round: nat)
  {
    OldestKept(e) <= round <= NewestKept(e)
  }

  ghost function PruneCaches(e: Engine): Engine
  {
    e.(proposals := (map r | r in e.proposals && Cacheable(e, r) :: e.proposals[r]),
       votes := (map s | s in e.votes && Cacheable(e, s.round) :: e.votes[s]),
       requestedProposals := (set r | r in e.requestedProposals && Cacheable(e, r)),
       localDecisions := (map k | k in e.localDecisions && Cacheable(e, k.round) :: e.localDecisions[k]),
       pendingPersistence := (map k | k in e.pendingPersistence && Cacheable(e, k.round) :: e.pendingPersistence[k]))
  }

  // ---------------------------------------------------------------- decisions

  function CurrentTimeout(e: Engine, phase: Phase): Timeout
  {
    Timeout(e.height, e.round, phase, e.config.TimeoutFor(phase, e.round))
  }

  function SafetyOf(e: Engine): SafetyState
  {
    SafetyState(e.height, e.round, e.lockedRound, e.lockedBlock, e.validRound, e.validBlock, e.validProof)
  }

  function LocalVote(e: Engine, kind: VoteKind, value: VoteValue): SignableMessage
  {
    VoteMessage(Vote(e.config.chainId, e.height, e.round, kind, e.localId, value))
  }

  function PhaseAfter(kind: VoteKind): Phase
  {
    match kind
    case Prevote => Phase.Prevote
    case Precommit => Phase.Precommit
  }

  /** Reserve the signer slot of a message and ask for it to be made durable. */
  function Decide(e: Engine, message: SignableMessage): Engine
  {
    e.(localDecisions := e.localDecisions[message.Key() := message],
       pendingPersistence := e.pendingPersistence[message.Key() := message])
  }

  function CastVote(e: Engine, kind: VoteKind, value: VoteValue): Outcome
  {
    var message := LocalVote(e, kind, value);
    if message.Key() in e.localDecisions then Unchanged(e)
    else
      var phase := PhaseAfter(kind);
      Outcome(
        Decide(e, message).(phase := phase),
        [PersistBeforeBroadcast(message, SafetyOf(e)), ScheduleTimeout(CurrentTimeout(e, phase))],
        None)
  }

  /** Which value the lock rule allows for a proposal. */
  function PrevoteFor(e: Engine, p: Proposal): VoteValue
  {
    if e.lockedRound.None? && e.lockedBlock.None? then Block(p.blockId)
    else if e.lockedBlock == Some(p.blockId) then Block(p.blockId)
    else if e.lockedRound.Some? && e.lockedBlock.Some? && p.validRound.Some? && p.validRound.value > e.lockedRound.value
    then Block(p.blockId)
    else Nil
  }

  function FinalizeWith(e: Engine, c: CommitCertificate): Outcome
  {
    if e.finalized.Some? then
      if e.finalized.value.blockId == c.blockId then Unchanged(e)
      else Failed(e, ConflictingCommit(e.finalized.value.blockId, c.blockId))
    else
      var f := Finalization(c.height, c.round, c.blockId, c);
      Outcome(e.(phase := Finalized, finalized := Some(f)), [Finalize(f)], None)
  }

  // ---------------------------------------------------------------- round evaluation

  /** Adopt a prevote quorum as the valid value when it is newer than the known one. */
  function AdoptValid(e: Engine, round: nat, blockId: BlockId, proof: seq<SignedVote>): Engine
  {
    if round <= e.round && (e.validRound.None? || round > e.validRound.value)
    then e.(validRound := Some(round), validBlock := Some(blockId), validProof := proof)
    else e
  }

  predicate HasProposal(e: Engine, round: nat, blockId: BlockId)
  {
    round in e.proposals && e.proposals[round].proposal.blockId == blockId
  }

  function LockOn(e: Engine, blockId: BlockId): Engine
  {
    e.(lockedRound := Some(e.round), lockedBlock := Some(blockId))
  }

  ghost function EvaluatePrevotes(e: Engine, round: nat): Outcome
  {
    match QuorumVotes(e, round, VoteKind.Prevote)
    case None => Unchanged(e)
    case Some((Nil, _)) =>
      if round == e.round && e.phase == Phase.Prevote then CastVote(e, VoteKind.Precommit, Nil) else Unchanged(e)
    case Some((Block(blockId), proof)) =>
      if !HasProposal(e, round, blockId) then Unchanged(e)
      else
        var adopted := AdoptValid(e, round, blockId, proof);
        if round == e.round && e.phase == Phase.Prevote
        then CastVote(LockOn(adopted, blockId), VoteKind.Precommit, Block(blockId))
        else Unchanged(adopted)
  }

  function BuiltCertificate(e: Engine, round: nat, blockId: BlockId, precommits: seq<SignedVote>): CommitCertificate
  {
    CommitCertificate(e.config.chainId, e.height, round, blockId, precommits)
  }

  ghost function EvaluatePrecommits(e: Engine, round: nat, validator: MessageValidator): Outcome
  {
    match QuorumVotes(e, round, VoteKind.Precommit)
    case None => Unchanged(e)
    case Some((Nil, _)) => Unchanged(e)
    case Some((Block(blockId), precommits)) =>
      var c := BuiltCertificate(e, round, blockId, precommits);
      match validator.validateCertificate(c)
      case Reject(error) => Failed(e, Validation(error))
      case Accept => FinalizeWith(e, c)
  }

  /** Run `second` after `first` has pushed its effects. */
  function Chain(first: Outcome, second: Outcome): Outcome
  {
    Outcome(second.engine, first.effects + second.effects, second.error)
  }

  ghost function EvaluateRound(e: Engine, round: nat, validator: MessageValidator): Outcome
  {
    var first := EvaluatePrevotes(e, round);
    Chain(first, EvaluatePrecommits(first.engine, round, validator))
  }

  function PrevoteProposal(e: Engine): Outcome
  {
    if e.phase == Propose && e.round in e.proposals
    then CastVote(e, VoteKind.Prevote, PrevoteFor(e, e.proposals[e.round].proposal))
    else Unchanged(e)
  }

  ghost function ActivateCurrentRound(e: Engine, validator: MessageValidator): Outcome
  {
    var first := PrevoteProposal(e);
    Chain(first, EvaluateRound(first.engine, first.engine.round, validator))
  }

  ghost function EnterRound(e: Engine, round: nat, validator: MessageValidator): Outcome
    requires |e.validators.validators| > 0
  {
    if round >= e.config.maxRoundsPerHeight then Failed(e, RoundLimitReached(round))
    else
      var entered := PruneCaches(e.(round := round, phase := Propose));
      var opening := Outcome(entered, [ScheduleTimeout(CurrentTimeout(entered, Propose))], None);
      if round in entered.proposals then Chain(opening, ActivateCurrentRound(entered, validator))
      else if e.validators.Proposer(e.height, round) == e.localId then
        Chain(opening, Outcome(
          entered.(requestedProposals := entered.requestedProposals + {round}),
          [RequestProposal(e.height, round, e.validBlock, e.validRound)],
          None))
      else opening
  }

  // ---------------------------------------------------------------- events

  function LocalProposal(e: Engine, round: nat, blockId: BlockId): SignableMessage
  {
    var carried := e.validRound.Some? && e.validRound.value < round && e.validBlock == Some(blockId);
    var proof := if carried then e.validProof else [];
    ProposalMessage(Proposal(
      e.config.chainId, e.height, round, e.localId, blockId,
      if proof == [] then None else e.validRound,
      proof))
  }

  function RequestPersistence(e: Engine, message: SignableMessage): Outcome
  {
    var key := message.Key();
    if key in e.localDecisions then
      if e.localDecisions[key] == message then Unchanged(e) else Failed(e, UnexpectedPersistedMessage)
    else Outcome(Decide(e, message), [PersistBeforeBroadcast(message, SafetyOf(e))], None)
  }

  function AcceptBuiltBlock(e: Engine, height: nat, round: nat, blockId: BlockId): Outcome
  {
    if height != e.height then Failed(e, WrongHeight(e.height, height))
    else if round !in e.requestedProposals then Failed(e, ProposalNotRequested(height, round))
    else
      var taken := e.(requestedProposals := e.requestedProposals - {round});
      RequestPersistence(taken, LocalProposal(taken, round, blockId))
  }

  ghost function AcceptProposal(e: Engine, signed: SignedProposal, validator: MessageValidator): Outcome
  {
    var round := signed.proposal.round;
    if !Cacheable(e, round) then Unchanged(e)
    else if round in e.proposals then
      if e.proposals[round] == signed then Unchanged(e)
      else Outcome(e, [ReportEvidence(DoubleProposal(signed.proposal.proposer, e.proposals[round], signed))], None)
    else
      var cached := e.(proposals := e.proposals[round := signed]);
      if round == e.round then ActivateCurrentRound(cached, validator) else Unchanged(cached)
  }

  ghost function AcceptVote(e: Engine, signed: SignedVote, validator: MessageValidator): Outcome
  {
    var vote := signed.vote;
    var slot := VoteSlot(vote.round, vote.kind);
    var cached := SlotVotes(e, vote.round, vote.kind);
    if !Cacheable(e, vote.round) then Unchanged(e)
    else if vote.validator in cached then
      if cached[vote.validator] == signed then Unchanged(e)
      else Outcome(e, [ReportEvidence(DoubleVote(vote.validator, cached[vote.validator], signed))], None)
    else
      EvaluateRound(e.(votes := e.votes[slot := cached[vote.validator := signed]]), vote.round, validator)
  }

  ghost function AcceptMessage(e: Engine, message: SignedMessage, validator: MessageValidator): Outcome
  {
    match message
    case SignedProposalMessage(p) => AcceptProposal(e, p, validator)
    case SignedVoteMessage(v) => AcceptVote(e, v, validator)
  }

  ghost function ReceiveMessage(e: Engine, message: SignedMessage, validator: MessageValidator): Outcome
    requires |e.validators.validators| > 0
  {
    var fault := MessageFault(e, message, validator);
    if fault.Some? then Failed(e, fault.value) else AcceptMessage(e, message, validator)
  }

  ghost function AcknowledgePersisted(e: Engine, message: SignedMessage, validator: MessageValidator): Outcome
    requires |e.validators.validators| > 0
  {
    var key := message.Signable().Key();
    if key !in e.pendingPersistence || e.pendingPersistence[key] != message.Signable()
    then Failed(e, UnexpectedPersistedMessage)
    else
      var fault := MessageFault(e, message, validator);
      if fault.Some? then Failed(e, fault.value)
      else
        var acknowledged := e.(pendingPersistence := e.pendingPersistence - {key});
        Chain(Outcome(acknowledged, [Broadcast(message)], None), AcceptMessage(acknowledged, message, validator))
  }

  predicate TimeoutIsCurrent(e: Engine, timeout: Timeout)
  {
    timeout == CurrentTimeout(e, e.phase)
  }

  ghost function HandleTimeout(e: Engine, timeout: Timeout, validator: MessageValidator): Outcome
    requires |e.validators.validators| > 0
  {
    if !TimeoutIsCurrent(e, timeout) then Unchanged(e)
    else match e.phase
      case Propose =>
        var first := CastVote(e, VoteKind.Prevote, Nil);
        Chain(first, EvaluateRound(first.engine, first.engine.round, validator))
      case Prevote =>
        var first := CastVote(e, VoteKind.Precommit, Nil);
        Chain(first, EvaluateRound(first.engine, first.engine.round, validator))
      case Precommit =>
        if e.round >= U32_MAX then Failed(e, RoundLimitReached(e.round)) else EnterRound(e, e.round + 1, validator)
      case Finalized => Unchanged(e)
  }

  /** `Consensus::step`. */
  ghost function Step(e: Engine, event: Event, validator: MessageValidator): Outcome
    requires |e.validators.validators| > 0
  {
    match event
    case Start =>
      if e.started then Failed(e, AlreadyStarted) else EnterRound(e.(started := true), e.round, validator)
    case Certificate(c) =>
      var fault := CertificateFault(e, c, validator);
      if fault.Some? then Failed(e, fault.value) else FinalizeWith(e, c)
    case _ =>
      if !e.started then Failed(e, NotStarted)
      else if e.finalized.Some? then Unchanged(e)
      else match event
        case ProposalReady(height, round, blockId) => AcceptBuiltBlock(e, height, round, blockId)
        case Message(message) => ReceiveMessage(e, message, validator)
        case Persisted(message) => AcknowledgePersisted(e, message, validator)
        case TimeoutEvent(timeout) => HandleTimeout(e, timeout, validator)
  }

  // ---------------------------------------------------------------- construction and restart

  function NewFault(localId: ValidatorId, validators: ValidatorSet, height: nat, config: ConsensusConfig): Option<ConsensusError>
  {
    if height == 0 then Some(ZeroHeight)
    else if localId !in validators.validators then Some(LocalValidatorNotFound(localId))
    else if !ChainIdValid(config.chainId) then Some(InvalidConfig("chain_id must be a valid KCoin protocol chain ID"))
    else if config.maxCachedRounds == 0 then Some(InvalidConfig("max_cached_rounds must be greater than zero"))
    else if config.maxRoundsPerHeight == 0 then Some(InvalidConfig("max_rounds_per_height must be greater than zero"))
    else if config.maxSignatureBytes == 0 then Some(InvalidConfig("max_signature_bytes must be greater than zero"))
    else None
  }

  function FreshEngine(localId: ValidatorId, validators: ValidatorSet, height: nat, config: ConsensusConfig): Engine
  {
    Engine(localId, validators, config, height, 0, Propose, false, None, None, None, None, None, [],
           map[], map[], {}, map[], map[])
  }

  function NewEngine(localId: ValidatorId, validators: ValidatorSet, height: nat, config: ConsensusConfig):
    Result<Engine, ConsensusError>
  {
    var fault := NewFault(localId, validators, height, config);
    if fault.Some? then Err(fault.value) else Ok(FreshEngine(localId, validators, height, config))
  }

  predicate LockWellFormed(s: SafetyState)
  {
    match (s.lockedRound, s.lockedBlock)
    case (None, None) => true
    case (Some(round), Some(_)) => round <= s.round
    case _ => false
  }

  function ValidValueWellFormed(e: Engine, s: SafetyState): bool
  {
    match (s.validRound, s.validBlock)
    case (None, None) => s.validRoundProof == []
    case (Some(round), Some(_)) => round <= s.round && ProofSizeOk(e, s.validRoundProof)
    case _ => false
  }

  predicate LockCoveredByValid(s: SafetyState)
  {
    match (s.lockedRound, s.lockedBlock, s.validRound, s.validBlock)
    case (None, None, _, _) => true
    case (Some(lockedRound), Some(lockedBlock), Some(validRound), Some(validBlock)) =>
      validRound > lockedRound || (validRound == lockedRound && validBlock == lockedBlock)
    case _ => false
  }

  ghost function RestoredFault(e: Engine, s: SafetyState, validator: MessageValidator): Option<ConsensusError>
  {
    if !LockWellFormed(s) || !ValidValueWellFormed(e, s) || !LockCoveredByValid(s) then Some(MalformedSafetyState)
    else if s.validRound.Some? && s.validBlock.Some? then
      ProofFault(e, s.validRoundProof, s.validRound.value, VoteKind.Prevote, s.validBlock.value, MalformedSafetyState, validator)
    else None
  }

  /** `new_with_safety_state`: resume in the round after the last durable decision. */
  ghost function RestoreEngine(
    localId: ValidatorId, validators: ValidatorSet, height: nat, config: ConsensusConfig,
    s: SafetyState, validator: MessageValidator): Result<Engine, ConsensusError>
  {
    if s.height != height then Err(RestoredHeightMismatch(height, s.height))
    else if s.round >= U32_MAX || s.round + 1 >= config.maxRoundsPerHeight then Err(RestoredRoundOutOfRange(s.round))
    else
      var made := NewEngine(localId, validators, height, config);
      if made.Err? then made
      else
        var fault := RestoredFault(made.value, s, validator);
        if fault.Some? then Err(fault.value)
        else Ok(made.value.(
          round := s.round + 1,
          lockedRound := s.lockedRound, lockedBlock := s.lockedBlock,
          validRound := s.validRound, validBlock := s.validBlock, validProof := s.validRoundProof))
  }

  function RestoreDecisionFault(e: Engine, message: SignableMessage): Option<ConsensusError>
    requires |e.validators.validators| > 0
  {
    var expected := e.validators.Proposer(e.height, message.Round());
    var context := ContextFault(e, message.ChainId(), message.Height());
    var key := message.Key();
    if e.started then Some(AlreadyStarted)
    else if message.ProposalMessage? && message.Signer() != expected then
      Some(UnexpectedProposer(message.Round(), expected, message.Signer()))
    else if context.Some? then context
    else if message.Signer() != e.localId then Some(RestoredDecisionSigner(e.localId, message.Signer()))
    else if message.Round() >= e.round || message.Round() >= e.config.maxRoundsPerHeight then Some(MalformedSafetyState)
    else if key in e.localDecisions && e.localDecisions[key] != message then Some(UnexpectedPersistedMessage)
    else None
  }

  /** `restore_local_decision`: reserve an already durable signer slot. */
  function RestoreDecision(e: Engine, message: SignableMessage): Result<Engine, ConsensusError>
    requires |e.validators.validators| > 0
  {
    var fault := RestoreDecisionFault(e, message);
    if fault.Some? then Err(fault.value)
    else Ok(e.(localDecisions := e.localDecisions[message.Key() := message]))
  }
}
