/**
 * Messages, certificates, configuration, events and effects of the consensus crate
 * (`crates/kcoin-consensus/src/types.rs`).
 *
 * Identifiers are 32-byte strings in the source. They are read here as big-endian numbers, so that
 * the byte-wise order of `BTreeMap` and `sort_by_key` is the order of the numbers. Rounds and
 * heights are natural numbers; the operations that saturate or check for overflow in the source say
 * so explicitly with `U32_MAX` and `U64_MAX`.
 */
module ConsensusTypes {
  import opened Wrappers
  import opened Quorums

  const U32_MAX: nat := 0xFFFF_FFFF
  const U64_MAX: nat := 0xFFFF_FFFF_FFFF_FFFF
  /** `Duration::MAX` in nanoseconds. */
  const DURATION_MAX: nat := U64_MAX * 1_000_000_000 + 999_999_999

  /** `ChainId::validate`: 1 to 64 ASCII letters, digits, `-` or `_`. */
  predicate ChainIdValid(id: string)
  {
    0 < |id| <= 64 && forall i :: 0 <= i < |id| ==> ChainIdCharacter(id[i])
  }

  predicate ChainIdCharacter(c: char)
  {
    'a' <= c <= 'z' || 'A' <= c <= 'Z' || '0' <= c <= '9' || c == '-' || c == '_'
  }

  type ValidatorId = nat
  type BlockId = nat
  type Signature = seq<bv8>

  datatype VoteKind = Prevote | Precommit

  datatype VoteValue = Nil | Block(id: BlockId)

  datatype Vote = Vote(
    chainId: string,
    height: nat,
    round: nat,
    kind: VoteKind,
    validator: ValidatorId,
    value: VoteValue)

  datatype SignedVote = SignedVote(vote: Vote, signature: Signature)

  datatype Proposal = Proposal(
    chainId: string,
    height: nat,
    round: nat,
    proposer: ValidatorId,
    blockId: BlockId,
    validRound: Option<nat>,
    validRoundProof: seq<SignedVote>)

  datatype SignedProposal = SignedProposal(proposal: Proposal, signature: Signature)

  datatype SignableMessage = ProposalMessage(proposal: Proposal) | VoteMessage(vote: Vote)
  {
    function Round(): nat
    {
      match this
      case ProposalMessage(proposal) => proposal.round
      case VoteMessage(vote) => vote.round
    }

    function Signer(): ValidatorId
    {
      match this
      case ProposalMessage(proposal) => proposal.proposer
      case VoteMessage(vote) => vote.validator
    }

    function ChainId(): string
    {
      match this
      case ProposalMessage(proposal) => proposal.chainId
      case VoteMessage(vote) => vote.chainId
    }

    function Height(): nat
    {
      match this
      case ProposalMessage(proposal) => proposal.height
      case VoteMessage(vote) => vote.height
    }

    function Key(): DecisionKey
    {
      match this
      case ProposalMessage(proposal) => ProposalKey(proposal.round)
      case VoteMessage(vote) => VoteKey(vote.round, vote.kind)
    }
  }

  datatype SignedMessage = SignedProposalMessage(signedProposal: SignedProposal) | SignedVoteMessage(signedVote: SignedVote)
  {
    function Signable(): SignableMessage
    {
      match this
      case SignedProposalMessage(p) => ProposalMessage(p.proposal)
      case SignedVoteMessage(v) => VoteMessage(v.vote)
    }

    function Signature(): Signature
    {
      match this
      case SignedProposalMessage(p) => p.signature
      case SignedVoteMessage(v) => v.signature
    }
  }

  /** The signer slot of a local message: one proposal per round, one vote per round and kind. */
  datatype DecisionKey = ProposalKey(round: nat) | VoteKey(round: nat, kind: VoteKind)
  {
    function Round(): nat { round }
  }

  datatype CommitCertificate = CommitCertificate(
    chainId: string,
    height: nat,
    round: nat,
    blockId: BlockId,
    precommits: seq<SignedVote>)

  datatype Phase = Propose | Prevote | Precommit | Finalized

  datatype SafetyState = SafetyState(
    height: nat,
    round: nat,
    lockedRound: Option<nat>,
    lockedBlock: Option<BlockId>,
    validRound: Option<nat>,
    validBlock: Option<BlockId>,
    validRoundProof: seq<SignedVote>)

  datatype Timeout = Timeout(height: nat, round: nat, phase: Phase, after: nat)

  datatype Event =
    | Start
    | ProposalReady(height: nat, round: nat, blockId: BlockId)
    | Message(message: SignedMessage)
    | Persisted(message: SignedMessage)
    | TimeoutEvent(timeout: Timeout)
    | Certificate(certificate: CommitCertificate)

  datatype Finalization = Finalization(
    height: nat,
    round: nat,
    blockId: BlockId,
    certificate: CommitCertificate)

  datatype Evidence =
    | DoubleVote(validator: ValidatorId, firstVote: SignedVote, secondVote: SignedVote)
    | DoubleProposal(proposer: ValidatorId, firstProposal: SignedProposal, secondProposal: SignedProposal)

  datatype Effect =
    | RequestProposal(height: nat, round: nat, validBlock: Option<BlockId>, validRound: Option<nat>)
    | PersistBeforeBroadcast(message: SignableMessage, safetyState: SafetyState)
    | Broadcast(signed: SignedMessage)
    | ScheduleTimeout(timeout: Timeout)
    | Finalize(finalization: Finalization)
    | ReportEvidence(evidence: Evidence)

  datatype ValidationError = InvalidSignature | InvalidProposal | InvalidCertificateForApplication | Other(reason: string)

  datatype ConsensusError =
    | ZeroHeight
    | LocalValidatorNotFound(local: ValidatorId)
    | InvalidConfig(reason: string)
    | AlreadyStarted
    | NotStarted
    | RestoredHeightMismatch(expectedHeight: nat, actualHeight: nat)
    | MalformedSafetyState
    | RestoredRoundOutOfRange(round: nat)
    | RestoredDecisionSigner(expected: ValidatorId, actual: ValidatorId)
    | WrongChain(expectedChain: string, actualChain: string)
    | WrongHeight(expectedHeight: nat, actualHeight: nat)
    | UnknownValidator(validator: ValidatorId)
    | UnexpectedProposer(round: nat, expected: ValidatorId, actual: ValidatorId)
    | RoundOutsideWindow(round: nat)
    | RoundLimitReached(round: nat)
    | SignatureTooLarge
    | InvalidValidRoundProof
    | InvalidCertificate
    | ProposalNotRequested(height: nat, round: nat)
    | UnexpectedPersistedMessage
    | ConflictingCommit(finalized: BlockId, received: BlockId)
    | Validation(validation: ValidationError)

  datatype Verdict = Accept | Reject(error: ValidationError)

  /** The `MessageValidator` trait: signature checks plus application checks of the embedding node. */
  datatype MessageValidator = MessageValidator(
    validateProposal: SignedProposal -> Verdict,
    validateVote: SignedVote -> Verdict,
    validateCertificate: CommitCertificate -> Verdict)

  datatype ConsensusConfig = ConsensusConfig(
    chainId: string,
    proposeTimeout: nat,
    prevoteTimeout: nat,
    precommitTimeout: nat,
    timeoutStep: nat,
    maxCachedRounds: nat,
    maxRoundAhead: nat,
    maxRoundsPerHeight: nat,
    maxSignatureBytes: nat)
  {
    /** Timeouts grow by one step per round, saturating at `Duration::MAX`. */
    function TimeoutFor(phase: Phase, round: nat): nat
    {
      var base := match phase
        case Propose => proposeTimeout
        case Prevote => prevoteTimeout
        case Precommit => precommitTimeout
        case Finalized => 0;
      SaturatingAdd(base, SaturatingMul(timeoutStep, round, DURATION_MAX), DURATION_MAX)
    }
  }

  function SaturatingAdd(a: nat, b: nat, limit: nat): nat
  {
    if a + b > limit then limit else a + b
  }

  function SaturatingSub(a: nat, b: nat): nat
  {
    if a < b then 0 else a - b
  }

  function SaturatingMul(a: nat, b: nat, limit: nat): nat
  {
    if a * b > limit then limit else a * b
  }

  datatype ValidatorSetError = Empty | Duplicate(validator: ValidatorId)

  /** A fixed validator set with equal voting power. */
  datatype ValidatorSet = ValidatorSet(validators: seq<ValidatorId>)
  {
    ghost predicate Valid()
    {
      |validators| > 0 && forall i, j :: 0 <= i < j < |validators| ==> validators[i] != validators[j]
    }

    function Ids(): set<ValidatorId>
    {
      ToSet(validators)
    }

    function Quorum(): nat
    {
      QuorumSize(|validators|)
    }

    /**
     * The validator whose turn it is. `height_offset + round` is a 64-bit sum that wraps in a
     * release build.
     */
    function Proposer(height: nat, round: nat): ValidatorId
      requires |validators| > 0
    {
      validators[(SaturatingSub(height, 1) + round) % (U64_MAX + 1) % |validators|]
    }

    static method Create(ids: seq<ValidatorId>) returns (r: Result<ValidatorSet, ValidatorSetError>)
      ensures r.Ok? <==> ValidatorSet(ids).Valid()
      ensures r.Ok? ==> r.value.validators == ids
      ensures r == Err(Empty) <==> ids == []
      ensures r.Err? && r.error.Duplicate? ==>
        exists i, j :: 0 <= i < j < |ids| && ids[i] == ids[j] == r.error.validator
          && forall k, l :: 0 <= k < l < j ==> ids[k] != ids[l]
    {
      if ids == [] {
        return Err(Empty);
      }
      var seen := {};
      for i := 0 to |ids|
        invariant seen == set k | 0 <= k < i :: ids[k]
        invariant forall k, l :: 0 <= k < l < i ==> ids[k] != ids[l]
      {
        if ids[i] in seen {
          var k :| 0 <= k < i && ids[k] == ids[i];
          assert !(ids[k] != ids[i]);
          return Err(Duplicate(ids[i]));
        }
        seen := seen + {ids[i]};
      }
      return Ok(ValidatorSet(ids));
    }
  }

  function ToSet(ids: seq<ValidatorId>): set<ValidatorId>
  {
    set v | v in ids
  }

  /** A duplicate-free list has as many members as its set of ids. */
  lemma {:induction false} DistinctCount(ids: seq<ValidatorId>)
    requires forall i, j :: 0 <= i < j < |ids| ==> ids[i] != ids[j]
    ensures |ToSet(ids)| == |ids|
    decreases |ids|
  {
    if ids != [] {
      var rest := ids[1..];
      forall i, j | 0 <= i < j < |rest| ensures rest[i] != rest[j] {
        assert ids[i + 1] != ids[j + 1];
      }
      DistinctCount(rest);
      assert ToSet(ids) == {ids[0]} + ToSet(rest);
      forall i | 0 <= i < |rest| ensures rest[i] != ids[0] {
        assert ids[i + 1] == rest[i];
      }
      assert ids[0] !in ToSet(rest);
    }
  }
}
