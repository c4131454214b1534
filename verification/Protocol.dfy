/**
 * What is true of the whole network, independently of any one engine: the fixed parameters of a
 * height, the signatures that exist, the durable decisions of a validator, and the certificates
 * they add up to.
 */
module Protocol {
  import opened Wrappers
  import opened Quorums
  import opened ConsensusTypes
  import opened EngineSpec

  /** One height of one chain, and which validators may behave arbitrarily. */
  datatype World = World(validators: ValidatorSet, config: ConsensusConfig, height: nat, byzantine: set<ValidatorId>)
  {
    ghost predicate Valid()
    {
      && validators.Valid()
      && height > 0
      && ChainIdValid(config.chainId)
      && config.maxCachedRounds > 0 && config.maxSignatureBytes > 0
      && 0 < config.maxRoundsPerHeight <= U32_MAX
    }

    ghost predicate FaultsBounded()
    {
      |byzantine| <= MaxFaults(|validators.validators|)
    }

    predicate Honest(v: ValidatorId)
    {
      v in validators.validators && v !in byzantine
    }
  }

  /** One durable row of `signer_state`: the signed decision and the safety state stored with it. */
  datatype Decision = Decision(message: SignableMessage, safety: SafetyState)

  /** The signatures produced so far. */
  type Signatures = set<SignedVote>

  predicate VoteFits(w: World, signed: SignedVote)
  {
    && |signed.signature| <= w.config.maxSignatureBytes
    && signed.vote.chainId == w.config.chainId
    && signed.vote.height == w.height
    && signed.vote.validator in w.validators.validators
    && signed.vote.round < w.config.maxRoundsPerHeight
  }

  predicate Supports(w: World, vote: Vote, round: nat, kind: VoteKind, value: VoteValue)
  {
    vote == Vote(w.config.chainId, w.height, round, kind, vote.validator, value)
  }

  /** A list of distinct, authentic, matching votes of quorum size. */
  ghost predicate QuorumProof(w: World, auth: Signatures, proof: seq<SignedVote>, round: nat, kind: VoteKind, blockId: BlockId)
  {
    && w.validators.Quorum() <= |proof| <= |w.validators.validators|
    && (forall i :: 0 <= i < |proof| ==>
          && VoteFits(w, proof[i])
          && proof[i] in auth
          && Supports(w, proof[i].vote, round, kind, Block(blockId)))
    && (forall i, j :: 0 <= i < j < |proof| ==> proof[i].vote.validator != proof[j].vote.validator)
  }

  /** The validators with an authentic signature for a value. */
  function Signers(w: World, auth: Signatures, round: nat, kind: VoteKind, value: VoteValue): set<ValidatorId>
  {
    set s | s in auth && Supports(w, s.vote, round, kind, value) && s.vote.validator in w.validators.validators :: s.vote.validator
  }

  /** A quorum of validators signed the value: a polka for prevotes, a commit for precommits. */
  predicate Certified(w: World, auth: Signatures, round: nat, kind: VoteKind, value: VoteValue)
  {
    |Signers(w, auth, round, kind, value)| >= w.validators.Quorum()
  }

  predicate Polka(w: World, auth: Signatures, round: nat, blockId: BlockId)
  {
    Certified(w, auth, round, VoteKind.Prevote, Block(blockId))
  }

  predicate Committed(w: World, auth: Signatures, round: nat, blockId: BlockId)
  {
    Certified(w, auth, round, VoteKind.Precommit, Block(blockId))
  }

  ghost predicate CertificateValid(w: World, auth: Signatures, c: CommitCertificate)
  {
    && c.chainId == w.config.chainId && c.height == w.height && c.round < w.config.maxRoundsPerHeight
    && QuorumProof(w, auth, c.precommits, c.round, VoteKind.Precommit, c.blockId)
  }

  lemma CertifiedMonotone(w: World, auth: Signatures, more: Signatures, round: nat, kind: VoteKind, value: VoteValue)
    requires auth <= more
    ensures Signers(w, auth, round, kind, value) <= Signers(w, more, round, kind, value)
    ensures Certified(w, auth, round, kind, value) ==> Certified(w, more, round, kind, value)
  {
    SubsetSize(Signers(w, auth, round, kind, value), Signers(w, more, round, kind, value));
  }

  function ProofSigners(proof: seq<SignedVote>): set<ValidatorId>
  {
    set s | s in proof :: s.vote.validator
  }

  lemma {:induction false} DistinctSigners(proof: seq<SignedVote>)
    requires forall i, j :: 0 <= i < j < |proof| ==> proof[i].vote.validator != proof[j].vote.validator
    ensures |ProofSigners(proof)| == |proof|
    decreases |proof|
  {
    if proof != [] {
      var init, last := proof[..|proof| - 1], proof[|proof| - 1];
      DistinctSigners(init);
      assert forall s :: s in proof <==> s in init || s == last;
      assert ProofSigners(proof) == ProofSigners(init) + {last.vote.validator};
      assert last.vote.validator !in ProofSigners(init);
    }
  }

  /** A quorum proof shows that its value is certified. */
  lemma ProofCertifies(w: World, auth: Signatures, proof: seq<SignedVote>, round: nat, kind: VoteKind, blockId: BlockId)
    requires QuorumProof(w, auth, proof, round, kind, blockId)
    ensures Certified(w, auth, round, kind, Block(blockId))
  {
    DistinctSigners(proof);
    assert ProofSigners(proof) <= Signers(w, auth, round, kind, Block(blockId));
    SubsetSize(ProofSigners(proof), Signers(w, auth, round, kind, Block(blockId)));
  }

  lemma WorldSize(w: World)
    requires w.Valid()
    ensures |w.validators.Ids()| == |w.validators.validators| > 0
    ensures w.validators.Quorum() > 0
  {
    DistinctCount(w.validators.validators);
  }

  ghost predicate Recorded(log: seq<Decision>, message: SignableMessage)
  {
    exists i :: 0 <= i < |log| && log[i].message == message
  }

  ghost predicate DistinctKeys(log: seq<Decision>)
  {
    forall i, j :: 0 <= i < j < |log| ==> log[i].message.Key() != log[j].message.Key()
  }
}
