/**
 * The inductive invariant of one honest validator: its engine, its durable decision log and the
 * authentic signatures fit together. The log is the sequence of `signer_state` rows of the height
 * in insertion order; its last safety state is the `consensus_safety` cell.
 */
module EngineInvariant {
  import opened Wrappers
  import opened Quorums
  import opened ConsensusTypes
  import opened EngineSpec
  import opened VoteCounting
  import opened Protocol

  // ---------------------------------------------------------------- one safety state

  /** Well formed, covered and backed by authentic signatures: what a restart demands. */
  ghost predicate SafetySound(w: World, auth: Signatures, s: SafetyState)
  {
    && s.height == w.height
    && s.round < w.config.maxRoundsPerHeight
    && LockWellFormed(s)
    && LockCoveredByValid(s)
    && (s.validRound.Some? <==> s.validBlock.Some?)
    && (s.validRound.None? ==> s.validRoundProof == [])
    && (s.validRound.Some? ==>
          && s.validRound.value <= s.round
          && QuorumProof(w, auth, s.validRoundProof, s.validRound.value, VoteKind.Prevote, s.validBlock.value))
    && (s.lockedRound.Some? ==> s.lockedBlock.Some? && Polka(w, auth, s.lockedRound.value, s.lockedBlock.value))
  }

  /** The lock remembers a block precommit: it is that lock or a later one. */
  predicate LockCovers(s: SafetyState, round: nat, blockId: BlockId)
  {
    s.lockedRound.Some? && s.lockedBlock.Some?
    && (s.lockedRound.value > round || (s.lockedRound.value == round && s.lockedBlock.value == blockId))
  }

  predicate IsBlockPrecommit(m: SignableMessage)
  {
    m.VoteMessage? && m.vote.kind == VoteKind.Precommit && m.vote.value.Block?
  }

  predicate IsBlockPrevote(m: SignableMessage)
  {
    m.VoteMessage? && m.vote.kind == VoteKind.Prevote && m.vote.value.Block?
  }

  // ---------------------------------------------------------------- the engine

  ghost predicate VotesSound(w: World, auth: Signatures, votes: map<VoteSlot, map<ValidatorId, SignedVote>>)
  {
    forall slot, v :: slot in votes && v in votes[slot] ==> CachedVoteSound(w, auth, slot, v, votes[slot][v])
  }

  predicate CachedVoteSound(w: World, auth: Signatures, slot: VoteSlot, v: ValidatorId, signed: SignedVote)
  {
    && signed in auth
    && VoteFits(w, signed)
    && signed.vote.validator == v && signed.vote.round == slot.round && signed.vote.kind == slot.kind
  }

  ghost predicate ProposalSound(w: World, auth: Signatures, p: Proposal)
  {
    p.validRound.Some? ==>
      p.validRound.value < p.round
      && QuorumProof(w, auth, p.validRoundProof, p.validRound.value, VoteKind.Prevote, p.blockId)
  }

  ghost predicate ProposalsSound(w: World, auth: Signatures, proposals: map<nat, SignedProposal>)
  {
    forall r :: r in proposals ==> proposals[r].proposal.round == r && ProposalSound(w, auth, proposals[r].proposal)
  }

  predicate MessageFits(w: World, v: ValidatorId, m: SignableMessage)
    requires |w.validators.validators| > 0
  {
    && m.Signer() == v
    && m.ChainId() == w.config.chainId
    && m.Height() == w.height
    && m.Round() < w.config.maxRoundsPerHeight
    && (m.ProposalMessage? ==> v == w.validators.Proposer(w.height, m.Round()))
  }

  ghost predicate DecisionsSound(w: World, e: Engine)
    requires |w.validators.validators| > 0
  {
    forall k :: k in e.localDecisions ==>
      && e.localDecisions[k].Key() == k
      && k.round <= e.round
      && MessageFits(w, e.localId, e.localDecisions[k])
  }

  ghost predicate RequestsSound(w: World, e: Engine)
    requires |w.validators.validators| > 0
  {
    forall r :: r in e.requestedProposals ==>
      r <= e.round && w.validators.Proposer(w.height, r) == e.localId && ProposalKey(r) !in e.localDecisions
  }

  predicate LockedEarlier(e: Engine)
  {
    e.lockedRound.Some? ==> e.lockedRound.value < e.round
  }

  /**
   * A phase that still has a vote to cast has that signer slot free, and no lock is taken in a
   * round before its prevote is cast.
   */
  predicate PhaseSound(e: Engine)
  {
    if e.started then
      && (e.phase == Propose ==> VoteKey(e.round, VoteKind.Prevote) !in e.localDecisions && LockedEarlier(e))
      && (e.phase == Propose || e.phase == Phase.Prevote ==> VoteKey(e.round, VoteKind.Precommit) !in e.localDecisions)
    else
      && LockedEarlier(e)
      && e.proposals == map[] && e.votes == map[] && e.requestedProposals == {}
      && (forall k :: k in e.localDecisions ==> k.round < e.round)
  }

  /** The valid value of the running round is backed by the cached prevotes. */
  ghost predicate ValidCached(e: Engine)
  {
    e.validRound == Some(e.round) ==>
      e.validBlock.Some? && HasQuorum(SlotVotes(e, e.round, VoteKind.Prevote), Block(e.validBlock.value), e.validators.Quorum())
  }

  ghost predicate FinalizedSound(w: World, auth: Signatures, e: Engine)
  {
    && (e.phase == Finalized ==> e.finalized.Some?)
    && (e.finalized.Some? ==>
      && CertificateValid(w, auth, e.finalized.value.certificate)
      && e.finalized.value.blockId == e.finalized.value.certificate.blockId
      && e.finalized.value.round == e.finalized.value.certificate.round
      && e.finalized.value.height == e.finalized.value.certificate.height)
  }

  ghost predicate EngineSound(w: World, auth: Signatures, v: ValidatorId, e: Engine)
    requires |w.validators.validators| > 0
  {
    && e.validators == w.validators && e.config == w.config && e.height == w.height && e.localId == v
    && v in w.validators.validators
    && SafetySound(w, auth, SafetyOf(e))
    && VotesSound(w, auth, e.votes)
    && ProposalsSound(w, auth, e.proposals)
    && DecisionsSound(w, e)
    && RequestsSound(w, e)
    && PhaseSound(e)
    && ValidCached(e)
    && FinalizedSound(w, auth, e)
  }

  // ---------------------------------------------------------------- the durable log

  /** A prevote against an earlier precommit was justified by a polka in between. */
  ghost predicate Justified(w: World, auth: Signatures, precommit: Vote, prevote: Vote)
    requires precommit.value.Block? && prevote.value.Block?
  {
    precommit.round < prevote.round && precommit.value != prevote.value ==>
      exists r :: precommit.round < r < prevote.round && Polka(w, auth, r, prevote.value.id)
  }

  ghost predicate EntriesFit(w: World, v: ValidatorId, log: seq<Decision>)
    requires |w.validators.validators| > 0
  {
    forall i :: 0 <= i < |log| ==> MessageFits(w, v, log[i].message) && log[i].message.Round() <= log[i].safety.round
  }

  ghost predicate RoundsAscend(log: seq<Decision>)
  {
    forall i, j :: 0 <= i < j < |log| ==> log[i].safety.round <= log[j].safety.round
  }

  ghost predicate SafetiesSound(w: World, auth: Signatures, log: seq<Decision>)
  {
    forall i :: 0 <= i < |log| ==> SafetySound(w, auth, log[i].safety)
  }

  ghost predicate PrecommitsLocked(log: seq<Decision>)
  {
    forall i, j :: 0 <= i <= j < |log| && IsBlockPrecommit(log[i].message) ==>
      LockCovers(log[j].safety, log[i].message.vote.round, log[i].message.vote.value.id)
  }

  ghost predicate PrevotesJustified(w: World, auth: Signatures, log: seq<Decision>)
  {
    forall i, j :: 0 <= i < |log| && 0 <= j < |log| && IsBlockPrecommit(log[i].message) && IsBlockPrevote(log[j].message) ==>
      Justified(w, auth, log[i].message.vote, log[j].message.vote)
  }

  ghost predicate PrecommitsJustified(w: World, auth: Signatures, log: seq<Decision>)
  {
    forall i :: 0 <= i < |log| && IsBlockPrecommit(log[i].message) ==>
      Polka(w, auth, log[i].message.vote.round, log[i].message.vote.value.id)
  }

  /** Holds of a log exactly when it holds of each of its prefixes. */
  ghost predicate LogSound(w: World, auth: Signatures, v: ValidatorId, log: seq<Decision>)
    requires |w.validators.validators| > 0
  {
    && EntriesFit(w, v, log)
    && DistinctKeys(log)
    && RoundsAscend(log)
    && SafetiesSound(w, auth, log)
    && PrecommitsLocked(log)
    && PrevotesJustified(w, auth, log)
    && PrecommitsJustified(w, auth, log)
  }

  // ---------------------------------------------------------------- engine and log together

  /** The engine remembers what the log says about its own round, lock and open requests. */
  ghost predicate Linked(e: Engine, log: seq<Decision>)
  {
    && (forall i :: 0 <= i < |log| ==> log[i].safety.round <= e.round)
    && (forall i :: 0 <= i < |log| ==>
          if e.started then log[i].message.Round() == e.round ==> log[i].message.Key() in e.localDecisions
          else log[i].message.Round() < e.round)
    && (forall i :: 0 <= i < |log| && IsBlockPrecommit(log[i].message) ==>
          LockCovers(SafetyOf(e), log[i].message.vote.round, log[i].message.vote.value.id))
    && (forall i :: 0 <= i < |log| && log[i].message.ProposalMessage? ==>
          log[i].message.proposal.round !in e.requestedProposals)
  }

  ghost predicate Sound(w: World, auth: Signatures, v: ValidatorId, e: Engine, log: seq<Decision>)
    requires |w.validators.validators| > 0
  {
    EngineSound(w, auth, v, e) && LogSound(w, auth, v, log) && Linked(e, log)
  }

  /** The decisions a list of effects asks the store to make durable. */
  function Emitted(effects: seq<Effect>): seq<Decision>
  {
    if effects == [] then []
    else
      var last := effects[|effects| - 1];
      Emitted(effects[..|effects| - 1])
        + if last.PersistBeforeBroadcast? then [Decision(last.message, last.safetyState)] else []
  }

  lemma {:induction false} EmittedConcat(a: seq<Effect>, b: seq<Effect>)
    ensures Emitted(a + b) == Emitted(a) + Emitted(b)
    decreases |b|
  {
    if b == [] {
      assert a + b == a;
    } else {
      assert (a + b)[..|a + b| - 1] == a + b[..|b| - 1];
      EmittedConcat(a, b[..|b| - 1]);
    }
  }

  lemma PrefixSound(w: World, auth: Signatures, v: ValidatorId, e: Engine, log: seq<Decision>, count: nat)
    requires |w.validators.validators| > 0
    requires Sound(w, auth, v, e, log)
    requires count <= |log|
    ensures Sound(w, auth, v, e, log[..count])
  {
    var p := log[..count];
    assert LogSound(w, auth, v, p) by {
      assert forall i :: 0 <= i < count ==> p[i] == log[i];
    }
    assert Linked(e, p) by {
      assert forall i :: 0 <= i < count ==> p[i] == log[i];
    }
  }
}
