/** The lock rule compared with Algorithm 1 of arXiv:1807.04938. */
module Unlocking {
  import opened Wrappers
  import opened Quorums
  import opened ConsensusTypes
  import opened EngineSpec
  import opened Protocol
  import opened EngineInvariant
  import opened EngineSteps
  import opened Network
  import opened Agreement

  /** Lines 22-33 of Algorithm 1: the lock yields to a proof from its own round or a later one. */
  predicate PaperAllows(e: Engine, p: Proposal)
  {
    || e.lockedRound.None?
    || e.lockedBlock == Some(p.blockId)
    || (p.validRound.Some? && p.validRound.value >= e.lockedRound.value)
  }

  /**
   * The engine compares `valid_round > locked_round` strictly, where Algorithm 1 allows equality.
   * On every reachable engine and every accepted proposal the two rules agree: a proof from the
   * lock's own round can only be for the locked block.
   */
  lemma StrictRuleIsPaperRule(w: World, s: Net, v: ValidatorId, p: Proposal)
    requires w.Valid() && w.FaultsBounded() && NetSound(w, s)
    requires v in s.nodes && s.nodes[v].engine.Some?
    requires ProposalSound(w, s.auth, p)
    ensures PrevoteFor(s.nodes[v].engine.value, p) == Block(p.blockId) <==> PaperAllows(s.nodes[v].engine.value, p)
  {
    var e := s.nodes[v].engine.value;
    assert NodeSound(w, s.auth, v, s.nodes[v]);
    LockSound(w, s.auth, v, e, s.nodes[v].log);
    hide NetSound, NodeSound, QuorumProof, Certified;
    if e.lockedRound.Some? && p.validRound == e.lockedRound {
      ProofCertifies(w, s.auth, p.validRoundProof, p.validRound.value, VoteKind.Prevote, p.blockId);
      OneValuePerSlot(w, s, p.validRound.value, VoteKind.Prevote, Block(p.blockId), Block(e.lockedBlock.value));
    }
  }

  lemma LockSound(w: World, auth: Signatures, v: ValidatorId, e: Engine, log: seq<Decision>)
    requires |w.validators.validators| > 0 && Sound(w, auth, v, e, log)
    ensures e.lockedRound.Some? <==> e.lockedBlock.Some?
    ensures e.lockedRound.Some? ==> Polka(w, auth, e.lockedRound.value, e.lockedBlock.value)
  {
  }

  /**
   * Unlocking: a proposal carrying a prevote quorum from round `vr` is prevoted by every honest
   * validator that is locked in a round up to `vr`, or not at all.
   */
  lemma ProofUnlocks(w: World, s: Net, v: ValidatorId, p: Proposal)
    requires w.Valid() && w.FaultsBounded() && NetSound(w, s)
    requires v in s.nodes && s.nodes[v].engine.Some?
    requires ProposalSound(w, s.auth, p) && p.validRound.Some?
    requires var lock := s.nodes[v].engine.value.lockedRound; lock.None? || lock.value <= p.validRound.value
    ensures PrevoteFor(s.nodes[v].engine.value, p) == Block(p.blockId)
  {
    hide NetSound, ProposalSound;
    StrictRuleIsPaperRule(w, s, v, p);
  }
}
