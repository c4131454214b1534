/**
 * Safety of whole runs (arXiv:1807.04938, section IV): with at most floor((n-1)/3) Byzantine
 * validators no two honest ones finalize different blocks, through crashes and restarts.
 */
module Agreement {
  import opened Wrappers
  import opened Quorums
  import opened ConsensusTypes
  import opened EngineSpec
  import opened Protocol
  import opened EngineInvariant
  import opened EngineSteps
  import opened Network
  import opened StepFailures
  import opened Recovery

  /** An honest validator that signed for both of two certified values. */
  lemma CommonSigner(w: World, auth: Signatures, ra: nat, ka: VoteKind, a: VoteValue, rb: nat, kb: VoteKind, b: VoteValue)
    returns (v: ValidatorId)
    requires w.Valid() && w.FaultsBounded()
    requires Certified(w, auth, ra, ka, a) && Certified(w, auth, rb, kb, b)
    ensures w.Honest(v)
    ensures exists s :: s in auth && s.vote == Vote(w.config.chainId, w.height, ra, ka, v, a)
    ensures exists s :: s in auth && s.vote == Vote(w.config.chainId, w.height, rb, kb, v, b)
  {
    WorldSize(w);
    v := HonestOverlap(w.validators.Ids(), w.byzantine, Signers(w, auth, ra, ka, a), Signers(w, auth, rb, kb, b));
    var sa :| sa in auth && Supports(w, sa.vote, ra, ka, a) && sa.vote.validator == v;
    var sb :| sb in auth && Supports(w, sb.vote, rb, kb, b) && sb.vote.validator == v;
  }

  /** What a sound network knows about the messages of an honest validator. */
  lemma BothRecorded(w: World, s: Net, v: ValidatorId, a: Vote, b: Vote) returns (i: nat, j: nat)
    requires w.Valid() && NetSound(w, s) && w.Honest(v)
    requires a.validator == v && b.validator == v
    requires exists signed :: signed in s.auth && signed.vote == a
    requires exists signed :: signed in s.auth && signed.vote == b
    ensures v in s.nodes && i < |s.nodes[v].log| && j < |s.nodes[v].log|
    ensures s.nodes[v].log[i].message == VoteMessage(a) && s.nodes[v].log[j].message == VoteMessage(b)
    ensures LogSound(w, s.auth, v, s.nodes[v].log)
  {
    hide LogSound, Sound, DecidedIsCommitted;
    assert Recorded(s.nodes[v].log, VoteMessage(a));
    assert Recorded(s.nodes[v].log, VoteMessage(b));
    i :| 0 <= i < |s.nodes[v].log| && s.nodes[v].log[i].message == VoteMessage(a);
    j :| 0 <= j < |s.nodes[v].log| && s.nodes[v].log[j].message == VoteMessage(b);
    assert NodeSound(w, s.auth, v, s.nodes[v]);
  }

  /** At most one value is certified per round and kind. */
  lemma OneValuePerSlot(w: World, s: Net, round: nat, kind: VoteKind, a: VoteValue, b: VoteValue)
    requires w.Valid() && w.FaultsBounded() && NetSound(w, s)
    requires Certified(w, s.auth, round, kind, a) && Certified(w, s.auth, round, kind, b)
    ensures a == b
  {
    hide NetSound, Certified;
    var v := CommonSigner(w, s.auth, round, kind, a, round, kind, b);
    var va, vb := Vote(w.config.chainId, w.height, round, kind, v, a), Vote(w.config.chainId, w.height, round, kind, v, b);
    var i, j := BothRecorded(w, s, v, va, vb);
    var log := s.nodes[v].log;
    assert DistinctKeys(log) by { KeysDistinct(w, s.auth, v, log); }
    hide LogSound;
    assert log[i].message.Key() == log[j].message.Key();
    assert i == j;
  }

  lemma KeysDistinct(w: World, auth: Signatures, v: ValidatorId, log: seq<Decision>)
    requires |w.validators.validators| > 0 && LogSound(w, auth, v, log)
    ensures DistinctKeys(log)
  {
  }

  /** A committed block had a prevote quorum in the same round. */
  lemma CommitHasPolka(w: World, s: Net, round: nat, b: BlockId)
    requires w.Valid() && w.FaultsBounded() && NetSound(w, s)
    requires Committed(w, s.auth, round, b)
    ensures Polka(w, s.auth, round, b)
  {
    hide NetSound, Certified;
    var v := CommonSigner(w, s.auth, round, VoteKind.Precommit, Block(b), round, VoteKind.Precommit, Block(b));
    var vote := Vote(w.config.chainId, w.height, round, VoteKind.Precommit, v, Block(b));
    var i, j := BothRecorded(w, s, v, vote, vote);
    var log := s.nodes[v].log;
    assert PrecommitsJustified(w, s.auth, log);
    assert IsBlockPrecommit(log[i].message);
  }

  /**
   * Lock induction: once a block is committed at a round, no later round can show a prevote quorum
   * for another block.
   */
  lemma {:induction false} CommitLocksPrevotes(w: World, s: Net, round: nat, b: BlockId, later: nat, other: BlockId)
    requires w.Valid() && w.FaultsBounded() && NetSound(w, s)
    requires Committed(w, s.auth, round, b)
    requires round <= later && Polka(w, s.auth, later, other)
    ensures other == b
    decreases later
  {
    hide NetSound, Certified;
    if later == round {
      CommitHasPolka(w, s, round, b);
      OneValuePerSlot(w, s, round, VoteKind.Prevote, Block(b), Block(other));
    } else if other != b {
      var v := CommonSigner(w, s.auth, round, VoteKind.Precommit, Block(b), later, VoteKind.Prevote, Block(other));
      var precommit := Vote(w.config.chainId, w.height, round, VoteKind.Precommit, v, Block(b));
      var prevote := Vote(w.config.chainId, w.height, later, VoteKind.Prevote, v, Block(other));
      var i, j := BothRecorded(w, s, v, precommit, prevote);
      assert Justified(w, s.auth, precommit, prevote) by {
        JustifiedAt(w, s.auth, v, s.nodes[v].log, i, j);
      }
      var between :| round < between < later && Polka(w, s.auth, between, other);
      CommitLocksPrevotes(w, s, round, b, between, other);
      assert false;
    }
  }

  lemma JustifiedAt(w: World, auth: Signatures, v: ValidatorId, log: seq<Decision>, i: nat, j: nat)
    requires |w.validators.validators| > 0 && LogSound(w, auth, v, log)
    requires i < |log| && j < |log| && IsBlockPrecommit(log[i].message) && IsBlockPrevote(log[j].message)
    ensures Justified(w, auth, log[i].message.vote, log[j].message.vote)
  {
    assert PrevotesJustified(w, auth, log);
  }

  /** No two blocks are committed at one height, in the same or in different rounds. */
  lemma OneCommittedBlock(w: World, s: Net, ra: nat, a: BlockId, rb: nat, b: BlockId)
    requires w.Valid() && w.FaultsBounded() && NetSound(w, s)
    requires Committed(w, s.auth, ra, a) && Committed(w, s.auth, rb, b)
    ensures a == b
  {
    hide NetSound, Certified;
    CommitHasPolka(w, s, ra, a);
    CommitHasPolka(w, s, rb, b);
    if ra <= rb {
      CommitLocksPrevotes(w, s, ra, a, rb, b);
    } else {
      CommitLocksPrevotes(w, s, rb, b, ra, a);
    }
  }

  lemma CertificateCommits(w: World, auth: Signatures, c: CommitCertificate)
    requires CertificateValid(w, auth, c)
    ensures Committed(w, auth, c.round, c.blockId)
  {
    ProofCertifies(w, auth, c.precommits, c.round, VoteKind.Precommit, c.blockId);
  }

  /**
   * Agreement: in every run with at most floor((n-1)/3) Byzantine validators, all finalizations by
   * honest validators, at any time and in any of their lives, are for one block.
   */
  lemma AgreementHolds(w: World, states: seq<Net>, actions: seq<Action>, i: nat, j: nat, a: (ValidatorId, Finalization), b: (ValidatorId, Finalization))
    requires w.Valid() && w.FaultsBounded()
    requires Run(w, states, actions)
    requires i < |states| && a in states[i].decided
    requires j < |states| && b in states[j].decided
    ensures a.1.blockId == b.1.blockId
  {
    hide NetSound, Next, Init, CertificateValid, Committed;
    var k := if i <= j then j else i;
    RunSound(w, states, actions, k);
    DecidedForever(w, states, actions, i, k, a);
    DecidedForever(w, states, actions, j, k, b);
    DecidedCertificate(w, states[k], a);
    DecidedCertificate(w, states[k], b);
    CertificateCommits(w, states[k].auth, a.1.certificate);
    CertificateCommits(w, states[k].auth, b.1.certificate);
    OneCommittedBlock(w, states[k], a.1.certificate.round, a.1.blockId, b.1.certificate.round, b.1.blockId);
  }

  lemma DecidedCertificate(w: World, s: Net, d: (ValidatorId, Finalization))
    requires w.Valid() && NetSound(w, s) && d in s.decided
    ensures CertificateValid(w, s.auth, d.1.certificate) && d.1.blockId == d.1.certificate.blockId
  {
    hide NodeSound, SignedIsRecorded, CertificateValid;
  }

  lemma {:induction false} DecidedForever(w: World, states: seq<Net>, actions: seq<Action>, i: nat, k: nat, d: (ValidatorId, Finalization))
    requires w.Valid() && Run(w, states, actions)
    requires i <= k < |states| && d in states[i].decided
    ensures d in states[k].decided
    decreases k
  {
    if i < k {
      DecidedForever(w, states, actions, i, k - 1, d);
      assert Next(w, states[k - 1], actions[k - 1], states[k]);
      DecidedGrows(w, states[k - 1], actions[k - 1], states[k]);
    }
  }

  lemma DecidedGrows(w: World, s: Net, a: Action, s': Net)
    requires |w.validators.validators| > 0 && Next(w, s, a, s')
    ensures s.decided <= s'.decided
  {
    hide Step, Recover, PersistAll, Emitted, Authenticates;
  }

  /** So the engine's conflicting-commit alarm never fires in a run within the fault bound, whatever the event. */
  lemma NoConflictingCommit(w: World, s: Net, v: ValidatorId, event: Event, validator: MessageValidator)
    requires w.Valid() && w.FaultsBounded() && NetSound(w, s)
    requires v in s.nodes && s.nodes[v].engine.Some?
    requires Authenticates(validator, s.auth)
    ensures |s.nodes[v].engine.value.validators.validators| > 0
    ensures var o := Step(s.nodes[v].engine.value, event, validator);
      !(o.error.Some? && o.error.value.ConflictingCommit?)
  {
    var e, log := s.nodes[v].engine.value, s.nodes[v].log;
    assert NodeSound(w, s.auth, v, s.nodes[v]);
    hide NetSound, NodeSound, Sound, CertificateValid, Committed, Step, CertificateFault;
    HasValidators(w, s.auth, v, e, log);
    ConflictNeedsCertificate(w, s.auth, v, e, log, event, validator);
    if event.Certificate? {
      CertificateNeverConflicts(w, s, v, event.certificate, validator);
    }
  }

  lemma HasValidators(w: World, auth: Signatures, v: ValidatorId, e: Engine, log: seq<Decision>)
    requires w.Valid() && Sound(w, auth, v, e, log)
    ensures |e.validators.validators| > 0
  {
  }

  lemma CertificateNeverConflicts(w: World, s: Net, v: ValidatorId, c: CommitCertificate, validator: MessageValidator)
    requires w.Valid() && w.FaultsBounded() && NetSound(w, s)
    requires v in s.nodes && s.nodes[v].engine.Some? && |s.nodes[v].engine.value.validators.validators| > 0
    requires NodeSound(w, s.auth, v, s.nodes[v])
    requires Authenticates(validator, s.auth)
    ensures var o := Step(s.nodes[v].engine.value, Certificate(c), validator);
      !(o.error.Some? && o.error.value.ConflictingCommit?)
  {
    var e := s.nodes[v].engine.value;
    Parameters(w, s.auth, v, e, s.nodes[v].log);
    SoundParts(w, s.auth, v, e, s.nodes[v].log);
    CertificateAccepted(w, s.auth, e, c, validator);
    FirstFaultKind(e, c.precommits, |c.precommits|, c.round, VoteKind.Precommit, c.blockId, InvalidCertificate, validator);
    hide NetSound, NodeSound, Sound, CertificateValid, Committed;
    if CertificateFault(e, c, validator).None? && e.finalized.Some? {
      var known := e.finalized.value.certificate;
      CertificateCommits(w, s.auth, c);
      CertificateCommits(w, s.auth, known);
      OneCommittedBlock(w, s, c.round, c.blockId, known.round, known.blockId);
    }
  }
}
