/**
 * When a failing `step` is a no-op. Most errors are found before anything changes; the certificate
 * hook is the one check that comes after votes were cast, cached or acknowledged.
 */
module StepFailures {
  import opened Wrappers
  import opened Quorums
  import opened ConsensusTypes
  import opened EngineSpec
  import opened VoteCounting
  import opened Protocol
  import opened EngineInvariant
  import opened EngineSteps
  import opened Progress

  /** A round whose quorums a call looks at, and the votes cached when it does. */
  datatype Evaluation = Evaluation(round: nat, votes: map<VoteSlot, map<ValidatorId, SignedVote>>)

  /** What accepting a validated message leads to: the first proposal of the running round, or a first vote. */
  ghost function EvaluatedByMessage(e: Engine, message: SignedMessage): Option<Evaluation>
  {
    match message
    case SignedProposalMessage(p) =>
      var round := p.proposal.round;
      if Cacheable(e, round) && round !in e.proposals && round == e.round then Some(Evaluation(round, e.votes)) else None
    case SignedVoteMessage(s) =>
      var cached := SlotVotes(e, s.vote.round, s.vote.kind);
      if Cacheable(e, s.vote.round) && s.vote.validator !in cached
      then Some(Evaluation(s.vote.round, e.votes[VoteSlot(s.vote.round, s.vote.kind) := cached[s.vote.validator := s]]))
      else None
  }

  /** The evaluation that an event causes, read off the caches and the event before the call. */
  ghost function Evaluated(e: Engine, event: Event, validator: MessageValidator): Option<Evaluation>
    requires |e.validators.validators| > 0
  {
    if !e.started || e.finalized.Some? then None
    else match event
      case Message(message) =>
        if MessageFault(e, message, validator).None? then EvaluatedByMessage(e, message) else None
      case Persisted(message) =>
        var key := message.Signable().Key();
        if key in e.pendingPersistence && e.pendingPersistence[key] == message.Signable() && MessageFault(e, message, validator).None?
        then EvaluatedByMessage(e, message) else None
      case TimeoutEvent(timeout) =>
        if !TimeoutIsCurrent(e, timeout) then None
        else if e.phase == Propose || e.phase == Phase.Prevote then Some(Evaluation(e.round, e.votes))
        else if e.phase == Phase.Precommit && e.round + 1 < e.config.maxRoundsPerHeight && e.round + 1 in e.proposals
        then Some(Evaluation(e.round + 1, e.votes)) else None
      case _ => None
  }

  /** The evaluated round has a block precommit quorum, and the hook refuses the certificate built of it. */
  ghost predicate HookRefuses(e: Engine, evaluation: Evaluation, validator: MessageValidator)
  {
    match QuorumVotes(e.(votes := evaluation.votes), evaluation.round, VoteKind.Precommit)
    case Some((Block(blockId), precommits)) =>
      validator.validateCertificate(BuiltCertificate(e, evaluation.round, blockId, precommits)).Reject?
    case _ => false
  }

  ghost predicate FailsMidway(e: Engine, event: Event, validator: MessageValidator)
    requires |e.validators.validators| > 0
  {
    var evaluation := Evaluated(e, event, validator);
    evaluation.Some? && HookRefuses(e, evaluation.value, validator)
  }

  // ---------------------------------------------------------------- one evaluation

  /** What evaluation keeps of the engine. */
  ghost predicate SameFrame(e: Engine, o: Engine)
  {
    o.validators == e.validators && o.config == e.config && o.height == e.height && o.round == e.round
    && o.votes == e.votes && o.proposals == e.proposals && o.finalized == e.finalized
    && e.localDecisions.Keys <= o.localDecisions.Keys
  }

  lemma CastFrame(e: Engine, kind: VoteKind, value: VoteValue)
    ensures SameFrame(e, CastVote(e, kind, value).engine) && CastVote(e, kind, value).error.None?
    ensures VoteKey(e.round, kind) in CastVote(e, kind, value).engine.localDecisions
    ensures forall key :: key in e.pendingPersistence && key !in e.localDecisions ==> key in CastVote(e, kind, value).engine.pendingPersistence
  {
    hide CurrentTimeout, SafetyOf;
  }

  lemma PrevotesFrame(e: Engine, round: nat)
    ensures SameFrame(e, EvaluatePrevotes(e, round).engine) && EvaluatePrevotes(e, round).error.None?
  {
    hide QuorumVotes, CastVote;
    match QuorumVotes(e, round, VoteKind.Prevote)
    case None =>
    case Some((Nil, _)) => CastFrame(e, VoteKind.Precommit, Nil);
    case Some((Block(blockId), proof)) =>
      CastFrame(LockOn(AdoptValid(e, round, blockId, proof), blockId), VoteKind.Precommit, Block(blockId));
  }

  /** An evaluation before finalization fails exactly when the hook refuses, and with the hook's error. */
  lemma EvaluationFailsIff(e: Engine, round: nat, validator: MessageValidator)
    requires e.finalized.None?
    ensures var o := EvaluateRound(e, round, validator);
      && (o.error.Some? <==> HookRefuses(e, Evaluation(round, e.votes), validator))
      && (o.error.Some? ==> o.error.value.Validation? && SameFrame(e, o.engine))
      && e.localDecisions.Keys <= o.engine.localDecisions.Keys
      && o.engine.round == e.round && o.engine.votes == e.votes && o.engine.proposals == e.proposals
  {
    var first := EvaluatePrevotes(e, round);
    PrevotesFrame(e, round);
    SameVotesSameQuorum(e.(votes := e.votes), first.engine, round, VoteKind.Precommit);
    hide QuorumVotes, EvaluatePrevotes;
    assert e.(votes := e.votes) == e;
  }

  /** The hook is asked about the votes of one slot, so only they and the parameters matter. */
  lemma SameRefusal(a: Engine, x: Evaluation, b: Engine, y: Evaluation, validator: MessageValidator)
    requires a.validators == b.validators && a.config == b.config && a.height == b.height && x.round == y.round
    requires SlotVotes(a.(votes := x.votes), x.round, VoteKind.Precommit) == SlotVotes(b.(votes := y.votes), y.round, VoteKind.Precommit)
    ensures HookRefuses(a, x, validator) == HookRefuses(b, y, validator)
  {
    hide SlotVotes, QuorumVotes;
    SameSlotSameQuorum(a.(votes := x.votes), b.(votes := y.votes), x.round, VoteKind.Precommit);
  }

  // ---------------------------------------------------------------- events

  lemma ActivationFailsIff(e: Engine, validator: MessageValidator)
    requires e.finalized.None?
    ensures var o := ActivateCurrentRound(e, validator);
      && (o.error.Some? <==> HookRefuses(e, Evaluation(e.round, e.votes), validator))
      && (o.error.Some? ==> o.error.value.Validation? && o.engine.finalized.None?)
      && o.engine.round == e.round && o.engine.votes == e.votes && o.engine.proposals == e.proposals
  {
    var first := PrevoteProposal(e);
    assert SameFrame(e, first.engine) by {
      hide CastVote, PrevoteFor;
      if e.phase == Propose && e.round in e.proposals {
        CastFrame(e, VoteKind.Prevote, PrevoteFor(e, e.proposals[e.round].proposal));
      }
    }
    hide EvaluateRound, PrevoteProposal, HookRefuses;
    EvaluationFailsIff(first.engine, first.engine.round, validator);
    SameRefusal(e, Evaluation(e.round, e.votes), first.engine, Evaluation(e.round, first.engine.votes), validator);
  }

  lemma AcceptFailsIff(e: Engine, message: SignedMessage, validator: MessageValidator)
    requires e.finalized.None?
    ensures var o := AcceptMessage(e, message, validator);
      var evaluation := EvaluatedByMessage(e, message);
      && (o.error.Some? <==> evaluation.Some? && HookRefuses(e, evaluation.value, validator))
      && (o.error.Some? ==>
            o.error.value.Validation? && o.engine.finalized.None? && (o.engine.votes != e.votes || o.engine.proposals != e.proposals))
  {
    hide HookRefuses, ActivateCurrentRound, EvaluateRound, Cacheable;
    match message
    case SignedProposalMessage(p) =>
      var round := p.proposal.round;
      if Cacheable(e, round) && round !in e.proposals {
        var cached := e.(proposals := e.proposals[round := p]);
        ActivationFailsIff(cached, validator);
        SameRefusal(e, Evaluation(e.round, e.votes), cached, Evaluation(e.round, cached.votes), validator);
        assert round in cached.proposals;
      }
    case SignedVoteMessage(s) =>
      var slot, earlier := VoteSlot(s.vote.round, s.vote.kind), SlotVotes(e, s.vote.round, s.vote.kind);
      if Cacheable(e, s.vote.round) && s.vote.validator !in earlier {
        var counted := e.(votes := e.votes[slot := earlier[s.vote.validator := s]]);
        EvaluationFailsIff(counted, s.vote.round, validator);
        SameRefusal(e, Evaluation(s.vote.round, counted.votes), counted, Evaluation(s.vote.round, counted.votes), validator);
        assert s.vote.validator in counted.votes[slot];
      }
  }

  lemma AcknowledgeFailsIff(e: Engine, message: SignedMessage, validator: MessageValidator)
    requires |e.validators.validators| > 0 && e.started && e.finalized.None?
    ensures var o := AcknowledgePersisted(e, message, validator);
      && (o.error.Some? && o.engine != e <==> FailsMidway(e, Persisted(message), validator))
      && (FailsMidway(e, Persisted(message), validator) ==> o.error.Some? && o.error.value.Validation?)
  {
    hide HookRefuses, AcceptMessage, MessageFault, EvaluatedByMessage;
    var key := message.Signable().Key();
    if key in e.pendingPersistence && e.pendingPersistence[key] == message.Signable() && MessageFault(e, message, validator).None? {
      var acknowledged := e.(pendingPersistence := e.pendingPersistence - {key});
      AcceptFailsIff(acknowledged, message, validator);
      SameEvaluation(e, acknowledged, message);
      var evaluation := EvaluatedByMessage(e, message);
      if evaluation.Some? {
        SameRefusal(e, evaluation.value, acknowledged, evaluation.value, validator);
      }
    }
  }

  lemma SameEvaluation(a: Engine, b: Engine, message: SignedMessage)
    requires b == a.(pendingPersistence := b.pendingPersistence)
    ensures EvaluatedByMessage(a, message) == EvaluatedByMessage(b, message)
  {
  }

  lemma TimedVoteFailsIff(e: Engine, kind: VoteKind, validator: MessageValidator)
    requires e.finalized.None? && VoteKey(e.round, kind) !in e.localDecisions
    ensures var first := CastVote(e, kind, Nil);
      var o := Chain(first, EvaluateRound(first.engine, first.engine.round, validator));
      && (o.error.Some? <==> HookRefuses(e, Evaluation(e.round, e.votes), validator))
      && (o.error.Some? ==> o.error.value.Validation?)
      && o.engine != e
  {
    hide HookRefuses, EvaluateRound, CastVote;
    var first := CastVote(e, kind, Nil);
    CastFrame(e, kind, Nil);
    EvaluationFailsIff(first.engine, first.engine.round, validator);
    SameRefusal(e, Evaluation(e.round, e.votes), first.engine, Evaluation(e.round, first.engine.votes), validator);
  }

  lemma PrunedSlot(e: Engine, round: nat)
    requires round <= U32_MAX
    ensures var entered := PruneCaches(e.(round := round, phase := Propose));
      && (round in entered.proposals <==> round in e.proposals)
      && SlotVotes(entered, round, VoteKind.Precommit) == SlotVotes(e, round, VoteKind.Precommit)
      && entered.validators == e.validators && entered.config == e.config && entered.height == e.height
      && entered.finalized == e.finalized && entered.round == round
  {
    var moved := e.(round := round, phase := Propose);
    assert Cacheable(moved, round);
  }

  lemma NextRoundFailsIff(e: Engine, validator: MessageValidator)
    requires |e.validators.validators| > 0 && e.finalized.None? && e.round < e.config.maxRoundsPerHeight <= U32_MAX
    ensures var o := EnterRound(e, e.round + 1, validator);
      var evaluated := e.round + 1 < e.config.maxRoundsPerHeight && e.round + 1 in e.proposals;
      && (o.error.Some? && o.engine != e <==> evaluated && HookRefuses(e, Evaluation(e.round + 1, e.votes), validator))
      && (o.error.Some? && o.engine != e ==> o.error.value.Validation?)
  {
    hide HookRefuses, ActivateCurrentRound, PruneCaches, CurrentTimeout;
    var round := e.round + 1;
    if round < e.config.maxRoundsPerHeight {
      var entered := PruneCaches(e.(round := round, phase := Propose));
      PrunedSlot(e, round);
      ActivationFailsIff(entered, validator);
      assert entered.(votes := entered.votes) == entered && e.(votes := e.votes) == e;
      SameRefusal(e, Evaluation(round, e.votes), entered, Evaluation(round, entered.votes), validator);
    }
  }

  lemma TimeoutFailsIff(e: Engine, timeout: Timeout, validator: MessageValidator)
    requires |e.validators.validators| > 0 && e.started && e.finalized.None? && e.phase != Finalized
    requires e.round < e.config.maxRoundsPerHeight <= U32_MAX
    requires e.phase == Propose ==> VoteKey(e.round, VoteKind.Prevote) !in e.localDecisions
    requires e.phase == Phase.Prevote ==> VoteKey(e.round, VoteKind.Precommit) !in e.localDecisions
    ensures var o := HandleTimeout(e, timeout, validator);
      && (o.error.Some? && o.engine != e <==> FailsMidway(e, TimeoutEvent(timeout), validator))
      && (FailsMidway(e, TimeoutEvent(timeout), validator) ==> o.error.Some? && o.error.value.Validation?)
  {
    hide HookRefuses, EvaluateRound, CastVote, EnterRound, TimeoutIsCurrent;
    if TimeoutIsCurrent(e, timeout) {
      match e.phase
      case Propose => TimedVoteFailsIff(e, VoteKind.Prevote, validator);
      case Prevote => TimedVoteFailsIff(e, VoteKind.Precommit, validator);
      case Precommit => NextRoundFailsIff(e, validator);
    }
  }

  /** A proposal that was requested always finds its slot free, and `Start` finds nothing to evaluate. */
  lemma FreshSlots(w: World, auth: Signatures, v: ValidatorId, e: Engine, log: seq<Decision>, height: nat, round: nat, b: BlockId)
    requires w.Valid() && Sound(w, auth, v, e, log)
    ensures var o := AcceptBuiltBlock(e, height, round, b); o.error.Some? ==> o.engine == e
  {
    hide SafetySound, VotesSound, ProposalsSound, LogSound, Linked, FinalizedSound, ValidCached, PhaseSound;
    assert RequestsSound(w, e);
  }

  lemma StartSucceeds(w: World, auth: Signatures, v: ValidatorId, e: Engine, log: seq<Decision>, validator: MessageValidator)
    requires w.Valid() && Sound(w, auth, v, e, log) && !e.started
    ensures EnterRound(e.(started := true), e.round, validator).error.None?
  {
    hide SafetySound, VotesSound, ProposalsSound, LogSound, Linked, FinalizedSound, ValidCached, ActivateCurrentRound, CurrentTimeout;
    Parameters(w, auth, v, e, log);
    assert PhaseSound(e);
  }

  /**
   * A failing call leaves the engine as it was, unless the call evaluates a round with a block
   * precommit quorum whose certificate the hook refuses. Then, and only then, it fails after it has
   * changed the engine, and the error is the hook's.
   */
  lemma FailureChangesEngineIff(
    w: World, auth: Signatures, v: ValidatorId, e: Engine, log: seq<Decision>, event: Event, validator: MessageValidator)
    requires w.Valid() && Sound(w, auth, v, e, log)
    requires |e.validators.validators| > 0
    ensures var o := Step(e, event, validator);
      && (o.error.Some? && o.engine != e <==> FailsMidway(e, event, validator))
      && (FailsMidway(e, event, validator) ==> o.error.Some? && o.error.value.Validation?)
  {
    hide HookRefuses, EnterRound, AcceptBuiltBlock, AcceptMessage, MessageFault, AcknowledgePersisted, HandleTimeout, CertificateFault,
         EvaluatedByMessage, TimeoutIsCurrent, Sound, World.Valid;
    LimitBelowWord(w);
    Parameters(w, auth, v, e, log);
    match event
    case Start => if !e.started { StartSucceeds(w, auth, v, e, log, validator); }
    case Certificate(c) =>
    case ProposalReady(height, round, blockId) => FreshSlots(w, auth, v, e, log, height, round, blockId);
    case Message(message) => if e.finalized.None? { AcceptFailsIff(e, message, validator); }
    case Persisted(message) => if e.started && e.finalized.None? { AcknowledgeFailsIff(e, message, validator); }
    case TimeoutEvent(timeout) =>
      if e.started && e.finalized.None? {
        FreeSlots(w, auth, v, e, log);
        TimeoutFailsIff(e, timeout, validator);
      }
  }

  /** So with a hook that refuses nothing, a failing call is always a no-op. */
  lemma WillingHookFailsCleanly(
    w: World, auth: Signatures, v: ValidatorId, e: Engine, log: seq<Decision>, event: Event, validator: MessageValidator)
    requires w.Valid() && Sound(w, auth, v, e, log) && |e.validators.validators| > 0
    requires forall c :: validator.validateCertificate(c).Accept?
    ensures var o := Step(e, event, validator); o.error.Some? ==> o.engine == e
  {
    hide Step, Sound, QuorumVotes, Evaluated;
    FailureChangesEngineIff(w, auth, v, e, log, event, validator);
  }

  // ---------------------------------------------------------------- conflicting commits

  lemma {:induction false} FirstFaultKind(
    e: Engine, proof: seq<SignedVote>, count: nat, round: nat, kind: VoteKind, b: BlockId,
    mismatch: ConsensusError, validator: MessageValidator)
    requires count <= |proof| && !mismatch.ConflictingCommit?
    ensures var fault := FirstFault(e, proof, count, round, kind, b, mismatch, validator);
      fault.Some? ==> !fault.value.ConflictingCommit?
    decreases count
  {
    if count > 0 {
      FirstFaultKind(e, proof, count - 1, round, kind, b, mismatch, validator);
    }
  }

  lemma ProposalFaultKind(e: Engine, signed: SignedProposal, validator: MessageValidator)
    requires |e.validators.validators| > 0
    ensures var fault := ProposalStructureFault(e, signed, validator); fault.Some? ==> !fault.value.ConflictingCommit?
  {
    var p := signed.proposal;
    if p.validRound.Some? {
      FirstFaultKind(e, p.validRoundProof, |p.validRoundProof|, p.validRound.value, VoteKind.Prevote, p.blockId, InvalidValidRoundProof, validator);
    }
    hide FirstFault;
  }

  lemma MessageFaultKind(e: Engine, message: SignedMessage, validator: MessageValidator)
    requires |e.validators.validators| > 0
    ensures var fault := MessageFault(e, message, validator); fault.Some? ==> !fault.value.ConflictingCommit?
  {
    hide ProposalStructureFault;
    if message.SignedProposalMessage? {
      ProposalFaultKind(e, message.signedProposal, validator);
    }
  }

  /** Only a received certificate can contradict a finalization. */
  lemma ConflictNeedsCertificate(
    w: World, auth: Signatures, v: ValidatorId, e: Engine, log: seq<Decision>, event: Event, validator: MessageValidator)
    requires w.Valid() && Sound(w, auth, v, e, log) && |e.validators.validators| > 0
    ensures var o := Step(e, event, validator); o.error.Some? && o.error.value.ConflictingCommit? ==> event.Certificate?
  {
    hide HookRefuses, EnterRound, AcceptMessage, MessageFault, HandleTimeout, CertificateFault, EvaluatedByMessage, TimeoutIsCurrent,
         Sound, World.Valid;
    LimitBelowWord(w);
    Parameters(w, auth, v, e, log);
    match event
    case Start => if !e.started { StartSucceeds(w, auth, v, e, log, validator); }
    case Certificate(c) =>
    case ProposalReady(height, round, blockId) =>
    case Message(message) =>
      MessageFaultKind(e, message, validator);
      if e.finalized.None? { AcceptFailsIff(e, message, validator); }
    case Persisted(message) =>
      MessageFaultKind(e, message, validator);
      if e.finalized.None? {
        AcceptFailsIff(e.(pendingPersistence := e.pendingPersistence - {message.Signable().Key()}), message, validator);
      }
    case TimeoutEvent(timeout) =>
      if e.started && e.finalized.None? {
        FreeSlots(w, auth, v, e, log);
        TimeoutErrorKind(e, timeout, validator);
      }
  }

  lemma TimeoutErrorKind(e: Engine, timeout: Timeout, validator: MessageValidator)
    requires |e.validators.validators| > 0 && e.finalized.None? && e.phase != Finalized
    requires e.round < e.config.maxRoundsPerHeight <= U32_MAX
    requires e.phase == Propose ==> VoteKey(e.round, VoteKind.Prevote) !in e.localDecisions
    requires e.phase == Phase.Prevote ==> VoteKey(e.round, VoteKind.Precommit) !in e.localDecisions
    ensures var o := HandleTimeout(e, timeout, validator); o.error.Some? ==> o.error.value.Validation? || o.error.value.RoundLimitReached?
  {
    hide HookRefuses, EvaluateRound, CastVote, TimeoutIsCurrent, ActivateCurrentRound, PruneCaches, CurrentTimeout;
    match e.phase
    case Propose => TimedVoteFailsIff(e, VoteKind.Prevote, validator);
    case Prevote => TimedVoteFailsIff(e, VoteKind.Precommit, validator);
    case Precommit =>
      var entered := PruneCaches(e.(round := e.round + 1, phase := Propose));
      PrunedSlot(e, e.round + 1);
      ActivationFailsIff(entered, validator);
  }
}
