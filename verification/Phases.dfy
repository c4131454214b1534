/**
 * When an engine is finalized but its phase does not say so. A certificate is accepted before
 * `Start`, and `Start` resets the phase: this is the only way, and it always has that effect.
 */
module Phases {
  import opened Wrappers
  import opened ConsensusTypes
  import opened EngineSpec
  import opened Protocol
  import opened EngineInvariant
  import opened StepFailures

  ghost predicate Split(e: Engine)
  {
    e.finalized.Some? && e.phase != Finalized
  }

  /** What holds of a fresh or restored engine, and from then on. */
  ghost predicate Regular(e: Engine)
  {
    && |e.validators.validators| > 0
    && (!e.started ==> e.proposals == map[] && e.round < e.config.maxRoundsPerHeight && !Split(e))
    && (e.phase == Finalized ==> e.finalized.Some?)
  }

  lemma FreshIsRegular(localId: ValidatorId, validators: ValidatorSet, height: nat, config: ConsensusConfig)
    requires |validators.validators| > 0
    ensures var made := NewEngine(localId, validators, height, config);
      made.Ok? ==> Regular(made.value) && made.value.finalized.None? && !made.value.started
  {
  }

  lemma RestoredIsRegular(
    localId: ValidatorId, validators: ValidatorSet, height: nat, config: ConsensusConfig, s: SafetyState, validator: MessageValidator)
    requires |validators.validators| > 0
    ensures var made := RestoreEngine(localId, validators, height, config, s, validator);
      made.Ok? ==> Regular(made.value) && made.value.finalized.None? && !made.value.started
  {
    hide ProofFault;
  }

  // ---------------------------------------------------------------- one step

  lemma CastStaysWhole(e: Engine, kind: VoteKind, value: VoteValue)
    requires e.finalized.None? && e.phase != Finalized
    ensures var o := CastVote(e, kind, value).engine;
      o.finalized.None? && o.phase != Finalized && o.started == e.started && o.validators == e.validators
  {
    hide CurrentTimeout, SafetyOf;
  }

  lemma PrevotesStayWhole(e: Engine, round: nat)
    requires e.finalized.None? && e.phase != Finalized
    ensures var o := EvaluatePrevotes(e, round).engine;
      o.finalized.None? && o.phase != Finalized && o.started == e.started && o.validators == e.validators
  {
    hide CastVote, QuorumVotes;
    match QuorumVotes(e, round, VoteKind.Prevote)
    case None =>
    case Some((Nil, _)) => CastStaysWhole(e, VoteKind.Precommit, Nil);
    case Some((Block(b), proof)) =>
      CastStaysWhole(LockOn(AdoptValid(e, round, b, proof), b), VoteKind.Precommit, Block(b));
  }

  lemma EvaluationStaysWhole(e: Engine, round: nat, validator: MessageValidator)
    requires e.finalized.None? && e.phase != Finalized
    ensures var o := EvaluateRound(e, round, validator).engine;
      (o.finalized.Some? <==> o.phase == Finalized) && o.started == e.started && o.validators == e.validators
  {
    hide EvaluatePrevotes, QuorumVotes;
    PrevotesStayWhole(e, round);
  }

  lemma ActivationStaysWhole(e: Engine, validator: MessageValidator)
    requires e.finalized.None? && e.phase != Finalized
    ensures var o := ActivateCurrentRound(e, validator).engine;
      (o.finalized.Some? <==> o.phase == Finalized) && o.started == e.started && o.validators == e.validators
  {
    hide CastVote, EvaluateRound, PrevoteFor;
    if e.phase == Propose && e.round in e.proposals {
      CastStaysWhole(e, VoteKind.Prevote, PrevoteFor(e, e.proposals[e.round].proposal));
    }
    var first := PrevoteProposal(e);
    EvaluationStaysWhole(first.engine, first.engine.round, validator);
  }

  lemma AcceptStaysWhole(e: Engine, message: SignedMessage, validator: MessageValidator)
    requires e.finalized.None? && e.phase != Finalized
    ensures var o := AcceptMessage(e, message, validator).engine;
      (o.finalized.Some? <==> o.phase == Finalized) && o.started == e.started && o.validators == e.validators
  {
    hide ActivateCurrentRound, EvaluateRound, Cacheable;
    match message
    case SignedProposalMessage(p) =>
      ActivationStaysWhole(e.(proposals := e.proposals[p.proposal.round := p]), validator);
    case SignedVoteMessage(s) =>
      var earlier := SlotVotes(e, s.vote.round, s.vote.kind);
      var slot := VoteSlot(s.vote.round, s.vote.kind);
      EvaluationStaysWhole(e.(votes := e.votes[slot := earlier[s.vote.validator := s]]), s.vote.round, validator);
  }

  lemma TimeoutStaysWhole(e: Engine, timeout: Timeout, validator: MessageValidator)
    requires |e.validators.validators| > 0 && e.finalized.None? && e.phase != Finalized
    ensures var o := HandleTimeout(e, timeout, validator).engine;
      (o.finalized.Some? <==> o.phase == Finalized) && o.started == e.started && o.validators == e.validators
  {
    hide CastVote, EvaluateRound, ActivateCurrentRound, PruneCaches, TimeoutIsCurrent, CurrentTimeout;
    CastStaysWhole(e, VoteKind.Prevote, Nil);
    CastStaysWhole(e, VoteKind.Precommit, Nil);
    EvaluationStaysWhole(CastVote(e, VoteKind.Prevote, Nil).engine, CastVote(e, VoteKind.Prevote, Nil).engine.round, validator);
    EvaluationStaysWhole(CastVote(e, VoteKind.Precommit, Nil).engine, CastVote(e, VoteKind.Precommit, Nil).engine.round, validator);
    var entered := PruneCaches(e.(round := e.round + 1, phase := Propose));
    PruneKeeps(e.(round := e.round + 1, phase := Propose));
    ActivationStaysWhole(entered, validator);
  }

  lemma PruneKeeps(e: Engine)
    ensures var o := PruneCaches(e);
      && o.finalized == e.finalized && o.phase == e.phase && o.started == e.started && o.validators == e.validators
      && o.config == e.config && o.round == e.round && o.proposals.Keys <= e.proposals.Keys
  {
  }

  lemma StartResetsPhase(e: Engine, validator: MessageValidator)
    requires Regular(e) && !e.started
    ensures var o := EnterRound(e.(started := true), e.round, validator);
      o.error.None? && o.engine.started && o.engine.phase == Propose && o.engine.finalized == e.finalized && o.engine.validators == e.validators
  {
    hide CurrentTimeout, PruneCaches, ActivateCurrentRound;
    PruneKeeps(e.(started := true, phase := Propose));
    assert e.(started := true).(round := e.round, phase := Propose) == e.(started := true, phase := Propose);
  }

  /** A step splits phase and finalization exactly when it is the `Start` of a finalized engine. */
  lemma SplitStepIff(e: Engine, event: Event, validator: MessageValidator)
    requires Regular(e)
    ensures var o := Step(e, event, validator).engine;
      && Regular(o)
      && (Split(o) <==> Split(e) || (event.Start? && !e.started && e.finalized.Some?))
      && (e.started ==> o.started) && (e.finalized.Some? ==> o.finalized == e.finalized)
      && (!e.started && e.finalized.None? && o.finalized.Some? ==> event.Certificate? && CertificateFault(e, event.certificate, validator).None?)
  {
    hide EnterRound, AcceptMessage, MessageFault, HandleTimeout, CertificateFault;
    match event
    case Start => if !e.started { StartResetsPhase(e, validator); }
    case Certificate(c) =>
    case ProposalReady(height, round, blockId) =>
    case Message(message) => if e.finalized.None? { AcceptStaysWhole(e, message, validator); }
    case Persisted(message) =>
      if e.finalized.None? {
        AcceptStaysWhole(e.(pendingPersistence := e.pendingPersistence - {message.Signable().Key()}), message, validator);
      }
    case TimeoutEvent(timeout) => if e.finalized.None? { TimeoutStaysWhole(e, timeout, validator); }
  }

  // ---------------------------------------------------------------- a whole life

  /** The states of one engine object, from construction on, under any events and hooks. */
  ghost predicate Life(engines: seq<Engine>, events: seq<Event>, hooks: seq<MessageValidator>)
  {
    && |engines| == |events| + 1 && |hooks| == |events|
    && Regular(engines[0]) && !engines[0].started && engines[0].finalized.None?
    && forall i :: 0 <= i < |events| ==>
         |engines[i].validators.validators| > 0 && engines[i + 1] == Step(engines[i], events[i], hooks[i]).engine
  }

  lemma {:induction false} LifeIsRegular(engines: seq<Engine>, events: seq<Event>, hooks: seq<MessageValidator>, n: nat)
    requires Life(engines, events, hooks) && n < |engines|
    ensures Regular(engines[n])
    decreases n
  {
    hide Step, Regular;
    if n > 0 {
      LifeIsRegular(engines, events, hooks, n - 1);
      StepIsRegular(engines[n - 1], events[n - 1], hooks[n - 1]);
    }
  }

  lemma StepIsRegular(e: Engine, event: Event, validator: MessageValidator)
    requires Regular(e)
    ensures |e.validators.validators| > 0 && Regular(Step(e, event, validator).engine)
  {
    hide Step;
    SplitStepIff(e, event, validator);
  }

  /** An engine that is finalized while unstarted accepted a certificate in that time. */
  lemma {:induction false} FinalizedBeforeStart(engines: seq<Engine>, events: seq<Event>, hooks: seq<MessageValidator>, n: nat)
    requires Life(engines, events, hooks) && n < |engines| && engines[n].finalized.Some? && !engines[n].started
    ensures exists i :: 0 <= i < n && events[i].Certificate? && CertificateFault(engines[i], events[i].certificate, hooks[i]).None?
    decreases n
  {
    hide Step, Regular, CertificateFault;
    LifeIsRegular(engines, events, hooks, n - 1);
    SplitStepIff(engines[n - 1], events[n - 1], hooks[n - 1]);
    if engines[n - 1].finalized.Some? {
      FinalizedBeforeStart(engines, events, hooks, n - 1);
    }
  }

  /**
   * "Finalized" and "in the finalized phase" come apart exactly in those lives in which `Start` was
   * called on an engine that had already accepted a certificate.
   */
  lemma {:induction false} SplitIffLateStart(engines: seq<Engine>, events: seq<Event>, hooks: seq<MessageValidator>, n: nat)
    requires Life(engines, events, hooks) && n < |engines|
    ensures Split(engines[n]) <==> exists j :: 0 <= j < n && events[j].Start? && !engines[j].started && engines[j].finalized.Some?
    decreases n
  {
    hide Step, CertificateFault;
    if n > 0 {
      SplitIffLateStart(engines, events, hooks, n - 1);
      LifeIsRegular(engines, events, hooks, n - 1);
      hide Regular, Split;
      SplitStepIff(engines[n - 1], events[n - 1], hooks[n - 1]);
    }
  }

  /** And each such life has that effect: accept a certificate, then start. */
  lemma LateStartSplits(e: Engine, c: CommitCertificate, validator: MessageValidator)
    requires Regular(e) && !e.started && e.finalized.None? && CertificateFault(e, c, validator).None?
    ensures var accepted := Step(e, Certificate(c), validator).engine;
      && |accepted.validators.validators| > 0
      && accepted.finalized.Some? && accepted.phase == Finalized
      && Split(Step(accepted, Start, validator).engine)
  {
    hide EnterRound, CertificateFault;
    SplitStepIff(e, Certificate(c), validator);
    var accepted := Step(e, Certificate(c), validator).engine;
    SplitStepIff(accepted, Start, validator);
  }
}
