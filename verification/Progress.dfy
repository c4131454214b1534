/** Bounded memory and bounded waiting of one engine. */
module Progress {
  import opened Wrappers
  import opened Quorums
  import opened ConsensusTypes
  import opened EngineSpec
  import opened Protocol
  import opened EngineInvariant
  import opened EngineSteps

  // ---------------------------------------------------------------- what evaluation leaves alone

  /** Same parameters, round and caches; the phase only moves forward. */
  predicate Advances(e: Engine, o: Engine)
  {
    && o.validators == e.validators && o.config == e.config && o.height == e.height && o.localId == e.localId
    && o.round == e.round && o.started == e.started
    && o.proposals == e.proposals && o.votes == e.votes && o.requestedProposals == e.requestedProposals
    && PhaseRank(o.phase) >= PhaseRank(e.phase)
  }

  function PhaseRank(phase: Phase): nat
  {
    match phase
    case Propose => 0
    case Prevote => 1
    case Precommit => 2
    case Finalized => 3
  }

  lemma PrevotesAdvance(e: Engine, round: nat)
    ensures Advances(e, EvaluatePrevotes(e, round).engine)
  {
    hide QuorumVotes, CastVote, HasProposal;
    if e.phase == Phase.Prevote {
      VoteAdvances(e, VoteKind.Precommit, Nil);
      match QuorumVotes(e, round, VoteKind.Prevote)
      case Some((Block(b), proof)) => VoteAdvances(LockOn(AdoptValid(e, round, b, proof), b), VoteKind.Precommit, Block(b));
      case _ =>
    }
  }

  lemma VoteAdvances(e: Engine, kind: VoteKind, value: VoteValue)
    requires PhaseRank(e.phase) <= PhaseRank(PhaseAfter(kind))
    ensures Advances(e, CastVote(e, kind, value).engine)
  {
    hide SafetyOf, CurrentTimeout;
  }

  lemma PrecommitsAdvance(e: Engine, round: nat, validator: MessageValidator)
    ensures Advances(e, EvaluatePrecommits(e, round, validator).engine)
  {
    hide QuorumVotes;
  }

  lemma EvaluateAdvances(e: Engine, round: nat, validator: MessageValidator)
    ensures Advances(e, EvaluateRound(e, round, validator).engine)
  {
    PrevotesAdvance(e, round);
    PrecommitsAdvance(EvaluatePrevotes(e, round).engine, round, validator);
    hide EvaluatePrevotes, EvaluatePrecommits;
  }

  lemma ActivateAdvances(e: Engine, validator: MessageValidator)
    ensures Advances(e, ActivateCurrentRound(e, validator).engine)
  {
    hide EvaluateRound;
    var first := PrevoteProposal(e);
    assert Advances(e, first.engine);
    EvaluateAdvances(first.engine, first.engine.round, validator);
  }

  // ---------------------------------------------------------------- bounded caches

  /** From `Start` on, proposals and votes are cached for rounds inside the window only. */
  ghost predicate WindowHolds(e: Engine)
  {
    e.started ==>
      && (forall r :: r in e.proposals ==> Cacheable(e, r))
      && (forall slot :: slot in e.votes ==> Cacheable(e, slot.round))
  }

  lemma AdvancesWindow(e: Engine, o: Engine)
    requires WindowHolds(e)
    requires o.started == e.started && o.config == e.config && o.round == e.round && o.proposals == e.proposals && o.votes == e.votes
    ensures WindowHolds(o)
  {
  }

  lemma EnterRoundWindow(e: Engine, round: nat, validator: MessageValidator)
    requires |e.validators.validators| > 0 && round < e.config.maxRoundsPerHeight
    ensures WindowHolds(EnterRound(e, round, validator).engine)
    ensures EnterRound(e, round, validator).engine.round == round
  {
    hide ActivateCurrentRound;
    var entered := PruneCaches(e.(round := round, phase := Propose));
    assert WindowHolds(entered) by { hide Cacheable; PrunedCacheable(e.(round := round, phase := Propose)); }
    ActivateAdvances(entered, validator);
  }

  lemma PrunedCacheable(e: Engine)
    ensures forall r :: r in PruneCaches(e).proposals ==> Cacheable(PruneCaches(e), r)
    ensures forall slot :: slot in PruneCaches(e).votes ==> Cacheable(PruneCaches(e), slot.round)
  {
  }

  lemma AcceptWindow(e: Engine, message: SignedMessage, validator: MessageValidator)
    requires WindowHolds(e)
    ensures WindowHolds(AcceptMessage(e, message, validator).engine)
  {
    hide EvaluateRound, ActivateCurrentRound;
    match message
    case SignedProposalMessage(signed) =>
      var cached := e.(proposals := e.proposals[signed.proposal.round := signed]);
      ActivateAdvances(cached, validator);
    case SignedVoteMessage(signed) =>
      var slot := VoteSlot(signed.vote.round, signed.vote.kind);
      var cached := e.(votes := e.votes[slot := SlotVotes(e, signed.vote.round, signed.vote.kind)[signed.vote.validator := signed]]);
      EvaluateAdvances(cached, signed.vote.round, validator);
  }

  /** Every step keeps the caches inside the window, for any event and any validator verdicts. */
  lemma StepKeepsWindow(e: Engine, event: Event, validator: MessageValidator)
    requires |e.validators.validators| > 0
    requires WindowHolds(e) && (!e.started ==> e.proposals == map[] && e.votes == map[])
    ensures WindowHolds(Step(e, event, validator).engine)
  {
    hide EvaluateRound, EnterRound, AcceptMessage, MessageFault, CertificateFault, Cacheable, TimeoutIsCurrent;
    match event
    case Start =>
      if !e.started {
        if e.round < e.config.maxRoundsPerHeight {
          EnterRoundWindow(e.(started := true), e.round, validator);
        } else {
          RoundLimit(e.(started := true), e.round, validator);
        }
      }
    case Certificate(c) =>
      assert Advances(e, FinalizeWith(e, c).engine);
      AdvancesWindow(e, FinalizeWith(e, c).engine);
    case ProposalReady(height, round, b) => BuiltBlockWindow(e, height, round, b);
    case Message(message) => AcceptWindow(e, message, validator);
    case Persisted(message) =>
      var acknowledged := e.(pendingPersistence := e.pendingPersistence - {message.Signable().Key()});
      assert Advances(e, acknowledged);
      AdvancesWindow(e, acknowledged);
      AcceptWindow(acknowledged, message, validator);
    case TimeoutEvent(timeout) => TimeoutWindow(e, timeout, validator);
  }

  lemma BuiltBlockWindow(e: Engine, height: nat, round: nat, b: BlockId)
    requires WindowHolds(e)
    ensures WindowHolds(AcceptBuiltBlock(e, height, round, b).engine)
  {
  }

  lemma TimeoutWindow(e: Engine, timeout: Timeout, validator: MessageValidator)
    requires |e.validators.validators| > 0
    requires WindowHolds(e)
    ensures WindowHolds(HandleTimeout(e, timeout, validator).engine)
  {
    hide EvaluateRound, EnterRound, Cacheable, TimeoutIsCurrent, CastVote;
    CastAdvances(e, VoteKind.Prevote, Nil);
    CastAdvances(e, VoteKind.Precommit, Nil);
    EvaluateAdvances(CastVote(e, VoteKind.Prevote, Nil).engine, e.round, validator);
    EvaluateAdvances(CastVote(e, VoteKind.Precommit, Nil).engine, e.round, validator);
    AdvancesWindow(e, EvaluateRound(CastVote(e, VoteKind.Prevote, Nil).engine, e.round, validator).engine);
    AdvancesWindow(e, EvaluateRound(CastVote(e, VoteKind.Precommit, Nil).engine, e.round, validator).engine);
    if e.round + 1 < e.config.maxRoundsPerHeight {
      EnterRoundWindow(e, e.round + 1, validator);
    } else {
      RoundLimit(e, e.round + 1, validator);
    }
  }

  lemma CastAdvances(e: Engine, kind: VoteKind, value: VoteValue)
    ensures var o := CastVote(e, kind, value).engine;
      && o.validators == e.validators && o.config == e.config && o.round == e.round && o.started == e.started
      && o.proposals == e.proposals && o.votes == e.votes
  {
  }

  /** `cached_round_count`. */
  ghost function CachedRounds(e: Engine): set<nat>
  {
    e.proposals.Keys + set slot | slot in e.votes :: slot.round
  }

  lemma {:induction false} WindowSize(rounds: set<nat>, lo: nat, hi: nat)
    requires forall r :: r in rounds ==> lo <= r < hi
    ensures |rounds| <= if lo <= hi then hi - lo else 0
    decreases hi
  {
    if lo < hi {
      WindowSize(rounds - {hi - 1}, lo, hi - 1);
    } else {
      assert rounds == {};
    }
  }

  /** So the engine caches at most `max_cached_rounds + max_round_ahead` rounds. */
  lemma CachedRoundsBounded(e: Engine)
    requires WindowHolds(e) && e.started && e.config.maxCachedRounds > 0
    ensures |CachedRounds(e)| <= e.config.maxCachedRounds + e.config.maxRoundAhead
  {
    WindowSpan(e);
    hide OldestKept, NewestKept;
    WindowSize(CachedRounds(e), OldestKept(e), NewestKept(e) + 1);
  }

  lemma WindowSpan(e: Engine)
    requires e.config.maxCachedRounds > 0
    ensures NewestKept(e) + 1 <= OldestKept(e) + e.config.maxCachedRounds + e.config.maxRoundAhead
  {
    var kept, word := e.config.maxCachedRounds - 1, U32_MAX + 1;
    assert kept % word <= kept;
  }

  // ---------------------------------------------------------------- timeouts

  predicate After(e: Engine, o: Engine)
  {
    o.round > e.round || (o.round == e.round && PhaseRank(o.phase) > PhaseRank(e.phase))
  }

  /**
   * Progress: before finalization, a timeout that is not stale strictly raises (round, phase), also
   * when the certificate hook fails the call, or it reports the round limit and changes nothing.
   */
  lemma TimeoutProgresses(w: World, auth: Signatures, v: ValidatorId, e: Engine, log: seq<Decision>, timeout: Timeout, validator: MessageValidator)
    requires w.Valid()
    requires Sound(w, auth, v, e, log) && e.started && e.finalized.None?
    requires TimeoutIsCurrent(e, timeout)
    ensures var o := Step(e, TimeoutEvent(timeout), validator);
      || After(e, o.engine)
      || (o.error == Some(RoundLimitReached(e.round + 1)) && o.engine == e && e.round + 1 >= w.config.maxRoundsPerHeight)
  {
    hide Sound, EvaluateRound, TimeoutIsCurrent, EnterRound, CastVote, World.Valid, After, HandleTimeout;
    LimitBelowWord(w);
    Parameters(w, auth, v, e, log);
    FreeSlots(w, auth, v, e, log);
    CurrentTimeoutProgresses(e, timeout, validator);
  }

  lemma LimitBelowWord(w: World)
    requires w.Valid()
    ensures |w.validators.validators| > 0 && w.config.maxRoundsPerHeight <= U32_MAX
  {
  }

  lemma CurrentTimeoutProgresses(e: Engine, timeout: Timeout, validator: MessageValidator)
    requires |e.validators.validators| > 0 && e.phase != Finalized && TimeoutIsCurrent(e, timeout)
    requires e.round < e.config.maxRoundsPerHeight <= U32_MAX
    requires e.phase == Propose ==> VoteKey(e.round, VoteKind.Prevote) !in e.localDecisions
    requires e.phase == Phase.Prevote ==> VoteKey(e.round, VoteKind.Precommit) !in e.localDecisions
    ensures var o := HandleTimeout(e, timeout, validator);
      || After(e, o.engine)
      || (o.error == Some(RoundLimitReached(e.round + 1)) && o.engine == e && e.round + 1 >= e.config.maxRoundsPerHeight)
  {
    hide EvaluateRound, TimeoutIsCurrent, EnterRound, CastVote;
    if e.phase == Propose {
      NilVoteProgress(e, VoteKind.Prevote, validator);
    } else if e.phase == Phase.Prevote {
      NilVoteProgress(e, VoteKind.Precommit, validator);
    } else if e.round + 1 < e.config.maxRoundsPerHeight {
      EnterRoundWindow(e, e.round + 1, validator);
    } else {
      RoundLimit(e, e.round + 1, validator);
    }
  }

  lemma NilVoteProgress(e: Engine, kind: VoteKind, validator: MessageValidator)
    requires VoteKey(e.round, kind) !in e.localDecisions
    requires PhaseRank(e.phase) < PhaseRank(PhaseAfter(kind))
    ensures var first := CastVote(e, kind, Nil);
      After(e, Chain(first, EvaluateRound(first.engine, first.engine.round, validator)).engine)
  {
    var first := CastVote(e, kind, Nil);
    assert first.engine.phase == PhaseAfter(kind) && first.engine.round == e.round;
    hide EvaluateRound, CastVote;
    EvaluateAdvances(first.engine, e.round, validator);
  }

  lemma FreeSlots(w: World, auth: Signatures, v: ValidatorId, e: Engine, log: seq<Decision>)
    requires |w.validators.validators| > 0 && Sound(w, auth, v, e, log) && e.started && e.finalized.None?
    ensures e.phase == Propose ==> VoteKey(e.round, VoteKind.Prevote) !in e.localDecisions
    ensures e.phase == Phase.Prevote ==> VoteKey(e.round, VoteKind.Precommit) !in e.localDecisions
    ensures e.phase != Finalized
  {
  }
}
