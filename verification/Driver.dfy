/**
 * The work loop around the engine (`process_consensus_event` and `sign_and_persist` in
 * `crates/kcoin-node/src/runtime.rs`): effects are carried out in order and answered with further
 * events until none is pending. Ed25519 signing is deterministic and a parameter, as is the block
 * builder. Proposal bytes, gossip and timers are not part of this model.
 */
module Driver {
  import opened Wrappers
  import opened ConsensusTypes
  import opened EngineSpec
  import opened Protocol
  import opened EngineInvariant
  import opened EngineSteps
  import opened ConsensusEngine
  import opened Storage

  // ---------------------------------------------------------------- open slots

  /** The local signer slots of the current round that are still undecided. */
  function OpenSlots(e: Engine): nat
  {
    (if ProposalKey(e.round) in e.localDecisions then 0 else 1)
    + (if VoteKey(e.round, VoteKind.Prevote) in e.localDecisions then 0 else 1)
    + (if VoteKey(e.round, VoteKind.Precommit) in e.localDecisions then 0 else 1)
  }

  /** Nothing in the list asks for a proposal or sends a message. */
  ghost predicate Internal(effects: seq<Effect>)
  {
    forall effect :: effect in effects ==> !effect.RequestProposal? && !effect.Broadcast?
  }

  /** The call stays in its round and pays for every decision with an open slot; it asks for and sends nothing. */
  ghost predicate Consumes(e: Engine, o: Outcome)
  {
    && o.engine.round == e.round
    && |Emitted(o.effects)| + OpenSlots(o.engine) <= OpenSlots(e)
    && Internal(o.effects)
  }

  lemma ConsumesChain(e: Engine, first: Outcome, second: Outcome)
    requires Consumes(e, first) && Consumes(first.engine, second)
    ensures Consumes(e, Chain(first, second))
  {
    hide OpenSlots, Emitted;
    EmittedConcat(first.effects, second.effects);
  }

  lemma QuietConsumes(e: Engine, o: Outcome)
    requires o.engine.round == e.round && o.engine.localDecisions == e.localDecisions
    requires |o.effects| <= 1 && forall i :: 0 <= i < |o.effects| ==> o.effects[i].Finalize? || o.effects[i].ReportEvidence?
    ensures Consumes(e, o)
  {
    if o.effects != [] {
      EmittedOne(o.effects[0]);
      assert o.effects == [o.effects[0]];
    }
  }

  // ---------------------------------------------------------------- what each part of a step consumes

  lemma CastConsumes(e: Engine, kind: VoteKind, value: VoteValue)
    ensures Consumes(e, CastVote(e, kind, value))
  {
    hide CurrentTimeout, SafetyOf, Emitted;
    var message := LocalVote(e, kind, value);
    if message.Key() in e.localDecisions {
      NothingConsumed(e);
    } else {
      var persist, schedule := PersistBeforeBroadcast(message, SafetyOf(e)), ScheduleTimeout(CurrentTimeout(e, PhaseAfter(kind)));
      EmittedConcat([persist], [schedule]);
      EmittedOne(persist);
      EmittedOne(schedule);
      assert [persist, schedule] == [persist] + [schedule];
    }
  }

  lemma NothingConsumed(e: Engine)
    ensures Consumes(e, Unchanged(e))
  {
  }

  lemma EvaluateConsumes(e: Engine, round: nat, validator: MessageValidator)
    ensures Consumes(e, EvaluateRound(e, round, validator))
  {
    var first := EvaluatePrevotes(e, round);
    PrevotesConsume(e, round);
    hide EvaluatePrevotes, Consumes, CastVote;
    PrecommitsConsume(first.engine, round, validator);
    ConsumesChain(e, first, EvaluatePrecommits(first.engine, round, validator));
  }

  lemma PrevotesConsume(e: Engine, round: nat)
    ensures Consumes(e, EvaluatePrevotes(e, round))
  {
    hide CastVote, QuorumVotes;
    match QuorumVotes(e, round, VoteKind.Prevote)
    case None =>
    case Some((Nil, _)) => CastConsumes(e, VoteKind.Precommit, Nil);
    case Some((Block(blockId), proof)) =>
      CastConsumes(LockOn(AdoptValid(e, round, blockId, proof), blockId), VoteKind.Precommit, Block(blockId));
  }

  lemma PrecommitsConsume(e: Engine, round: nat, validator: MessageValidator)
    ensures Consumes(e, EvaluatePrecommits(e, round, validator))
  {
    hide QuorumVotes, Consumes;
    QuietConsumes(e, EvaluatePrecommits(e, round, validator));
  }

  lemma ActivateConsumes(e: Engine, validator: MessageValidator)
    ensures Consumes(e, ActivateCurrentRound(e, validator))
  {
    var first := PrevoteProposal(e);
    assert Consumes(e, first) by {
      hide CastVote, PrevoteFor;
      if e.phase == Propose && e.round in e.proposals {
        CastConsumes(e, VoteKind.Prevote, PrevoteFor(e, e.proposals[e.round].proposal));
      }
    }
    hide Consumes, EvaluateRound, PrevoteProposal;
    EvaluateConsumes(first.engine, first.engine.round, validator);
    ConsumesChain(e, first, EvaluateRound(first.engine, first.engine.round, validator));
  }

  lemma AcceptConsumes(e: Engine, message: SignedMessage, validator: MessageValidator)
    ensures Consumes(e, AcceptMessage(e, message, validator))
  {
    hide ActivateCurrentRound, EvaluateRound, Cacheable;
    match message
    case SignedProposalMessage(p) =>
      var cached := e.(proposals := e.proposals[p.proposal.round := p]);
      ActivateConsumes(cached, validator);
      if AcceptProposal(e, p, validator).engine == e { QuietConsumesIfQuiet(e, AcceptProposal(e, p, validator)); }
    case SignedVoteMessage(v) =>
      var slot := VoteSlot(v.vote.round, v.vote.kind);
      var cached := e.(votes := e.votes[slot := SlotVotes(e, v.vote.round, v.vote.kind)[v.vote.validator := v]]);
      EvaluateConsumes(cached, v.vote.round, validator);
      if AcceptVote(e, v, validator).engine == e { QuietConsumesIfQuiet(e, AcceptVote(e, v, validator)); }
  }

  lemma QuietConsumesIfQuiet(e: Engine, o: Outcome)
    ensures o.engine == e && |o.effects| <= 1 && (forall i :: 0 <= i < |o.effects| ==> o.effects[i].ReportEvidence?) ==> Consumes(e, o)
  {
    if o.engine == e && |o.effects| <= 1 && (forall i :: 0 <= i < |o.effects| ==> o.effects[i].ReportEvidence?) {
      QuietConsumes(e, o);
    }
  }

  /** A vote or timeout in the current round. */
  lemma TimedVoteConsumes(e: Engine, kind: VoteKind, validator: MessageValidator)
    ensures var first := CastVote(e, kind, Nil);
      Consumes(e, Chain(first, EvaluateRound(first.engine, first.engine.round, validator)))
  {
    hide Consumes, EvaluateRound, CastVote;
    var first := CastVote(e, kind, Nil);
    CastConsumes(e, kind, Nil);
    EvaluateConsumes(first.engine, first.engine.round, validator);
    ConsumesChain(e, first, EvaluateRound(first.engine, first.engine.round, validator));
  }

  // ---------------------------------------------------------------- what each event may lead to

  /** The answer to an event: few decisions, requests only for the current round, broadcasts only of `sent`. */
  ghost predicate Answers(o: Outcome, slots: nat, sent: set<SignedMessage>)
  {
    && |Emitted(o.effects)| + OpenSlots(o.engine) <= slots
    && (forall effect :: effect in o.effects && effect.RequestProposal? ==> effect.round == o.engine.round)
    && (forall effect :: effect in o.effects && effect.Broadcast? ==> effect.signed in sent)
  }

  lemma ConsumesAnswers(e: Engine, o: Outcome)
    requires Consumes(e, o)
    ensures Answers(o, OpenSlots(e), {}) && o.engine.round == e.round && Internal(o.effects)
  {
  }

  lemma EnterRoundAnswers(e: Engine, round: nat, validator: MessageValidator)
    requires |e.validators.validators| > 0
    ensures Answers(EnterRound(e, round, validator), 3, {})
  {
    hide CurrentTimeout, ActivateCurrentRound, PruneCaches, Emitted, OpenSlots, Answers, Consumes;
    var entered := PruneCaches(e.(round := round, phase := Propose));
    var timeout := CurrentTimeout(entered, Propose);
    PrunedRound(e.(round := round, phase := Propose));
    LimitAnswers(e, round);
    OpeningAnswers(entered, timeout);
    ActivateConsumes(entered, validator);
    OpenedAnswers(entered, timeout, ActivateCurrentRound(entered, validator));
    RequestAnswers(entered, timeout, e.height, round, e.validBlock, e.validRound);
  }

  lemma LimitAnswers(e: Engine, round: nat)
    ensures Answers(Failed(e, RoundLimitReached(round)), 3, {})
  {
  }

  lemma OpeningAnswers(e: Engine, timeout: Timeout)
    ensures Answers(Outcome(e, [ScheduleTimeout(timeout)], None), 3, {})
  {
    EmittedOne(ScheduleTimeout(timeout));
  }

  lemma OpenedAnswers(e: Engine, timeout: Timeout, o: Outcome)
    requires Consumes(e, o)
    ensures Answers(Chain(Outcome(e, [ScheduleTimeout(timeout)], None), o), 3, {})
  {
    EmittedOne(ScheduleTimeout(timeout));
    EmittedConcat([ScheduleTimeout(timeout)], o.effects);
  }

  lemma RequestAnswers(e: Engine, timeout: Timeout, height: nat, round: nat, validBlock: Option<BlockId>, validRound: Option<nat>)
    requires e.round == round
    ensures Answers(
      Chain(
        Outcome(e, [ScheduleTimeout(timeout)], None),
        Outcome(e.(requestedProposals := e.requestedProposals + {round}), [RequestProposal(height, round, validBlock, validRound)], None)),
      3, {})
  {
    var request := RequestProposal(height, round, validBlock, validRound);
    EmittedOne(ScheduleTimeout(timeout));
    EmittedOne(request);
    EmittedConcat([ScheduleTimeout(timeout)], [request]);
  }

  lemma PrunedRound(e: Engine)
    ensures PruneCaches(e).round == e.round
  {
  }

  /** Acknowledging a decision may lead to further votes and sends exactly the acknowledged message. */
  lemma AcknowledgeAnswers(e: Engine, message: SignedMessage, validator: MessageValidator)
    requires |e.validators.validators| > 0
    ensures var o := AcknowledgePersisted(e, message, validator);
      Answers(o, OpenSlots(e), {message}) && o.engine.round == e.round && forall effect :: effect in o.effects ==> !effect.RequestProposal?
  {
    hide AcceptMessage, MessageFault;
    var key := message.Signable().Key();
    var acknowledged := e.(pendingPersistence := e.pendingPersistence - {key});
    AcceptConsumes(acknowledged, message, validator);
    EmittedOne(Broadcast(message));
    EmittedConcat([Broadcast(message)], AcceptMessage(acknowledged, message, validator).effects);
  }

  /** A built block for the current round is one decision. */
  lemma BuiltBlockAnswers(e: Engine, height: nat, round: nat, blockId: BlockId)
    ensures var o := AcceptBuiltBlock(e, height, round, blockId);
      && Answers(o, OpenSlots(e) + (if round == e.round then 0 else 1), {}) && o.engine.round == e.round && Internal(o.effects)
  {
    var o := AcceptBuiltBlock(e, height, round, blockId);
    if o.effects != [] {
      EmittedOne(o.effects[0]);
      assert o.effects == [o.effects[0]];
    }
  }

  /** An event that answers an effect keeps the round and is paid for by open slots. */
  lemma FollowUpAnswers(e: Engine, event: Event, validator: MessageValidator)
    requires |e.validators.validators| > 0
    requires event.Persisted? || (event.ProposalReady? && event.round == e.round)
    ensures var o := Step(e, event, validator);
      && Answers(o, OpenSlots(e), if event.Persisted? then {event.message} else {})
      && o.engine.round == e.round && forall effect :: effect in o.effects ==> !effect.RequestProposal?
  {
    hide AcknowledgePersisted, AcceptBuiltBlock, Answers;
    if !e.started || e.finalized.Some? {
      NothingAnswered(e, Step(e, event, validator));
    } else if event.Persisted? {
      AcknowledgeAnswers(e, event.message, validator);
    } else {
      BuiltBlockAnswers(e, event.height, event.round, event.blockId);
    }
  }

  lemma NothingAnswered(e: Engine, o: Outcome)
    ensures o.engine == e && o.effects == [] ==> Answers(o, OpenSlots(e), {}) && Answers(o, 3, {})
    ensures forall sent :: o.engine == e && o.effects == [] ==> Answers(o, OpenSlots(e), sent)
  {
  }

  lemma Widen(o: Outcome, slots: nat, sent: set<SignedMessage>)
    requires Answers(o, slots, sent) && slots <= 3
    ensures Answers(o, 3, sent)
  {
  }

  /** The events that start the loop ask for at most three decisions and send nothing themselves. */
  lemma FirstAnswers(e: Engine, event: Event, validator: MessageValidator)
    requires |e.validators.validators| > 0
    requires event.Start? || event.Message? || event.TimeoutEvent?
    ensures Answers(Step(e, event, validator), 3, {})
  {
    hide EnterRound, AcceptMessage, MessageFault, EvaluateRound, CastVote, CurrentTimeout, Answers, Consumes;
    var o := Step(e, event, validator);
    NothingAnswered(e, o);
    if event.Start? {
      EnterRoundAnswers(e.(started := true), e.round, validator);
    } else if event.Message? {
      AcceptConsumes(e, event.message, validator);
      ConsumesAnswers(e, AcceptMessage(e, event.message, validator));
      Widen(AcceptMessage(e, event.message, validator), OpenSlots(e), {});
    } else {
      TimedVoteConsumes(e, VoteKind.Prevote, validator);
      TimedVoteConsumes(e, VoteKind.Precommit, validator);
      EnterRoundAnswers(e, e.round + 1, validator);
      if e.started && e.finalized.None? && TimeoutIsCurrent(e, event.timeout) && (e.phase == Propose || e.phase == Phase.Prevote) {
        ConsumesAnswers(e, o);
        Widen(o, OpenSlots(e), {});
      }
    }
  }

  // ---------------------------------------------------------------- what to propose

  /** `Consensus::locked`, without the round. */
  function Locked(lockedRound: Option<nat>, lockedBlock: Option<BlockId>): Option<BlockId>
  {
    if lockedRound.Some? && lockedBlock.Some? then lockedBlock else None
  }

  /** `valid_block.or(locked_block)`. */
  function Or(first: Option<BlockId>, second: Option<BlockId>): Option<BlockId>
  {
    if first.Some? then first else second
  }

  /** The lock never decides what is reproposed: whoever is locked has a valid block, of the lock's round or later. */
  lemma LockHasValidBlock(w: World, auth: Signatures, v: ValidatorId, e: Engine, log: seq<Decision>)
    requires |w.validators.validators| > 0 && Sound(w, auth, v, e, log)
    ensures Or(e.validBlock, Locked(e.lockedRound, e.lockedBlock)) == e.validBlock
    ensures e.lockedRound.Some? ==> e.validRound.Some? && e.lockedRound.value <= e.validRound.value
  {
  }

  // ---------------------------------------------------------------- the loop

  datatype DriverError =
    | EngineFailed(reason: ConsensusError)
    | ForeignSigner
    | StoreRefused(cause: StorageError)
    | EngineReplaced

  /** The message and its signature are in the signer store. */
  ghost predicate Durable(rows: seq<SignerRow>, height: nat, message: SignedMessage)
  {
    exists i :: 0 <= i < |rows| && rows[i].height == height && rows[i].decision.message == message.Signable()
      && rows[i].signature == message.Signature()
  }

  function Signed(message: SignableMessage, signature: Signature): SignedMessage
  {
    match message
    case ProposalMessage(p) => SignedProposalMessage(SignedProposal(p, signature))
    case VoteMessage(v) => SignedVoteMessage(SignedVote(v, signature))
  }

  /** A pending event answers an effect of the current round, and what it acknowledges is durable. */
  ghost predicate FollowsUp(event: Event, round: nat, rows: seq<SignerRow>, height: nat)
  {
    || (event.ProposalReady? && event.round == round)
    || (event.Persisted? && Durable(rows, height, event.message))
  }

  lemma DurableStays(rows: seq<SignerRow>, more: seq<SignerRow>, height: nat, message: SignedMessage)
    requires rows <= more && Durable(rows, height, message)
    ensures Durable(more, height, message)
  {
    var i :| 0 <= i < |rows| && rows[i].height == height && rows[i].decision.message == message.Signable()
      && rows[i].signature == message.Signature();
    assert more[i] == rows[i];
  }

  /**
   * `sign_and_persist`: the signature that leaves is the durable one, and it leaves only after the
   * decision is in the store.
   */
  method SignAndPersist(store: Store, height: nat, localId: ValidatorId, decision: Decision, sign: SignableMessage -> Signature)
    returns (r: Result<SignedMessage, DriverError>)
    requires store.Valid()
    modifies store`signerState, store`consensusSafety
    ensures store.Valid() && old(store.signerState) <= store.signerState
    ensures r.Ok? ==> r.value.Signable() == decision.message && Durable(store.signerState, height, r.value)
    ensures |store.signerState| <= old(|store.signerState|) + 1
  {
    if decision.message.Signer() != localId {
      return Err(ForeignSigner);
    }
    var persisted := store.PersistConsensusDecision(height, decision, sign(decision.message));
    if persisted.Err? {
      return Err(StoreRefused(persisted.error));
    }
    var i :| 0 <= i < |store.signerState| && store.signerState[i] == SignerRow(height, decision, persisted.value);
    r := Ok(Signed(decision.message, persisted.value));
    assert store.signerState[i].signature == r.value.Signature();
  }

  /** What carrying out one list of effects leaves: follow-up events, messages sent, a finalization. */
  datatype Carried = Carried(pending: seq<Event>, broadcast: seq<SignedMessage>, finalized: Option<Finalization>)

  ghost predicate CarriedSound(done: Carried, effects: seq<Effect>, round: nat, rows: seq<SignerRow>, height: nat)
  {
    && (forall event :: event in done.pending ==> FollowsUp(event, round, rows, height))
    && (forall message :: message in done.broadcast ==> Durable(rows, height, message))
    && ((forall effect :: effect in effects ==> !effect.RequestProposal?) ==> |done.pending| <= |Emitted(effects)|)
  }

  /** What is already carried stays sound over later rows, and one more effect makes room for one more event. */
  lemma CarriedStays(done: Carried, effects: seq<Effect>, effect: Effect, round: nat, before: seq<SignerRow>, rows: seq<SignerRow>, height: nat)
    requires CarriedSound(done, effects, round, before, height) && before <= rows
    ensures forall event :: event in done.pending ==> FollowsUp(event, round, rows, height)
    ensures forall message :: message in done.broadcast ==> Durable(rows, height, message)
    ensures (forall x :: x in effects + [effect] ==> !x.RequestProposal?) ==>
      |done.pending| + (if effect.PersistBeforeBroadcast? then 1 else 0) <= |Emitted(effects + [effect])|
  {
    hide Durable, Emitted;
    EmittedConcat(effects, [effect]);
    EmittedOne(effect);
    StillFollowing(done.pending, round, before, rows, height);
    StillDurable(done.broadcast, before, rows, height);
    assert forall x :: x in effects ==> x in effects + [effect];
  }

  lemma CarriedMore(done: Carried, effects: seq<Effect>, effect: Effect, more: Carried, round: nat, before: seq<SignerRow>, rows: seq<SignerRow>, height: nat)
    requires CarriedSound(done, effects, round, before, height) && before <= rows
    requires more == done
      || (exists event :: more == done.(pending := done.pending + [event]) && FollowsUp(event, round, rows, height)
            && (effect.RequestProposal? || effect.PersistBeforeBroadcast?))
      || (exists message :: more == done.(broadcast := done.broadcast + [message]) && Durable(rows, height, message))
    ensures CarriedSound(more, effects + [effect], round, rows, height)
  {
    CarriedStays(done, effects, effect, round, before, rows, height);
    hide Durable, FollowsUp, Emitted;
    assert effect in effects + [effect];
  }

  method CarryOut(
    effects: seq<Effect>, ghost round: nat, ghost sent: set<SignedMessage>, store: Store, height: nat, localId: ValidatorId,
    locked: Option<BlockId>, sign: SignableMessage -> Signature, build: (nat, Option<BlockId>) -> BlockId)
    returns (done: Carried, error: Option<DriverError>)
    requires store.Valid()
    requires forall message :: message in sent ==> Durable(store.signerState, height, message)
    requires forall effect :: effect in effects && effect.RequestProposal? ==> effect.round == round
    requires forall effect :: effect in effects && effect.Broadcast? ==> effect.signed in sent
    modifies store`signerState, store`consensusSafety
    ensures store.Valid() && old(store.signerState) <= store.signerState
    ensures |store.signerState| <= old(|store.signerState|) + |Emitted(effects)|
    ensures forall message :: message in done.broadcast ==> Durable(store.signerState, height, message)
    ensures error.None? ==> CarriedSound(done, effects, round, store.signerState, height)
  {
    hide Emitted, Durable, SlotsDistinct;
    done := Carried([], [], None);
    error := None;
    NothingEmitted();
    for i := 0 to |effects|
      invariant store.Valid() && old(store.signerState) <= store.signerState
      invariant |store.signerState| <= old(|store.signerState|) + |Emitted(effects[..i])|
      invariant CarriedSound(done, effects[..i], round, store.signerState, height)
    {
      hide CarriedSound;
      var effect := effects[i];
      ghost var before, was := store.signerState, done;
      assert effects[..i + 1] == effects[..i] + [effect];
      EmittedSteps(effects, i);
      match effect {
        case RequestProposal(h, r, validBlock, _) =>
          done := done.(pending := done.pending + [ProposalReady(h, r, build(r, Or(validBlock, locked)))]);
        case PersistBeforeBroadcast(message, safety) =>
          var signed := SignAndPersist(store, height, localId, Decision(message, safety), sign);
          if signed.Err? {
            Broadcasts(was, effects[..i], round, before, store.signerState, height);
            return done, Some(signed.error);
          }
          done := done.(pending := done.pending + [Persisted(signed.value)]);
        case Broadcast(message) =>
          DurableStays(old(store.signerState), store.signerState, height, message);
          done := done.(broadcast := done.broadcast + [message]);
        case Finalize(finalization) =>
          FinalizedKeeps(done, Some(finalization), effects[..i], round, store.signerState, height);
          done := done.(finalized := Some(finalization));
          was := done;
        case _ =>
      }
      CarriedMore(was, effects[..i], effect, done, round, before, store.signerState, height);
    }
    assert effects[..|effects|] == effects;
  }

  lemma NothingEmitted()
    ensures Emitted([]) == []
  {
  }

  lemma EmittedSteps(effects: seq<Effect>, i: nat)
    requires i < |effects|
    ensures |Emitted(effects[..i + 1])| == |Emitted(effects[..i])| + if effects[i].PersistBeforeBroadcast? then 1 else 0
    ensures |Emitted(effects[..i + 1])| <= |Emitted(effects)|
  {
    assert effects[..i + 1] == effects[..i] + [effects[i]];
    assert effects == effects[..i + 1] + effects[i + 1..];
    EmittedConcat(effects[..i], [effects[i]]);
    EmittedOne(effects[i]);
    EmittedConcat(effects[..i + 1], effects[i + 1..]);
  }

  lemma Broadcasts(done: Carried, effects: seq<Effect>, round: nat, before: seq<SignerRow>, rows: seq<SignerRow>, height: nat)
    requires CarriedSound(done, effects, round, before, height) && before <= rows
    ensures forall message :: message in done.broadcast ==> Durable(rows, height, message)
  {
    forall message | message in done.broadcast ensures Durable(rows, height, message) {
      DurableStays(before, rows, height, message);
    }
  }

  lemma FinalizedKeeps(done: Carried, finalized: Option<Finalization>, effects: seq<Effect>, round: nat, rows: seq<SignerRow>, height: nat)
    requires CarriedSound(done, effects, round, rows, height)
    ensures CarriedSound(done.(finalized := finalized), effects, round, rows, height)
  {
  }

  lemma StillDurable(sent: seq<SignedMessage>, rows: seq<SignerRow>, more: seq<SignerRow>, height: nat)
    requires rows <= more && forall message :: message in sent ==> Durable(rows, height, message)
    ensures forall message :: message in sent ==> Durable(more, height, message)
  {
    forall message | message in sent ensures Durable(more, height, message) {
      DurableStays(rows, more, height, message);
    }
  }

  lemma StillFollowing(pending: seq<Event>, round: nat, rows: seq<SignerRow>, more: seq<SignerRow>, height: nat)
    requires rows <= more && forall event :: event in pending ==> FollowsUp(event, round, rows, height)
    ensures forall event :: event in pending ==> FollowsUp(event, round, more, height)
  {
    hide Durable;
    forall event | event in pending ensures FollowsUp(event, round, more, height) {
      if event.Persisted? && Durable(rows, height, event.message) {
        DurableStays(rows, more, height, event.message);
      }
    }
  }

  /**
   * `process_consensus_event`: the loop ends, because every further event pays with one of the three
   * signer slots of its round; it signs at most three messages; and all it broadcasts is durable,
   * under the very signature that is sent. After a finalization the engine is replaced by that of
   * the next height, so an event that is still pending then makes the call fail.
   */
  method ProcessConsensusEvent(
    engine: Consensus, store: Store, initial: Event, validator: MessageValidator,
    sign: SignableMessage -> Signature, build: (nat, Option<BlockId>) -> BlockId)
    returns (broadcast: seq<SignedMessage>, r: Result<Option<Finalization>, DriverError>)
    requires engine.Valid() && store.Valid()
    requires initial.Start? || initial.Message? || initial.TimeoutEvent?
    modifies engine, store`signerState, store`consensusSafety
    ensures engine.Valid() && store.Valid()
    ensures old(store.signerState) <= store.signerState && |store.signerState| <= old(|store.signerState|) + 3
    ensures forall message :: message in broadcast ==> Durable(store.signerState, engine.height, message)
  {
    hide Step, OpenSlots, Emitted, Durable, SlotsDistinct;
    var pending, first := [initial], true;
    broadcast := [];
    while pending != []
      invariant engine.Valid() && store.Valid()
      invariant old(store.signerState) <= store.signerState
      invariant first ==> pending == [initial] && store.signerState == old(store.signerState)
      invariant !first ==> |store.signerState| + OpenSlots(engine.View()) <= old(|store.signerState|) + 3
      invariant !first ==> forall event :: event in pending ==> FollowsUp(event, engine.round, store.signerState, engine.height)
      invariant forall message :: message in broadcast ==> Durable(store.signerState, engine.height, message)
      decreases if first then 1 else 0, 2 * OpenSlots(engine.View()) + |pending|
    {
      var event := pending[0];
      ghost var e, rows, earlier := engine.View(), store.signerState, broadcast;
      var reply := engine.Step(event, validator);
      ghost var sent := if !first && event.Persisted? then {event.message} else {};
      if first {
        FirstAnswers(e, event, validator);
      } else {
        assert event in pending;
        FollowUpAnswers(e, event, validator);
      }
      pending := pending[1..];
      if reply.Err? {
        return broadcast, Err(EngineFailed(reply.error));
      }
      assert reply.value == EngineSpec.Step(e, event, validator).effects;
      var done, error := CarryOut(reply.value, engine.round, sent, store, engine.height, engine.localId, Locked(engine.lockedRound, engine.lockedBlock), sign, build);
      StillDurable(earlier, rows, store.signerState, engine.height);
      broadcast := broadcast + done.broadcast;
      if error.Some? {
        return broadcast, Err(error.value);
      }
      StillFollowing(if first then [] else pending, engine.round, rows, store.signerState, engine.height);
      pending := pending + done.pending;
      if done.finalized.Some? {
        return broadcast, if pending == [] then Ok(done.finalized) else Err(EngineReplaced);
      }
      first := false;
    }
    return broadcast, Ok(None);
  }
}
