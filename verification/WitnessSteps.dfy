/** A round in which a quorum votes for one block, one delivery and one engine at a time. */
module WitnessSteps {
  import opened Wrappers
  import opened Quorums
  import opened ConsensusTypes
  import opened EngineSpec
  import opened VoteCounting
  import opened ConsensusEngine
  import opened Protocol
  import opened EngineInvariant
  import opened EngineSteps
  import opened Network

  /** A quorum of exactly the required size that contains the honest proposer of round zero. */
  ghost predicate Setting(w: World, p: ValidatorId, quorum: set<ValidatorId>)
  {
    && w.Valid() && w.validators.Proposer(w.height, 0) == p && w.Honest(p)
    && p in quorum && quorum <= w.validators.Ids() && |quorum| == w.validators.Quorum()
  }

  /** Accepts exactly the signatures that exist and everything else. */
  function Accepting(auth: Signatures): MessageValidator
  {
    MessageValidator(_ => Accept, signed => if signed in auth then Accept else Reject(InvalidSignature), _ => Accept)
  }

  lemma AcceptingAuthenticates(auth: Signatures)
    ensures Authenticates(Accepting(auth), auth)
  {
  }

  // ---------------------------------------------------------------- the messages

  function TheProposal(w: World, p: ValidatorId, b: BlockId): Proposal
  {
    Proposal(w.config.chainId, w.height, 0, p, b, None, [])
  }

  function SignedTheProposal(w: World, p: ValidatorId, b: BlockId): SignedProposal
  {
    SignedProposal(TheProposal(w, p, b), [])
  }

  function VoteOf(w: World, u: ValidatorId, b: BlockId, kind: VoteKind): Vote
  {
    Vote(w.config.chainId, w.height, 0, kind, u, Block(b))
  }

  function SignedAs(w: World, u: ValidatorId, b: BlockId, kind: VoteKind): SignedVote
  {
    SignedVote(VoteOf(w, u, b, kind), [])
  }

  function VotesOf(w: World, b: BlockId, kind: VoteKind, ids: set<ValidatorId>): map<ValidatorId, SignedVote>
  {
    map u | u in ids :: SignedAs(w, u, b, kind)
  }

  function Slot(kind: VoteKind): VoteSlot { VoteSlot(0, kind) }

  /** A validator learns of its own vote through the store and of any other through the network. */
  function VoteEvent(w: World, u: ValidatorId, b: BlockId, kind: VoteKind, x: ValidatorId): Event
  {
    if x == u then Persisted(SignedVoteMessage(SignedAs(w, x, b, kind))) else Message(SignedVoteMessage(SignedAs(w, x, b, kind)))
  }

  // ---------------------------------------------------------------- engines along the way

  predicate Base(w: World, p: ValidatorId, b: BlockId, u: ValidatorId, e: Engine)
  {
    && e.localId == u && e.validators == w.validators && e.config == w.config && e.height == w.height
    && e.round == 0 && e.started && e.finalized.None?
    && e.proposals == map[0 := SignedTheProposal(w, p, b)]
  }

  function Pending(w: World, u: ValidatorId, b: BlockId, kind: VoteKind, counted: set<ValidatorId>): map<DecisionKey, SignableMessage>
  {
    if u in counted then map[] else map[VoteKey(0, kind) := VoteMessage(VoteOf(w, u, b, kind))]
  }

  function SlotOf(w: World, b: BlockId, kind: VoteKind, counted: set<ValidatorId>): map<VoteSlot, map<ValidatorId, SignedVote>>
  {
    if counted == {} then map[] else map[Slot(kind) := VotesOf(w, b, kind, counted)]
  }

  /** Has prevoted and counts prevotes. */
  predicate Prevoting(w: World, p: ValidatorId, b: BlockId, u: ValidatorId, counted: set<ValidatorId>, e: Engine)
  {
    && Base(w, p, b, u, e) && e.phase == Phase.Prevote && e.validRound.None?
    && e.votes == SlotOf(w, b, VoteKind.Prevote, counted)
    && e.pendingPersistence == Pending(w, u, b, VoteKind.Prevote, counted)
    && VoteKey(0, VoteKind.Precommit) !in e.localDecisions
  }

  /** Has seen the prevote quorum, has precommitted and counts precommits. */
  predicate Precommitting(w: World, p: ValidatorId, b: BlockId, u: ValidatorId, quorum: set<ValidatorId>, counted: set<ValidatorId>, e: Engine)
  {
    && Base(w, p, b, u, e) && e.phase == Phase.Precommit && e.validRound == Some(0)
    && e.votes == SlotOf(w, b, VoteKind.Prevote, quorum) + SlotOf(w, b, VoteKind.Precommit, counted)
    && e.pendingPersistence == Pending(w, u, b, VoteKind.Precommit, counted)
  }

  // ---------------------------------------------------------------- counting

  lemma ZeroIsCached(e: Engine)
    requires e.round == 0
    ensures Cacheable(e, 0)
  {
  }

  lemma VotersOfSet(w: World, b: BlockId, kind: VoteKind, ids: set<ValidatorId>, value: VoteValue)
    ensures Voters(VotesOf(w, b, kind, ids), value) == if value == Block(b) then ids else {}
  {
  }

  /** Votes of a set for one block have a quorum exactly when the set has its size. */
  lemma SetDecides(w: World, b: BlockId, kind: VoteKind, ids: set<ValidatorId>, e: Engine)
    requires |w.validators.validators| > 0 && e.validators == w.validators
    requires SlotVotes(e, 0, kind) == VotesOf(w, b, kind, ids)
    ensures |ids| < w.validators.Quorum() ==> QuorumVotes(e, 0, kind) == None
    ensures |ids| >= w.validators.Quorum() ==> QuorumVotes(e, 0, kind).Some? && QuorumVotes(e, 0, kind).value.0 == Block(b)
  {
    hide Voters, Select, SortedIds, SlotVotes;
    var votes := VotesOf(w, b, kind, ids);
    hide VotesOf;
    forall value ensures Voters(votes, value) == if value == Block(b) then ids else {} {
      VotersOfSet(w, b, kind, ids, value);
    }
    if |ids| < w.validators.Quorum() {
      NoQuorumFound(e, 0, kind);
    } else {
      assert IsQuorumValue(votes, Block(b), w.validators.Quorum());
      QuorumFound(e, 0, kind, Block(b));
    }
  }

  lemma VotePasses(w: World, b: BlockId, kind: VoteKind, x: ValidatorId, e: Engine, auth: Signatures)
    requires w.Valid() && e.validators == w.validators && e.config == w.config && e.height == w.height
    requires x in w.validators.validators && SignedAs(w, x, b, kind) in auth
    ensures MessageFault(e, SignedVoteMessage(SignedAs(w, x, b, kind)), Accepting(auth)).None?
  {
  }

  /** The engine with one more vote in a slot of round zero. */
  function Counted(w: World, u: ValidatorId, b: BlockId, kind: VoteKind, x: ValidatorId, e: Engine): Engine
  {
    var cached := if Slot(kind) in e.votes then e.votes[Slot(kind)] else map[];
    e.(pendingPersistence := if x == u then map[] else e.pendingPersistence,
       votes := e.votes[Slot(kind) := cached[x := SignedAs(w, x, b, kind)]])
  }

  /** A vote that arrives, by either way, is counted and the round evaluated. */
  lemma VoteArrives(w: World, u: ValidatorId, b: BlockId, kind: VoteKind, x: ValidatorId, e: Engine, auth: Signatures)
    requires w.Valid() && e.validators == w.validators && e.config == w.config && e.height == w.height
    requires e.round == 0 && e.started && e.finalized.None?
    requires x in w.validators.validators && SignedAs(w, x, b, kind) in auth && x !in SlotVotes(e, 0, kind)
    requires x == u ==> e.pendingPersistence == map[VoteKey(0, kind) := VoteMessage(VoteOf(w, u, b, kind))]
    ensures |e.validators.validators| > 0
    ensures var o := Step(e, VoteEvent(w, u, b, kind, x), Accepting(auth));
      var evaluated := EvaluateRound(Counted(w, u, b, kind, x, e), 0, Accepting(auth));
      o.engine == evaluated.engine && o.error == evaluated.error && Emitted(o.effects) == Emitted(evaluated.effects)
  {
    hide MessageFault, EvaluateRound, Emitted;
    VotePasses(w, b, kind, x, e, auth);
    ZeroIsCached(e);
    hide Cacheable, Accepting;
    if x == u {
      assert e.pendingPersistence - {VoteKey(0, kind)} == map[];
      var message := SignedVoteMessage(SignedAs(w, x, b, kind));
      var evaluated := EvaluateRound(Counted(w, u, b, kind, x, e), 0, Accepting(auth));
      EmittedOne(Broadcast(message));
      EmittedConcat([Broadcast(message)], evaluated.effects);
    }
  }

  // ---------------------------------------------------------------- evaluations

  lemma NothingDecided(e: Engine, validator: MessageValidator)
    requires QuorumVotes(e, 0, VoteKind.Prevote) == None && QuorumVotes(e, 0, VoteKind.Precommit) == None
    ensures EvaluateRound(e, 0, validator) == Unchanged(e)
  {
    hide QuorumVotes;
  }

  lemma LockAndCast(e: Engine, b: BlockId, proof: seq<SignedVote>)
    requires e.round == 0 && e.phase == Phase.Prevote && e.validRound.None?
    requires QuorumVotes(e, 0, VoteKind.Prevote) == Some((Block(b), proof)) && HasProposal(e, 0, b)
    ensures EvaluatePrevotes(e, 0)
      == CastVote(e.(validRound := Some(0), validBlock := Some(b), validProof := proof, lockedRound := Some(0), lockedBlock := Some(b)),
           VoteKind.Precommit, Block(b))
  {
    hide QuorumVotes, CastVote;
  }

  lemma NoPrecommitsYet(e: Engine, first: Outcome, validator: MessageValidator)
    requires EvaluatePrevotes(e, 0) == first && first.error.None?
    requires QuorumVotes(first.engine, 0, VoteKind.Precommit) == None
    ensures EvaluateRound(e, 0, validator) == first
  {
    hide EvaluatePrevotes, QuorumVotes;
    assert first.effects + [] == first.effects;
  }

  /** What a local vote adds to the engine and asks to be stored. */
  lemma Cast(e: Engine, kind: VoteKind, value: VoteValue)
    requires VoteKey(e.round, kind) !in e.localDecisions
    ensures var o := CastVote(e, kind, value);
      && o.error.None? && o.engine == Decide(e, LocalVote(e, kind, value)).(phase := PhaseAfter(kind))
      && Emitted(o.effects) == [Decision(LocalVote(e, kind, value), SafetyOf(e))]
  {
    hide CurrentTimeout;
    var o := CastVote(e, kind, value);
    assert o.effects == [o.effects[0]] + [o.effects[1]];
    EmittedConcat([o.effects[0]], [o.effects[1]]);
    EmittedOne(o.effects[0]);
    EmittedOne(o.effects[1]);
  }

  lemma NoMorePrevotes(e: Engine, b: BlockId)
    requires e.round == 0 && e.phase == Phase.Precommit && e.validRound == Some(0)
    requires QuorumVotes(e, 0, VoteKind.Prevote).Some? && QuorumVotes(e, 0, VoteKind.Prevote).value.0 == Block(b)
    ensures EvaluatePrevotes(e, 0) == Unchanged(e)
  {
    hide QuorumVotes, CastVote;
  }

  lemma CommitsNow(e: Engine, b: BlockId, auth: Signatures)
    requires e.finalized.None? && EvaluatePrevotes(e, 0) == Unchanged(e)
    requires QuorumVotes(e, 0, VoteKind.Precommit).Some? && QuorumVotes(e, 0, VoteKind.Precommit).value.0 == Block(b)
    ensures var o := EvaluateRound(e, 0, Accepting(auth));
      o.error.None? && o.engine.finalized.Some? && o.engine.finalized.value.blockId == b && Emitted(o.effects) == []
  {
    hide QuorumVotes, EvaluatePrevotes;
    var o := EvaluateRound(e, 0, Accepting(auth));
    assert |o.effects| == 1;
    EmittedOne(o.effects[0]);
    assert o.effects == [o.effects[0]];
  }

  // ---------------------------------------------------------------- steps of one engine

  lemma CountedVotes(w: World, u: ValidatorId, b: BlockId, x: ValidatorId, e: Engine, counted: set<ValidatorId>)
    requires e.votes == SlotOf(w, b, VoteKind.Prevote, counted)
    ensures var votes := Counted(w, u, b, VoteKind.Prevote, x, e).votes;
      && votes == SlotOf(w, b, VoteKind.Prevote, counted + {x})
      && Slot(VoteKind.Precommit) !in votes
      && Slot(VoteKind.Prevote) in votes && votes[Slot(VoteKind.Prevote)] == VotesOf(w, b, VoteKind.Prevote, counted + {x})
    ensures x !in counted ==> x !in SlotVotes(e, 0, VoteKind.Prevote)
  {
    var cached := if Slot(VoteKind.Prevote) in e.votes then e.votes[Slot(VoteKind.Prevote)] else map[];
    assert cached[x := SignedAs(w, x, b, VoteKind.Prevote)] == VotesOf(w, b, VoteKind.Prevote, counted + {x});
  }

  lemma OneMore(ids: set<ValidatorId>, x: ValidatorId)
    requires x !in ids
    ensures |ids + {x}| == |ids| + 1
  {
  }

  /** A prevote that does not complete the quorum changes nothing but the count. */
  lemma PrevoteCounted(
    w: World, p: ValidatorId, b: BlockId, u: ValidatorId, counted: set<ValidatorId>, x: ValidatorId, e: Engine, auth: Signatures)
    requires w.Valid() && Prevoting(w, p, b, u, counted, e) && x in w.validators.validators && x !in counted
    requires SignedAs(w, x, b, VoteKind.Prevote) in auth && (x == u || u in counted)
    requires |counted| + 1 < w.validators.Quorum()
    ensures |e.validators.validators| > 0
    ensures var o := Step(e, VoteEvent(w, u, b, VoteKind.Prevote, x), Accepting(auth));
      o.error.None? && Prevoting(w, p, b, u, counted + {x}, o.engine) && Emitted(o.effects) == []
  {
    hide Step, EvaluateRound, Emitted, QuorumVotes, SlotOf, Accepting;
    CountedVotes(w, u, b, x, e, counted);
    VoteArrives(w, u, b, VoteKind.Prevote, x, e, auth);
    var c := Counted(w, u, b, VoteKind.Prevote, x, e);
    OneMore(counted, x);
    SetDecides(w, b, VoteKind.Prevote, counted + {x}, c);
    NoVotesNoQuorum(c, 0, VoteKind.Precommit);
    NothingDecided(c, Accepting(auth));
    NoDecisions([]);
  }

  /** The prevote that completes the quorum makes the validator lock and precommit. */
  lemma PrevoteCompletes(
    w: World, p: ValidatorId, b: BlockId, u: ValidatorId, counted: set<ValidatorId>, x: ValidatorId, e: Engine, auth: Signatures)
    requires w.Valid() && Prevoting(w, p, b, u, counted, e) && x in w.validators.validators && x !in counted
    requires SignedAs(w, x, b, VoteKind.Prevote) in auth && (x == u || u in counted)
    requires |counted| + 1 == w.validators.Quorum()
    ensures |e.validators.validators| > 0
    ensures var o := Step(e, VoteEvent(w, u, b, VoteKind.Prevote, x), Accepting(auth));
      && o.error.None? && Precommitting(w, p, b, u, counted + {x}, {}, o.engine)
      && |Emitted(o.effects)| == 1 && Emitted(o.effects)[0].message == VoteMessage(VoteOf(w, u, b, VoteKind.Precommit))
  {
    hide Step, EvaluateRound, EvaluatePrevotes, Emitted, QuorumVotes, CastVote, SlotOf, Accepting, SafetyOf;
    CountedVotes(w, u, b, x, e, counted);
    VoteArrives(w, u, b, VoteKind.Prevote, x, e, auth);
    var c := Counted(w, u, b, VoteKind.Prevote, x, e);
    OneMore(counted, x);
    SetDecides(w, b, VoteKind.Prevote, counted + {x}, c);
    var proof := QuorumVotes(c, 0, VoteKind.Prevote).value.1;
    LockAndCast(c, b, proof);
    var locked := c.(validRound := Some(0), validBlock := Some(b), validProof := proof, lockedRound := Some(0), lockedBlock := Some(b));
    Cast(locked, VoteKind.Precommit, Block(b));
    var cast := CastVote(locked, VoteKind.Precommit, Block(b));
    NoVotesNoQuorum(cast.engine, 0, VoteKind.Precommit);
    NoPrecommitsYet(c, cast, Accepting(auth));
    NoPrecommitSlot(w, b);
    assert cast.engine.votes == cast.engine.votes + map[];
  }

  lemma NoPrecommitSlot(w: World, b: BlockId)
    ensures SlotOf(w, b, VoteKind.Precommit, {}) == map[]
  {
  }

  lemma CountedPrecommits(
    w: World, u: ValidatorId, b: BlockId, x: ValidatorId, e: Engine, quorum: set<ValidatorId>, counted: set<ValidatorId>)
    requires quorum != {} && e.votes == SlotOf(w, b, VoteKind.Prevote, quorum) + SlotOf(w, b, VoteKind.Precommit, counted)
    ensures var votes := Counted(w, u, b, VoteKind.Precommit, x, e).votes;
      && votes == SlotOf(w, b, VoteKind.Prevote, quorum) + SlotOf(w, b, VoteKind.Precommit, counted + {x})
      && Slot(VoteKind.Prevote) in votes && votes[Slot(VoteKind.Prevote)] == VotesOf(w, b, VoteKind.Prevote, quorum)
      && Slot(VoteKind.Precommit) in votes && votes[Slot(VoteKind.Precommit)] == VotesOf(w, b, VoteKind.Precommit, counted + {x})
    ensures x !in counted ==> x !in SlotVotes(e, 0, VoteKind.Precommit)
  {
    var cached := if Slot(VoteKind.Precommit) in e.votes then e.votes[Slot(VoteKind.Precommit)] else map[];
    assert cached[x := SignedAs(w, x, b, VoteKind.Precommit)] == VotesOf(w, b, VoteKind.Precommit, counted + {x});
  }

  /** The engine that has counted one more precommit still finds its prevote quorum, and does nothing about it. */
  lemma PrecommitCount(
    w: World, p: ValidatorId, b: BlockId, u: ValidatorId, quorum: set<ValidatorId>, counted: set<ValidatorId>, x: ValidatorId, e: Engine)
    requires w.Valid() && Precommitting(w, p, b, u, quorum, counted, e) && x !in counted
    requires |quorum| == w.validators.Quorum() > 0
    ensures x !in SlotVotes(e, 0, VoteKind.Precommit)
    ensures var c := Counted(w, u, b, VoteKind.Precommit, x, e);
      && EvaluatePrevotes(c, 0) == Unchanged(c)
      && c.votes == SlotOf(w, b, VoteKind.Prevote, quorum) + SlotOf(w, b, VoteKind.Precommit, counted + {x})
      && (|counted| + 1 < w.validators.Quorum() ==> QuorumVotes(c, 0, VoteKind.Precommit) == None)
      && (|counted| + 1 == w.validators.Quorum() ==>
            QuorumVotes(c, 0, VoteKind.Precommit).Some? && QuorumVotes(c, 0, VoteKind.Precommit).value.0 == Block(b))
  {
    hide EvaluatePrevotes, QuorumVotes, SlotOf;
    assert quorum != {};
    CountedPrecommits(w, u, b, x, e, quorum, counted);
    var c := Counted(w, u, b, VoteKind.Precommit, x, e);
    OneMore(counted, x);
    SetDecides(w, b, VoteKind.Prevote, quorum, c);
    SetDecides(w, b, VoteKind.Precommit, counted + {x}, c);
    NoMorePrevotes(c, b);
  }

  lemma PrecommitCounted(
    w: World, p: ValidatorId, b: BlockId, u: ValidatorId, quorum: set<ValidatorId>, counted: set<ValidatorId>, x: ValidatorId,
    e: Engine, auth: Signatures)
    requires w.Valid() && Precommitting(w, p, b, u, quorum, counted, e) && x in w.validators.validators && x !in counted
    requires |quorum| == w.validators.Quorum() > 0
    requires SignedAs(w, x, b, VoteKind.Precommit) in auth && (x == u || u in counted)
    requires |counted| + 1 < w.validators.Quorum()
    ensures |e.validators.validators| > 0
    ensures var o := Step(e, VoteEvent(w, u, b, VoteKind.Precommit, x), Accepting(auth));
      o.error.None? && Precommitting(w, p, b, u, quorum, counted + {x}, o.engine) && Emitted(o.effects) == []
  {
    hide Step, EvaluateRound, EvaluatePrevotes, Emitted, QuorumVotes, SlotOf, Accepting;
    PrecommitCount(w, p, b, u, quorum, counted, x, e);
    VoteArrives(w, u, b, VoteKind.Precommit, x, e, auth);
    var c := Counted(w, u, b, VoteKind.Precommit, x, e);
    NoPrecommitsYet(c, Unchanged(c), Accepting(auth));
    NoDecisions([]);
  }

  /** The precommit that completes the quorum finalizes the block. */
  lemma PrecommitCompletes(
    w: World, p: ValidatorId, b: BlockId, u: ValidatorId, quorum: set<ValidatorId>, counted: set<ValidatorId>, x: ValidatorId,
    e: Engine, auth: Signatures)
    requires w.Valid() && Precommitting(w, p, b, u, quorum, counted, e) && x in w.validators.validators && x !in counted
    requires |quorum| == w.validators.Quorum() > 0
    requires SignedAs(w, x, b, VoteKind.Precommit) in auth && (x == u || u in counted)
    requires |counted| + 1 == w.validators.Quorum()
    ensures |e.validators.validators| > 0
    ensures var o := Step(e, VoteEvent(w, u, b, VoteKind.Precommit, x), Accepting(auth));
      o.error.None? && o.engine.finalized.Some? && o.engine.finalized.value.blockId == b && Emitted(o.effects) == []
  {
    hide Step, EvaluateRound, EvaluatePrevotes, Emitted, QuorumVotes, SlotOf, Accepting;
    PrecommitCount(w, p, b, u, quorum, counted, x, e);
    VoteArrives(w, u, b, VoteKind.Precommit, x, e, auth);
    CommitsNow(Counted(w, u, b, VoteKind.Precommit, x, e), b, auth);
  }

  // ---------------------------------------------------------------- the first round begins

  function Begun(w: World, p: ValidatorId, u: ValidatorId): Engine
  {
    FreshEngine(u, w.validators, w.height, w.config).(started := true, requestedProposals := if u == p then {0} else {})
  }

  lemma StartBegins(w: World, p: ValidatorId, u: ValidatorId, validator: MessageValidator)
    requires w.Valid() && w.validators.Proposer(w.height, 0) == p
    ensures var e := FreshEngine(u, w.validators, w.height, w.config);
      var o := Step(e, Start, validator);
      o.error.None? && o.engine == Begun(w, p, u) && Emitted(o.effects) == []
  {
    hide ActivateCurrentRound, CurrentTimeout;
    var e := FreshEngine(u, w.validators, w.height, w.config).(started := true);
    assert PruneCaches(e) == e;
    NoDecisions(Step(FreshEngine(u, w.validators, w.height, w.config), Start, validator).effects);
  }

  /** Ready to prevote the proposal of round zero. */
  predicate Listening(w: World, p: ValidatorId, b: BlockId, u: ValidatorId, e: Engine)
  {
    && e.localId == u && e.validators == w.validators && e.config == w.config && e.height == w.height
    && e.round == 0 && e.started && e.finalized.None? && e.phase == Propose
    && e.proposals == map[] && e.votes == map[] && e.lockedRound.None? && e.lockedBlock.None? && e.validRound.None?
    && VoteKey(0, VoteKind.Prevote) !in e.localDecisions && VoteKey(0, VoteKind.Precommit) !in e.localDecisions
    && e.pendingPersistence == if u == p then map[ProposalKey(0) := ProposalMessage(TheProposal(w, p, b))] else map[]
  }

  lemma ProposerProposes(w: World, p: ValidatorId, b: BlockId, validator: MessageValidator)
    requires w.Valid()
    ensures |Begun(w, p, p).validators.validators| > 0
    ensures var o := Step(Begun(w, p, p), ProposalReady(w.height, 0, b), validator);
      && o.error.None? && Listening(w, p, b, p, o.engine)
      && |Emitted(o.effects)| == 1 && Emitted(o.effects)[0].message == ProposalMessage(TheProposal(w, p, b))
  {
    var o := Step(Begun(w, p, p), ProposalReady(w.height, 0, b), validator);
    EmittedOne(o.effects[0]);
    assert o.effects == [o.effects[0]];
  }

  function ProposalEvent(w: World, p: ValidatorId, b: BlockId, u: ValidatorId): Event
  {
    var message := SignedProposalMessage(SignedTheProposal(w, p, b));
    if u == p then Persisted(message) else Message(message)
  }

  lemma ProposalPasses(w: World, p: ValidatorId, b: BlockId, e: Engine, auth: Signatures)
    requires w.Valid() && w.validators.Proposer(w.height, 0) == p && p in w.validators.validators
    requires e.validators == w.validators && e.config == w.config && e.height == w.height
    ensures MessageFault(e, SignedProposalMessage(SignedTheProposal(w, p, b)), Accepting(auth)).None?
  {
  }

  lemma ProposalArrives(w: World, p: ValidatorId, b: BlockId, u: ValidatorId, e: Engine, auth: Signatures)
    requires w.Valid() && w.validators.Proposer(w.height, 0) == p && p in w.validators.validators && Listening(w, p, b, u, e)
    ensures |e.validators.validators| > 0
    ensures var o := Step(e, ProposalEvent(w, p, b, u), Accepting(auth));
      var cached := e.(pendingPersistence := map[], proposals := map[0 := SignedTheProposal(w, p, b)]);
      var activated := ActivateCurrentRound(cached, Accepting(auth));
      o.engine == activated.engine && o.error == activated.error && Emitted(o.effects) == Emitted(activated.effects)
  {
    hide MessageFault, ActivateCurrentRound, Emitted;
    ProposalPasses(w, p, b, e, auth);
    ZeroIsCached(e);
    hide Cacheable, Accepting;
    if u == p {
      assert e.pendingPersistence - {ProposalKey(0)} == map[];
      var message := SignedProposalMessage(SignedTheProposal(w, p, b));
      var cached := e.(pendingPersistence := map[], proposals := map[0 := SignedTheProposal(w, p, b)]);
      EmittedOne(Broadcast(message));
      EmittedConcat([Broadcast(message)], ActivateCurrentRound(cached, Accepting(auth)).effects);
    }
  }

  lemma TakesProposal(w: World, p: ValidatorId, b: BlockId, u: ValidatorId, e: Engine, auth: Signatures)
    requires w.Valid() && w.validators.Proposer(w.height, 0) == p && p in w.validators.validators && Listening(w, p, b, u, e)
    ensures |e.validators.validators| > 0
    ensures var o := Step(e, ProposalEvent(w, p, b, u), Accepting(auth));
      && o.error.None? && Prevoting(w, p, b, u, {}, o.engine)
      && |Emitted(o.effects)| == 1 && Emitted(o.effects)[0].message == VoteMessage(VoteOf(w, u, b, VoteKind.Prevote))
  {
    hide Step, Emitted, QuorumVotes, Accepting, EvaluateRound, EvaluatePrevotes;
    ProposalArrives(w, p, b, u, e, auth);
    var cached := e.(pendingPersistence := map[], proposals := map[0 := SignedTheProposal(w, p, b)]);
    Cast(cached, VoteKind.Prevote, Block(b));
    var cast := CastVote(cached, VoteKind.Prevote, Block(b));
    hide CastVote;
    NoVotesNoQuorum(cast.engine, 0, VoteKind.Prevote);
    NoVotesNoQuorum(cast.engine, 0, VoteKind.Precommit);
    NothingDecided(cast.engine, Accepting(auth));
    assert cast.effects + [] == cast.effects;
  }
}
