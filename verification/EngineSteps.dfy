/** Every step of the engine keeps the validator invariant, with the decisions it emits made durable. */
module EngineSteps {
  import opened Wrappers
  import opened Quorums
  import opened ConsensusTypes
  import opened EngineSpec
  import opened VoteCounting
  import opened Protocol
  import opened EngineInvariant

  lemma EmittedOne(effect: Effect)
    ensures Emitted([effect]) == if effect.PersistBeforeBroadcast? then [Decision(effect.message, effect.safetyState)] else []
  {
    assert [effect][..0] == [];
  }

  lemma {:induction false} NoDecisions(effects: seq<Effect>)
    requires forall effect :: effect in effects ==> !effect.PersistBeforeBroadcast?
    ensures Emitted(effects) == []
    decreases |effects|
  {
    if effects != [] {
      NoDecisions(effects[..|effects| - 1]);
    }
  }

  /** The quorum of a slot depends on its cached votes and the validator set only. */
  lemma SameSlotSameQuorum(a: Engine, b: Engine, round: nat, kind: VoteKind)
    requires SlotVotes(a, round, kind) == SlotVotes(b, round, kind) && a.validators == b.validators
    ensures QuorumVotes(a, round, kind) == QuorumVotes(b, round, kind)
  {
    hide Select, SortedIds, Voters, HasQuorum, SlotVotes;
  }

  lemma SameVotesSameQuorum(a: Engine, b: Engine, round: nat, kind: VoteKind)
    requires a.votes == b.votes && a.validators == b.validators
    ensures QuorumVotes(a, round, kind) == QuorumVotes(b, round, kind)
  {
    hide QuorumVotes;
    SameSlotSameQuorum(a, b, round, kind);
  }

  /** Appending one decision to a sound log. */
  lemma LogGrows(w: World, auth: Signatures, v: ValidatorId, log: seq<Decision>, d: Decision)
    requires |w.validators.validators| > 0
    requires LogSound(w, auth, v, log)
    requires MessageFits(w, v, d.message) && d.message.Round() <= d.safety.round
    requires forall i :: 0 <= i < |log| ==> log[i].message.Key() != d.message.Key()
    requires forall i :: 0 <= i < |log| ==> log[i].safety.round <= d.safety.round
    requires SafetySound(w, auth, d.safety)
    requires forall i :: 0 <= i < |log| && IsBlockPrecommit(log[i].message) ==>
      LockCovers(d.safety, log[i].message.vote.round, log[i].message.vote.value.id)
    requires IsBlockPrecommit(d.message) ==>
      && LockCovers(d.safety, d.message.vote.round, d.message.vote.value.id)
      && Polka(w, auth, d.message.vote.round, d.message.vote.value.id)
      && forall j :: 0 <= j < |log| && IsBlockPrevote(log[j].message) ==> Justified(w, auth, d.message.vote, log[j].message.vote)
    requires IsBlockPrevote(d.message) ==>
      forall i :: 0 <= i < |log| && IsBlockPrecommit(log[i].message) ==> Justified(w, auth, log[i].message.vote, d.message.vote)
    ensures LogSound(w, auth, v, log + [d])
  {
    hide SafetySound, Polka, LockCovers, Justified, MessageFits;
    var grown := log + [d];
    assert forall i :: 0 <= i < |log| ==> grown[i] == log[i];
    assert EntriesFit(w, v, grown);
    assert DistinctKeys(grown);
    assert RoundsAscend(grown);
    assert SafetiesSound(w, auth, grown);
    assert PrecommitsLocked(grown);
    assert PrecommitsJustified(w, auth, grown);
    forall i, j | 0 <= i < |grown| && 0 <= j < |grown| && IsBlockPrecommit(grown[i].message) && IsBlockPrevote(grown[j].message)
      ensures Justified(w, auth, grown[i].message.vote, grown[j].message.vote)
    {
      assert !(i == |log| && j == |log|);
    }
  }

  /** What must hold when the engine casts a vote. */
  ghost predicate VoteAllowed(w: World, auth: Signatures, e: Engine, log: seq<Decision>, kind: VoteKind, value: VoteValue)
  {
    match (kind, value)
    case (_, Nil) => true
    case (Precommit, Block(b)) => e.lockedRound == Some(e.round) && e.lockedBlock == Some(b)
    case (Prevote, Block(b)) =>
      forall i :: 0 <= i < |log| && IsBlockPrecommit(log[i].message) ==>
        Justified(w, auth, log[i].message.vote, LocalVote(e, kind, value).vote)
  }

  /** Reserving a free slot of the running round for a vote and moving to the phase after it. */
  lemma CastVoteEngine(w: World, auth: Signatures, v: ValidatorId, e: Engine, kind: VoteKind, value: VoteValue)
    requires |w.validators.validators| > 0
    requires EngineSound(w, auth, v, e) && e.started
    requires kind == VoteKind.Prevote ==> e.phase == Propose
    requires kind == VoteKind.Precommit ==> e.phase == Phase.Prevote
    ensures LocalVote(e, kind, value).Key() !in e.localDecisions
    ensures EngineSound(w, auth, v, Decide(e, LocalVote(e, kind, value)).(phase := PhaseAfter(kind)))
  {
    hide QuorumProof, Polka, VotesSound, ProposalsSound, FinalizedSound, HasQuorum;
    var o := Decide(e, LocalVote(e, kind, value)).(phase := PhaseAfter(kind));
    assert SafetyOf(o) == SafetyOf(e);
    assert DecisionsSound(w, o);
    assert RequestsSound(w, o);
    assert PhaseSound(o);
    assert SlotVotes(o, o.round, VoteKind.Prevote) == SlotVotes(e, e.round, VoteKind.Prevote);
    assert ValidCached(o);
    assert FinalizedSound(w, auth, o) by { FinalizedFrame(w, auth, e, o); }
  }

  lemma FinalizedFrame(w: World, auth: Signatures, e: Engine, o: Engine)
    requires FinalizedSound(w, auth, e) && o.finalized == e.finalized && (o.phase == Finalized ==> e.phase == Finalized)
    ensures FinalizedSound(w, auth, o)
  {
  }

  lemma CastVoteLog(w: World, auth: Signatures, v: ValidatorId, e: Engine, log: seq<Decision>, kind: VoteKind, value: VoteValue)
    requires |w.validators.validators| > 0
    requires Sound(w, auth, v, e, log) && e.started
    requires LocalVote(e, kind, value).Key() !in e.localDecisions
    requires VoteAllowed(w, auth, e, log, kind, value)
    ensures LogSound(w, auth, v, log + [Decision(LocalVote(e, kind, value), SafetyOf(e))])
  {
    hide QuorumProof, Polka, VotesSound, ProposalsSound, FinalizedSound, ValidCached;
    var message := LocalVote(e, kind, value);
    var d := Decision(message, SafetyOf(e));
    assert MessageFits(w, v, message);
    forall i | 0 <= i < |log| ensures log[i].message.Key() != message.Key() {
      if log[i].message.Round() == e.round {
        assert log[i].message.Key() in e.localDecisions;
      }
    }
    if IsBlockPrecommit(message) {
      forall j | 0 <= j < |log| && IsBlockPrevote(log[j].message)
        ensures Justified(w, auth, message.vote, log[j].message.vote)
      {
        assert log[j].message.Round() <= log[j].safety.round <= e.round;
      }
    }
    LogGrows(w, auth, v, log, d);
  }

  lemma CastVoteLinked(w: World, auth: Signatures, v: ValidatorId, e: Engine, log: seq<Decision>, kind: VoteKind, value: VoteValue)
    requires |w.validators.validators| > 0
    requires Sound(w, auth, v, e, log) && e.started
    requires VoteAllowed(w, auth, e, log, kind, value)
    ensures Linked(Decide(e, LocalVote(e, kind, value)).(phase := PhaseAfter(kind)),
                   log + [Decision(LocalVote(e, kind, value), SafetyOf(e))])
  {
    hide EngineSound, LogSound;
    var grown := log + [Decision(LocalVote(e, kind, value), SafetyOf(e))];
    assert forall i :: 0 <= i < |log| ==> grown[i] == log[i];
  }

  lemma CastVoteKeeps(w: World, auth: Signatures, v: ValidatorId, e: Engine, log: seq<Decision>, kind: VoteKind, value: VoteValue)
    requires |w.validators.validators| > 0
    requires Sound(w, auth, v, e, log) && e.started
    requires kind == VoteKind.Prevote ==> e.phase == Propose
    requires kind == VoteKind.Precommit ==> e.phase == Phase.Prevote
    requires VoteAllowed(w, auth, e, log, kind, value)
    ensures var o := CastVote(e, kind, value);
      && Sound(w, auth, v, o.engine, log + Emitted(o.effects))
      && o.error.None?
      && o.engine == Decide(e, LocalVote(e, kind, value)).(phase := PhaseAfter(kind))
  {
    hide EngineSound, LogSound, Linked, VoteAllowed;
    var message := LocalVote(e, kind, value);
    var o := CastVote(e, kind, value);
    CastVoteEngine(w, auth, v, e, kind, value);
    var d := Decision(message, SafetyOf(e));
    assert Emitted(o.effects) == [d] by {
      EmittedOne(o.effects[0]);
      EmittedOne(o.effects[1]);
      EmittedConcat([o.effects[0]], [o.effects[1]]);
      assert o.effects == [o.effects[0]] + [o.effects[1]];
    }
    CastVoteLog(w, auth, v, e, log, kind, value);
    CastVoteLinked(w, auth, v, e, log, kind, value);
  }

  lemma SlotSound(w: World, auth: Signatures, e: Engine, round: nat, kind: VoteKind)
    requires VotesSound(w, auth, e.votes)
    ensures var votes := SlotVotes(e, round, kind);
      forall s :: s in votes ==> CachedVoteSound(w, auth, VoteSlot(round, kind), s, votes[s])
  {
  }

  lemma QuorumListProves(w: World, auth: Signatures, votes: map<ValidatorId, SignedVote>, round: nat, kind: VoteKind, b: BlockId, proof: seq<SignedVote>)
    requires w.Valid()
    requires forall s :: s in votes ==> CachedVoteSound(w, auth, VoteSlot(round, kind), s, votes[s])
    requires Lists(votes, SortedIds(votes.Keys), Block(b), proof)
    requires |proof| == |Voters(votes, Block(b))| >= w.validators.Quorum()
    ensures QuorumProof(w, auth, proof, round, kind, b)
    ensures votes.Keys <= w.validators.Ids()
  {
    WorldSize(w);
    assert votes.Keys <= w.validators.Ids();
    SubsetSize(Voters(votes, Block(b)), w.validators.Ids());
    forall i | 0 <= i < |proof|
      ensures VoteFits(w, proof[i]) && proof[i] in auth && Supports(w, proof[i].vote, round, kind, Block(b))
    {
      assert CachedVoteSound(w, auth, VoteSlot(round, kind), proof[i].vote.validator, votes[proof[i].vote.validator]);
    }
    forall i, j | 0 <= i < j < |proof| ensures proof[i].vote.validator != proof[j].vote.validator {
      assert proof[i].vote.validator < proof[j].vote.validator;
    }
  }

  /** A quorum found among sound cached votes is a quorum proof for its value. */
  lemma QuorumVotesProve(w: World, auth: Signatures, v: ValidatorId, e: Engine, round: nat, kind: VoteKind)
    requires w.Valid()
    requires EngineSound(w, auth, v, e)
    ensures SlotVotes(e, round, kind).Keys <= w.validators.Ids()
    ensures match QuorumVotes(e, round, kind)
      case Some((Block(b), proof)) =>
        && QuorumProof(w, auth, proof, round, kind, b)
        && Certified(w, auth, round, kind, Block(b))
        && HasQuorum(SlotVotes(e, round, kind), Block(b), e.validators.Quorum())
        && (exists signer :: VoteSlot(round, kind) in e.votes && signer in e.votes[VoteSlot(round, kind)])
      case _ => true
  {
    hide SafetySound, ProposalsSound, DecisionsSound, RequestsSound, PhaseSound, ValidCached, FinalizedSound, QuorumVotes, Voters, Signers;
    WorldSize(w);
    var votes := SlotVotes(e, round, kind);
    SlotSound(w, auth, e, round, kind);
    QuorumVotesAre(e, round, kind);
    match QuorumVotes(e, round, kind)
    case Some((Block(b), proof)) =>
      QuorumListProves(w, auth, votes, round, kind, b, proof);
      ProofCertifies(w, auth, proof, round, kind, b);
      assert proof[0].vote.validator in votes;
    case _ =>
  }

  lemma AdoptValidSafety(w: World, auth: Signatures, e: Engine, round: nat, b: BlockId, proof: seq<SignedVote>)
    requires SafetySound(w, auth, SafetyOf(e))
    requires QuorumProof(w, auth, proof, round, VoteKind.Prevote, b)
    ensures SafetySound(w, auth, SafetyOf(AdoptValid(e, round, b, proof)))
    ensures round == e.round ==> AdoptValid(e, round, b, proof).validRound == Some(e.round)
  {
    hide QuorumProof, Polka;
  }

  lemma AdoptValidKeeps(w: World, auth: Signatures, v: ValidatorId, e: Engine, log: seq<Decision>, round: nat, b: BlockId, proof: seq<SignedVote>)
    requires w.Valid()
    requires Sound(w, auth, v, e, log)
    requires QuorumVotes(e, round, VoteKind.Prevote) == Some((Block(b), proof))
    ensures Sound(w, auth, v, AdoptValid(e, round, b, proof), log)
    ensures round == e.round ==> AdoptValid(e, round, b, proof).validRound == Some(e.round)
  {
    hide LogSound, SafetySound, VotesSound, ProposalsSound, QuorumProof, QuorumVotes, HasQuorum, Certified;
    QuorumVotesProve(w, auth, v, e, round, VoteKind.Prevote);
    AdoptValidSafety(w, auth, e, round, b, proof);
    var o := AdoptValid(e, round, b, proof);
    assert SlotVotes(o, round, VoteKind.Prevote) == SlotVotes(e, round, VoteKind.Prevote);
    assert SlotVotes(o, e.round, VoteKind.Prevote) == SlotVotes(e, e.round, VoteKind.Prevote);
    assert ValidCached(o);
    assert FinalizedSound(w, auth, o) by { FinalizedFrame(w, auth, e, o); }
  }

  lemma LockOnLinked(w: World, auth: Signatures, v: ValidatorId, e: Engine, log: seq<Decision>, b: BlockId)
    requires |w.validators.validators| > 0
    requires Sound(w, auth, v, e, log) && e.started && e.phase == Phase.Prevote
    ensures Linked(LockOn(e, b), log)
  {
    hide SafetySound, VotesSound, ProposalsSound, FinalizedSound, ValidCached, QuorumProof, Polka, Certified;
    var o := LockOn(e, b);
    forall i | 0 <= i < |log| && IsBlockPrecommit(log[i].message)
      ensures LockCovers(SafetyOf(o), log[i].message.vote.round, log[i].message.vote.value.id)
    {
      assert MessageFits(w, v, log[i].message);
      assert log[i].message.Key() == VoteKey(log[i].message.vote.round, VoteKind.Precommit);
      assert log[i].message.vote.round != e.round;
    }
  }

  /** Locking on the block whose prevote quorum the running round shows. */
  lemma LockOnKeeps(w: World, auth: Signatures, v: ValidatorId, e: Engine, log: seq<Decision>, b: BlockId, proof: seq<SignedVote>)
    requires w.Valid()
    requires Sound(w, auth, v, e, log) && e.started && e.phase == Phase.Prevote
    requires QuorumVotes(e, e.round, VoteKind.Prevote) == Some((Block(b), proof))
    requires e.validRound == Some(e.round)
    ensures Sound(w, auth, v, LockOn(e, b), log)
  {
    hide LogSound, Linked, VotesSound, ProposalsSound, QuorumProof, QuorumVotes, HasQuorum, Certified;
    QuorumVotesProve(w, auth, v, e, e.round, VoteKind.Prevote);
    WorldSize(w);
    QuorumValueUnique(SlotVotes(e, e.round, VoteKind.Prevote), w.validators.Ids(), Block(b), Block(e.validBlock.value));
    var o := LockOn(e, b);
    assert SafetySound(w, auth, SafetyOf(o));
    assert SlotVotes(o, e.round, VoteKind.Prevote) == SlotVotes(e, e.round, VoteKind.Prevote);
    assert FinalizedSound(w, auth, o) by { FinalizedFrame(w, auth, e, o); }
    LockOnLinked(w, auth, v, e, log, b);
  }

  lemma EvaluatePrevotesKeeps(w: World, auth: Signatures, v: ValidatorId, e: Engine, log: seq<Decision>, round: nat)
    requires w.Valid()
    requires Sound(w, auth, v, e, log) && e.started
    ensures var o := EvaluatePrevotes(e, round);
      && Sound(w, auth, v, o.engine, log + Emitted(o.effects))
      && o.engine.started && o.engine.round == e.round && o.error.None?
  {
    hide Sound, QuorumVotes, CastVote;
    assert log + Emitted([]) == log;
    match QuorumVotes(e, round, VoteKind.Prevote)
    case None =>
    case Some((Nil, _)) =>
      if round == e.round && e.phase == Phase.Prevote {
        CastVoteKeeps(w, auth, v, e, log, VoteKind.Precommit, Nil);
      }
    case Some((Block(b), proof)) =>
      if HasProposal(e, round, b) {
        AdoptValidKeeps(w, auth, v, e, log, round, b, proof);
        var adopted := AdoptValid(e, round, b, proof);
        if round == e.round && e.phase == Phase.Prevote {
          assert SlotVotes(adopted, round, VoteKind.Prevote) == SlotVotes(e, round, VoteKind.Prevote);
          SameVotesSameQuorum(e, adopted, round, VoteKind.Prevote);
          LockOnKeeps(w, auth, v, adopted, log, b, proof);
          CastVoteKeeps(w, auth, v, LockOn(adopted, b), log, VoteKind.Precommit, Block(b));
        }
      }
  }

  lemma ChainEmits(log: seq<Decision>, first: Outcome, second: Outcome)
    ensures log + Emitted(Chain(first, second).effects) == (log + Emitted(first.effects)) + Emitted(second.effects)
  {
    EmittedConcat(first.effects, second.effects);
  }

  lemma FinalizeEngine(w: World, auth: Signatures, v: ValidatorId, e: Engine, c: CommitCertificate)
    requires |w.validators.validators| > 0
    requires EngineSound(w, auth, v, e)
    requires CertificateValid(w, auth, c)
    ensures EngineSound(w, auth, v, e.(phase := Finalized, finalized := Some(Finalization(c.height, c.round, c.blockId, c))))
  {
    hide SafetySound, VotesSound, ProposalsSound, CertificateValid, HasQuorum;
    var o := e.(phase := Finalized, finalized := Some(Finalization(c.height, c.round, c.blockId, c)));
    assert SafetyOf(o) == SafetyOf(e);
    assert SlotVotes(o, e.round, VoteKind.Prevote) == SlotVotes(e, e.round, VoteKind.Prevote);
  }

  lemma FinalizeKeeps(w: World, auth: Signatures, v: ValidatorId, e: Engine, log: seq<Decision>, c: CommitCertificate)
    requires |w.validators.validators| > 0
    requires Sound(w, auth, v, e, log)
    requires CertificateValid(w, auth, c)
    ensures var o := FinalizeWith(e, c);
      && Sound(w, auth, v, o.engine, log + Emitted(o.effects))
      && o.engine.started == e.started && o.engine.round == e.round
  {
    hide EngineSound, LogSound, CertificateValid, Emitted;
    var o := FinalizeWith(e, c);
    FinalizeEngine(w, auth, v, e, c);
    NoDecisions(o.effects);
    assert log + [] == log;
  }

  lemma EvaluatePrecommitsKeeps(w: World, auth: Signatures, v: ValidatorId, e: Engine, log: seq<Decision>, round: nat, validator: MessageValidator)
    requires w.Valid()
    requires Sound(w, auth, v, e, log)
    ensures var o := EvaluatePrecommits(e, round, validator);
      && Sound(w, auth, v, o.engine, log + Emitted(o.effects))
      && o.engine.started == e.started && o.engine.round == e.round
  {
    assert log + Emitted([]) == log;
    QuorumVotesProve(w, auth, v, e, round, VoteKind.Precommit);
    match QuorumVotes(e, round, VoteKind.Precommit)
    case None =>
    case Some((Nil, _)) =>
    case Some((Block(b), precommits)) =>
      var c := BuiltCertificate(e, round, b, precommits);
      hide Sound, QuorumVotes, FinalizeWith;
      assert VoteFits(w, precommits[0]);
      assert CertificateValid(w, auth, c);
      FinalizeKeeps(w, auth, v, e, log, c);
  }

  lemma EvaluateRoundKeeps(w: World, auth: Signatures, v: ValidatorId, e: Engine, log: seq<Decision>, round: nat, validator: MessageValidator)
    requires w.Valid()
    requires Sound(w, auth, v, e, log) && e.started
    ensures var o := EvaluateRound(e, round, validator);
      && Sound(w, auth, v, o.engine, log + Emitted(o.effects))
      && o.engine.started && o.engine.round == e.round
  {
    hide Sound, EvaluatePrevotes, EvaluatePrecommits;
    EvaluatePrevotesKeeps(w, auth, v, e, log, round);
    var first := EvaluatePrevotes(e, round);
    EvaluatePrecommitsKeeps(w, auth, v, first.engine, log + Emitted(first.effects), round, validator);
    ChainEmits(log, first, EvaluatePrecommits(first.engine, round, validator));
  }

  /** The lock rule lets a prevote depart from an earlier precommit only after a polka in between. */
  lemma PrevoteForJustified(w: World, auth: Signatures, v: ValidatorId, e: Engine, log: seq<Decision>)
    requires w.Valid()
    requires Sound(w, auth, v, e, log) && e.started && e.phase == Propose && e.round in e.proposals
    ensures VoteAllowed(w, auth, e, log, VoteKind.Prevote, PrevoteFor(e, e.proposals[e.round].proposal))
  {
    hide LogSound, VotesSound, QuorumProof, DecisionsSound, RequestsSound, ValidCached, FinalizedSound, Certified;
    var p := e.proposals[e.round].proposal;
    var value := PrevoteFor(e, p);
    assert ProposalSound(w, auth, p) && p.round == e.round;
    if value.Block? {
      forall i | 0 <= i < |log| && IsBlockPrecommit(log[i].message)
        ensures Justified(w, auth, log[i].message.vote, LocalVote(e, VoteKind.Prevote, value).vote)
      {
        var r := log[i].message.vote.round;
        assert LockCovers(SafetyOf(e), r, log[i].message.vote.value.id);
        if log[i].message.vote.value != value {
          if e.lockedBlock == Some(p.blockId) {
            assert r < e.lockedRound.value < e.round && Polka(w, auth, e.lockedRound.value, p.blockId);
          } else {
            ProofCertifies(w, auth, p.validRoundProof, p.validRound.value, VoteKind.Prevote, p.blockId);
            assert r < p.validRound.value < e.round && Polka(w, auth, p.validRound.value, p.blockId);
          }
        }
      }
    }
  }

  lemma ActivateKeeps(w: World, auth: Signatures, v: ValidatorId, e: Engine, log: seq<Decision>, validator: MessageValidator)
    requires w.Valid()
    requires Sound(w, auth, v, e, log) && e.started
    ensures var o := ActivateCurrentRound(e, validator);
      && Sound(w, auth, v, o.engine, log + Emitted(o.effects))
      && o.engine.started && o.engine.round == e.round
  {
    hide Sound, EvaluateRound, CastVote;
    var first := PrevoteProposal(e);
    assert log + Emitted([]) == log;
    if e.phase == Propose && e.round in e.proposals {
      PrevoteForJustified(w, auth, v, e, log);
      CastVoteKeeps(w, auth, v, e, log, VoteKind.Prevote, PrevoteFor(e, e.proposals[e.round].proposal));
    }
    EvaluateRoundKeeps(w, auth, v, first.engine, log + Emitted(first.effects), first.engine.round, validator);
    ChainEmits(log, first, EvaluateRound(first.engine, first.engine.round, validator));
  }

  // ---------------------------------------------------------------- entering a round

  /** Pruning keeps a sub-map of every cache, and every current entry. */
  lemma PruneSound(w: World, auth: Signatures, v: ValidatorId, e: Engine, round: nat)
    requires |w.validators.validators| > 0
    requires EngineSound(w, auth, v, e)
    requires if e.started then round > e.round else round == e.round
    requires round < w.config.maxRoundsPerHeight <= U32_MAX
    ensures EngineSound(w, auth, v, PruneCaches(e.(started := true, round := round, phase := Propose)))
  {
    var o := PruneCaches(e.(started := true, round := round, phase := Propose));
    assert SafetySound(w, auth, SafetyOf(o)) by { hide QuorumProof, Polka; }
    assert VotesSound(w, auth, o.votes) by { hide CachedVoteSound; }
    assert ProposalsSound(w, auth, o.proposals) by { hide ProposalSound; }
    assert DecisionsSound(w, o) && RequestsSound(w, o) && PhaseSound(o) && LockedEarlier(o) && ValidCached(o)
      && FinalizedSound(w, auth, o) by {
      hide QuorumProof, Polka, VotesSound, ProposalsSound;
    }
  }

  lemma EnteredLinked(e: Engine, log: seq<Decision>, round: nat)
    requires Linked(e, log)
    requires if e.started then round > e.round else round == e.round
    requires forall i :: 0 <= i < |log| ==> log[i].message.Round() <= log[i].safety.round
    ensures Linked(PruneCaches(e.(started := true, round := round, phase := Propose)), log)
    ensures forall i :: 0 <= i < |log| ==> log[i].message.Round() < round
  {
    hide Cacheable;
    forall i | 0 <= i < |log| ensures log[i].message.Round() < round && log[i].safety.round <= round {
      assert log[i].safety.round <= e.round;
    }
  }

  lemma RequestOwnProposal(w: World, auth: Signatures, v: ValidatorId, e: Engine, log: seq<Decision>)
    requires |w.validators.validators| > 0
    requires Sound(w, auth, v, e, log) && e.started
    requires w.validators.Proposer(w.height, e.round) == v
    requires forall k :: k in e.localDecisions ==> k.round < e.round
    requires forall i :: 0 <= i < |log| ==> log[i].message.Round() < e.round
    ensures Sound(w, auth, v, e.(requestedProposals := e.requestedProposals + {e.round}), log)
  {
    hide SafetySound, VotesSound, ProposalsSound, LogSound, HasQuorum;
    var o := e.(requestedProposals := e.requestedProposals + {e.round});
    assert SafetyOf(o) == SafetyOf(e);
    assert SlotVotes(o, e.round, VoteKind.Prevote) == SlotVotes(e, e.round, VoteKind.Prevote);
    assert FinalizedSound(w, auth, o) by { FinalizedFrame(w, auth, e, o); }
  }

  lemma DecisionsPast(w: World, auth: Signatures, v: ValidatorId, e: Engine, round: nat)
    requires |w.validators.validators| > 0
    requires EngineSound(w, auth, v, e)
    requires if e.started then round > e.round else round == e.round
    ensures forall k :: k in PruneCaches(e.(started := true, round := round, phase := Propose)).localDecisions ==> k.round < round
  {
    hide SafetySound, VotesSound, ProposalsSound, FinalizedSound, ValidCached, Cacheable;
  }

  /** Entering a round: at start, or the next round after a precommit timeout. */
  lemma EnterRoundKeeps(w: World, auth: Signatures, v: ValidatorId, e: Engine, log: seq<Decision>, round: nat, validator: MessageValidator)
    requires w.Valid()
    requires Sound(w, auth, v, e, log)
    requires if e.started then round > e.round else round == e.round
    requires round < w.config.maxRoundsPerHeight
    ensures var o := EnterRound(e.(started := true), round, validator);
      && Sound(w, auth, v, o.engine, log + Emitted(o.effects))
      && o.engine.started && o.engine.round == round
  {
    var entered := PruneCaches(e.(started := true, round := round, phase := Propose));
    assert entered.config == w.config && entered.validators == w.validators && entered.height == w.height && entered.localId == v;
    PruneSound(w, auth, v, e, round);
    EnteredLinked(e, log, round);
    DecisionsPast(w, auth, v, e, round);
    assert Sound(w, auth, v, entered, log);
    assert entered.started && entered.round == round;
    hide Sound, EngineSound, LogSound, Linked, PruneCaches, ActivateCurrentRound;
    var opening := Outcome(entered, [ScheduleTimeout(CurrentTimeout(entered, Propose))], None);
    NoDecisions(opening.effects);
    assert log + [] == log;
    if round in entered.proposals {
      ActivateKeeps(w, auth, v, entered, log, validator);
      ChainEmits(log, opening, ActivateCurrentRound(entered, validator));
    } else if w.validators.Proposer(w.height, round) == v {
      RequestOwnProposal(w, auth, v, entered, log);
      var asked := Outcome(
        entered.(requestedProposals := entered.requestedProposals + {round}),
        [RequestProposal(w.height, round, e.validBlock, e.validRound)], None);
      NoDecisions(asked.effects);
      ChainEmits(log, opening, asked);
    }
  }

  // ---------------------------------------------------------------- own proposals

  lemma ProposeEngine(w: World, auth: Signatures, v: ValidatorId, e: Engine, round: nat, m: SignableMessage)
    requires |w.validators.validators| > 0
    requires EngineSound(w, auth, v, e) && e.started
    requires round in e.requestedProposals
    requires m.ProposalMessage? && MessageFits(w, v, m) && m.Round() == round
    ensures EngineSound(w, auth, v, Decide(e.(requestedProposals := e.requestedProposals - {round}), m))
  {
    hide SafetySound, VotesSound, ProposalsSound, HasQuorum;
    var o := Decide(e.(requestedProposals := e.requestedProposals - {round}), m);
    assert m.Key() == ProposalKey(round);
    assert SafetyOf(o) == SafetyOf(e);
    assert SlotVotes(o, e.round, VoteKind.Prevote) == SlotVotes(e, e.round, VoteKind.Prevote);
    assert FinalizedSound(w, auth, o) by { FinalizedFrame(w, auth, e, o); }
  }

  lemma ProposeLinked(w: World, auth: Signatures, v: ValidatorId, e: Engine, log: seq<Decision>, round: nat, m: SignableMessage)
    requires |w.validators.validators| > 0
    requires Sound(w, auth, v, e, log) && e.started
    requires round in e.requestedProposals
    requires m.ProposalMessage? && MessageFits(w, v, m) && m.Round() == round
    ensures Linked(Decide(e.(requestedProposals := e.requestedProposals - {round}), m), log + [Decision(m, SafetyOf(e))])
    ensures LogSound(w, auth, v, log + [Decision(m, SafetyOf(e))])
  {
    hide SafetySound, VotesSound, ProposalsSound, ValidCached, FinalizedSound, DecisionsSound, PhaseSound, Polka;
    var d := Decision(m, SafetyOf(e));
    assert round <= e.round;
    forall i | 0 <= i < |log| ensures log[i].message.Key() != m.Key() {
      assert m.Key() == ProposalKey(round);
    }
    LogGrows(w, auth, v, log, d);
    var grown := log + [d];
    assert forall i :: 0 <= i < |log| ==> grown[i] == log[i];
  }

  lemma AcceptBuiltBlockKeeps(w: World, auth: Signatures, v: ValidatorId, e: Engine, log: seq<Decision>, height: nat, round: nat, b: BlockId)
    requires w.Valid()
    requires Sound(w, auth, v, e, log) && e.started
    ensures var o := AcceptBuiltBlock(e, height, round, b);
      && Sound(w, auth, v, o.engine, log + Emitted(o.effects))
      && o.engine.started
  {
    assert log + Emitted([]) == log;
    if height == e.height && round in e.requestedProposals {
      var taken := e.(requestedProposals := e.requestedProposals - {round});
      var m := LocalProposal(taken, round, b);
      assert round <= e.round && w.validators.Proposer(w.height, round) == v && ProposalKey(round) !in e.localDecisions;
      assert e.round < w.config.maxRoundsPerHeight;
      assert MessageFits(w, v, m);
      ProposeEngine(w, auth, v, e, round, m);
      ProposeLinked(w, auth, v, e, log, round, m);
      hide EngineSound, LogSound, Linked, LocalProposal, Emitted;
      EmittedOne(PersistBeforeBroadcast(m, SafetyOf(e)));
    }
  }

  // ---------------------------------------------------------------- messages

  lemma InsertProposalSound(w: World, auth: Signatures, v: ValidatorId, e: Engine, log: seq<Decision>, signed: SignedProposal)
    requires |w.validators.validators| > 0
    requires Sound(w, auth, v, e, log) && e.started
    requires ProposalSound(w, auth, signed.proposal)
    ensures Sound(w, auth, v, e.(proposals := e.proposals[signed.proposal.round := signed]), log)
  {
    hide SafetySound, VotesSound, ProposalSound, LogSound, DecisionsSound, RequestsSound, HasQuorum;
    var o := e.(proposals := e.proposals[signed.proposal.round := signed]);
    assert SafetyOf(o) == SafetyOf(e);
    assert SlotVotes(o, e.round, VoteKind.Prevote) == SlotVotes(e, e.round, VoteKind.Prevote);
    assert DecisionsSound(w, o) && RequestsSound(w, o) by { RequestsFrame(w, e, o); }
    assert FinalizedSound(w, auth, o) by { FinalizedFrame(w, auth, e, o); }
  }

  lemma RequestsFrame(w: World, e: Engine, o: Engine)
    requires |w.validators.validators| > 0
    requires DecisionsSound(w, e) && RequestsSound(w, e)
    requires o.localDecisions == e.localDecisions && o.requestedProposals == e.requestedProposals
    requires o.round == e.round && o.localId == e.localId
    ensures DecisionsSound(w, o) && RequestsSound(w, o)
  {
  }

  lemma AcceptProposalKeeps(w: World, auth: Signatures, v: ValidatorId, e: Engine, log: seq<Decision>, signed: SignedProposal, validator: MessageValidator)
    requires w.Valid()
    requires Sound(w, auth, v, e, log) && e.started
    requires ProposalSound(w, auth, signed.proposal)
    ensures var o := AcceptProposal(e, signed, validator);
      && Sound(w, auth, v, o.engine, log + Emitted(o.effects))
      && o.engine.started
  {
    hide Sound, ActivateCurrentRound, Emitted, ProposalSound;
    NoDecisions([]);
    assert log + [] == log;
    var round := signed.proposal.round;
    if Cacheable(e, round) {
      if round in e.proposals {
        NoDecisions(AcceptProposal(e, signed, validator).effects);
      } else {
        InsertProposalSound(w, auth, v, e, log, signed);
        if round == e.round {
          ActivateKeeps(w, auth, v, e.(proposals := e.proposals[round := signed]), log, validator);
        }
      }
    }
  }

  function WithVote(e: Engine, signed: SignedVote): Engine
  {
    var slot := VoteSlot(signed.vote.round, signed.vote.kind);
    var cached := if slot in e.votes then e.votes[slot] else map[];
    e.(votes := e.votes[slot := cached[signed.vote.validator := signed]])
  }

  lemma QuorumGrows(votes: map<ValidatorId, SignedVote>, signed: SignedVote, value: VoteValue, quorum: nat)
    requires signed.vote.validator !in votes
    requires HasQuorum(votes, value, quorum)
    ensures HasQuorum(votes[signed.vote.validator := signed], value, quorum)
  {
    SubsetSize(Voters(votes, value), Voters(votes[signed.vote.validator := signed], value));
  }

  lemma InsertVoteSound(w: World, auth: Signatures, v: ValidatorId, e: Engine, log: seq<Decision>, signed: SignedVote)
    requires |w.validators.validators| > 0
    requires Sound(w, auth, v, e, log) && e.started
    requires VoteFits(w, signed) && signed in auth
    requires signed.vote.validator !in SlotVotes(e, signed.vote.round, signed.vote.kind)
    ensures Sound(w, auth, v, WithVote(e, signed), log)
  {
    hide SafetySound, ProposalsSound, LogSound, DecisionsSound, RequestsSound, HasQuorum;
    var o := WithVote(e, signed);
    assert SafetyOf(o) == SafetyOf(e);
    assert VotesSound(w, auth, o.votes);
    assert ValidCached(o) by {
      if e.validRound == Some(e.round) {
        if signed.vote.round == e.round && signed.vote.kind == VoteKind.Prevote {
          QuorumGrows(SlotVotes(e, e.round, VoteKind.Prevote), signed, Block(e.validBlock.value), e.validators.Quorum());
        } else {
          assert VoteSlot(signed.vote.round, signed.vote.kind) != VoteSlot(e.round, VoteKind.Prevote);
          assert SlotVotes(o, e.round, VoteKind.Prevote) == SlotVotes(e, e.round, VoteKind.Prevote);
        }
      }
    }
    assert DecisionsSound(w, o) && RequestsSound(w, o) by { RequestsFrame(w, e, o); }
    assert FinalizedSound(w, auth, o) by { FinalizedFrame(w, auth, e, o); }
  }

  lemma AcceptVoteKeeps(w: World, auth: Signatures, v: ValidatorId, e: Engine, log: seq<Decision>, signed: SignedVote, validator: MessageValidator)
    requires w.Valid()
    requires Sound(w, auth, v, e, log) && e.started
    requires VoteFits(w, signed) && signed in auth
    ensures var o := AcceptVote(e, signed, validator);
      && Sound(w, auth, v, o.engine, log + Emitted(o.effects))
      && o.engine.started
  {
    hide Sound, EvaluateRound, Emitted;
    NoDecisions([]);
    assert log + [] == log;
    var vote := signed.vote;
    if Cacheable(e, vote.round) {
      if vote.validator in SlotVotes(e, vote.round, vote.kind) {
        NoDecisions(AcceptVote(e, signed, validator).effects);
      } else {
        InsertVoteSound(w, auth, v, e, log, signed);
        EvaluateRoundKeeps(w, auth, v, WithVote(e, signed), log, vote.round, validator);
      }
    }
  }

  /** Every vote the validator accepts carries one of the signatures that exist. */
  ghost predicate Authenticates(validator: MessageValidator, auth: Signatures)
  {
    forall s :: validator.validateVote(s).Accept? <==> s in auth
  }

  lemma VoteStructureFits(w: World, e: Engine, signed: SignedVote)
    requires e.validators == w.validators && e.config == w.config && e.height == w.height
    requires |signed.signature| <= w.config.maxSignatureBytes
    ensures VoteStructureFault(e, signed).None? <==> VoteFits(w, signed)
  {
  }

  /** The proof loops accept exactly the quorum proofs over existing signatures. */
  lemma ProofFaultIffQuorum(
    w: World, auth: Signatures, e: Engine, proof: seq<SignedVote>, round: nat, kind: VoteKind, b: BlockId,
    mismatch: ConsensusError, validator: MessageValidator)
    requires e.validators == w.validators && e.config == w.config && e.height == w.height
    requires Authenticates(validator, auth)
    ensures ProofSizeOk(e, proof) && ProofFault(e, proof, round, kind, b, mismatch, validator).None?
      <==> QuorumProof(w, auth, proof, round, kind, b)
  {
    ProofFaultNone(e, proof, round, kind, b, mismatch, validator);
    hide ProofFault;
    if ProofAccepted(e, proof, round, kind, b, validator) && ProofSizeOk(e, proof) {
      forall i | 0 <= i < |proof|
        ensures VoteFits(w, proof[i]) && proof[i] in auth && Supports(w, proof[i].vote, round, kind, Block(b))
      {
        assert VoteAccepted(e, proof[i], round, kind, b, validator);
        VoteStructureFits(w, e, proof[i]);
      }
    }
    if QuorumProof(w, auth, proof, round, kind, b) {
      forall i | 0 <= i < |proof| ensures VoteAccepted(e, proof[i], round, kind, b, validator) {
        assert VoteFits(w, proof[i]) && proof[i] in auth && Supports(w, proof[i].vote, round, kind, Block(b));
        VoteStructureFits(w, e, proof[i]);
      }
    }
  }

  lemma CertificateAccepted(w: World, auth: Signatures, e: Engine, c: CommitCertificate, validator: MessageValidator)
    requires e.validators == w.validators && e.config == w.config && e.height == w.height
    requires Authenticates(validator, auth)
    ensures CertificateFault(e, c, validator).None?
      <==> CertificateValid(w, auth, c) && validator.validateCertificate(c).Accept?
  {
    ProofFaultIffQuorum(w, auth, e, c.precommits, c.round, VoteKind.Precommit, c.blockId, InvalidCertificate, validator);
    hide ProofFault, QuorumProof;
  }

  lemma MessageAccepted(w: World, auth: Signatures, e: Engine, message: SignedMessage, validator: MessageValidator)
    requires w.Valid()
    requires e.validators == w.validators && e.config == w.config && e.height == w.height
    requires Authenticates(validator, auth)
    requires MessageFault(e, message, validator).None?
    ensures match message
      case SignedVoteMessage(signed) => VoteFits(w, signed) && signed in auth
      case SignedProposalMessage(signed) =>
        && ProposalSound(w, auth, signed.proposal)
        && MessageFits(w, signed.proposal.proposer, ProposalMessage(signed.proposal))
  {
    match message
    case SignedVoteMessage(signed) =>
      VoteStructureFits(w, e, signed);
    case SignedProposalMessage(signed) =>
      var p := signed.proposal;
      if p.validRound.Some? {
        ProofFaultIffQuorum(w, auth, e, p.validRoundProof, p.validRound.value, VoteKind.Prevote, p.blockId, InvalidValidRoundProof, validator);
      }
  }

  lemma AcceptMessageKeeps(w: World, auth: Signatures, v: ValidatorId, e: Engine, log: seq<Decision>, message: SignedMessage, validator: MessageValidator)
    requires w.Valid()
    requires Sound(w, auth, v, e, log) && e.started
    requires Authenticates(validator, auth)
    requires MessageFault(e, message, validator).None?
    ensures var o := AcceptMessage(e, message, validator);
      && Sound(w, auth, v, o.engine, log + Emitted(o.effects))
      && o.engine.started
  {
    hide LogSound, Linked, AcceptProposal, AcceptVote, MessageFault, Emitted;
    MessageAccepted(w, auth, e, message, validator);
    match message
    case SignedVoteMessage(signed) => AcceptVoteKeeps(w, auth, v, e, log, signed, validator);
    case SignedProposalMessage(signed) => AcceptProposalKeeps(w, auth, v, e, log, signed, validator);
  }

  lemma PendingFrame(w: World, auth: Signatures, v: ValidatorId, e: Engine, log: seq<Decision>, key: DecisionKey)
    requires |w.validators.validators| > 0
    requires Sound(w, auth, v, e, log)
    ensures Sound(w, auth, v, e.(pendingPersistence := e.pendingPersistence - {key}), log)
  {
    hide LogSound, SafetySound, VotesSound, ProposalsSound, DecisionsSound, RequestsSound, HasQuorum;
    var o := e.(pendingPersistence := e.pendingPersistence - {key});
    assert SafetyOf(o) == SafetyOf(e);
    assert SlotVotes(o, e.round, VoteKind.Prevote) == SlotVotes(e, e.round, VoteKind.Prevote);
    assert DecisionsSound(w, o) && RequestsSound(w, o) by { RequestsFrame(w, e, o); }
    assert FinalizedSound(w, auth, o) by { FinalizedFrame(w, auth, e, o); }
  }

  lemma AcknowledgeKeeps(w: World, auth: Signatures, v: ValidatorId, e: Engine, log: seq<Decision>, message: SignedMessage, validator: MessageValidator)
    requires w.Valid()
    requires Sound(w, auth, v, e, log) && e.started
    requires Authenticates(validator, auth)
    ensures var o := AcknowledgePersisted(e, message, validator);
      && Sound(w, auth, v, o.engine, log + Emitted(o.effects))
      && o.engine.started
  {
    assert e.validators == w.validators;
    NoDecisions([]);
    assert log + [] == log;
    var key := message.Signable().Key();
    if key in e.pendingPersistence && e.pendingPersistence[key] == message.Signable() && MessageFault(e, message, validator).None? {
      var a := e.(pendingPersistence := e.pendingPersistence - {key});
      PendingFrame(w, auth, v, e, log, key);
      SameFault(e, a, message, validator);
      hide Sound, MessageFault, AcceptMessage, Emitted;
      AcceptMessageKeeps(w, auth, v, a, log, message, validator);
      var sent := Outcome(a, [Broadcast(message)], None);
      NoDecisions(sent.effects);
      ChainEmits(log, sent, AcceptMessage(a, message, validator));
    }
  }

  /** Validation reads the parameters of the engine only. */
  lemma {:induction false} SameFirstFault(
    e: Engine, o: Engine, proof: seq<SignedVote>, count: nat, round: nat, kind: VoteKind, b: BlockId,
    mismatch: ConsensusError, validator: MessageValidator)
    requires count <= |proof|
    requires o.validators == e.validators && o.config == e.config && o.height == e.height
    ensures FirstFault(e, proof, count, round, kind, b, mismatch, validator) == FirstFault(o, proof, count, round, kind, b, mismatch, validator)
    decreases count
  {
    if count > 0 {
      SameFirstFault(e, o, proof, count - 1, round, kind, b, mismatch, validator);
    }
  }

  lemma SameFault(e: Engine, o: Engine, message: SignedMessage, validator: MessageValidator)
    requires |e.validators.validators| > 0
    requires o.validators == e.validators && o.config == e.config && o.height == e.height
    ensures MessageFault(e, message, validator) == MessageFault(o, message, validator)
  {
    if message.SignedProposalMessage? && message.signedProposal.proposal.validRound.Some? {
      var p := message.signedProposal.proposal;
      SameFirstFault(e, o, p.validRoundProof, |p.validRoundProof|, p.validRound.value, VoteKind.Prevote, p.blockId, InvalidValidRoundProof, validator);
    }
  }

  lemma NilVoteKeeps(w: World, auth: Signatures, v: ValidatorId, e: Engine, log: seq<Decision>, kind: VoteKind, validator: MessageValidator)
    requires w.Valid()
    requires Sound(w, auth, v, e, log) && e.started
    requires kind == VoteKind.Prevote ==> e.phase == Propose
    requires kind == VoteKind.Precommit ==> e.phase == Phase.Prevote
    ensures var first := CastVote(e, kind, Nil);
      var o := Chain(first, EvaluateRound(first.engine, first.engine.round, validator));
      && Sound(w, auth, v, o.engine, log + Emitted(o.effects))
      && o.engine.started
  {
    CastVoteKeeps(w, auth, v, e, log, kind, Nil);
    var first := CastVote(e, kind, Nil);
    hide Sound, EvaluateRound, CastVote, Emitted;
    EvaluateRoundKeeps(w, auth, v, first.engine, log + Emitted(first.effects), e.round, validator);
    ChainEmits(log, first, EvaluateRound(first.engine, e.round, validator));
  }

  lemma Parameters(w: World, auth: Signatures, v: ValidatorId, e: Engine, log: seq<Decision>)
    requires |w.validators.validators| > 0
    requires Sound(w, auth, v, e, log)
    ensures e.validators == w.validators && e.config == w.config && e.height == w.height && e.localId == v
    ensures e.round < w.config.maxRoundsPerHeight
  {
  }

  lemma NextRoundKeeps(w: World, auth: Signatures, v: ValidatorId, e: Engine, log: seq<Decision>, validator: MessageValidator)
    requires w.Valid()
    requires Sound(w, auth, v, e, log) && e.started
    ensures var o := if e.round >= U32_MAX then Failed(e, RoundLimitReached(e.round)) else EnterRound(e, e.round + 1, validator);
      && Sound(w, auth, v, o.engine, log + Emitted(o.effects))
      && o.engine.started
  {
    hide Sound, EnterRound, Emitted;
    Parameters(w, auth, v, e, log);
    NoDecisions([]);
    assert log + [] == log;
    if e.round + 1 < w.config.maxRoundsPerHeight {
      assert e.(started := true) == e;
      EnterRoundKeeps(w, auth, v, e, log, e.round + 1, validator);
    } else if e.round < U32_MAX {
      RoundLimit(e, e.round + 1, validator);
    }
  }

  lemma HandleTimeoutKeeps(w: World, auth: Signatures, v: ValidatorId, e: Engine, log: seq<Decision>, timeout: Timeout, validator: MessageValidator)
    requires w.Valid()
    requires Sound(w, auth, v, e, log) && e.started
    ensures var o := HandleTimeout(e, timeout, validator);
      && Sound(w, auth, v, o.engine, log + Emitted(o.effects))
      && o.engine.started
  {
    hide Sound, Chain, EvaluateRound, EnterRound, CastVote, Emitted, TimeoutIsCurrent;
    Parameters(w, auth, v, e, log);
    NoDecisions([]);
    assert log + [] == log;
    if TimeoutIsCurrent(e, timeout) {
      if e.phase == Propose {
        NilVoteKeeps(w, auth, v, e, log, VoteKind.Prevote, validator);
      } else if e.phase == Phase.Prevote {
        NilVoteKeeps(w, auth, v, e, log, VoteKind.Precommit, validator);
      } else if e.phase == Phase.Precommit {
        NextRoundKeeps(w, auth, v, e, log, validator);
      }
    }
  }

  lemma RoundLimit(e: Engine, round: nat, validator: MessageValidator)
    requires |e.validators.validators| > 0
    requires round >= e.config.maxRoundsPerHeight
    ensures EnterRound(e, round, validator) == Failed(e, RoundLimitReached(round))
  {
  }

  /** Every call of `step` keeps the invariant, once the decisions it asks for are durable. */
  lemma StepKeeps(w: World, auth: Signatures, v: ValidatorId, e: Engine, log: seq<Decision>, event: Event, validator: MessageValidator)
    requires w.Valid()
    requires Sound(w, auth, v, e, log)
    requires Authenticates(validator, auth)
    ensures var o := Step(e, event, validator);
      Sound(w, auth, v, o.engine, log + Emitted(o.effects))
  {
    assert e.validators == w.validators && e.config == w.config && e.height == w.height && e.round < w.config.maxRoundsPerHeight;
    hide Sound, EnterRound, AcceptBuiltBlock, ReceiveMessage, AcknowledgePersisted, HandleTimeout, FinalizeWith, CertificateFault, CertificateValid, Emitted;
    NoDecisions([]);
    assert log + [] == log;
    match event
    case Start =>
      if !e.started {
        EnterRoundKeeps(w, auth, v, e, log, e.round, validator);
      }
    case Certificate(c) =>
      CertificateAccepted(w, auth, e, c, validator);
      if CertificateFault(e, c, validator).None? {
        FinalizeKeeps(w, auth, v, e, log, c);
      }
    case ProposalReady(height, round, b) =>
      if e.started && e.finalized.None? { AcceptBuiltBlockKeeps(w, auth, v, e, log, height, round, b); }
    case Message(message) =>
      if e.started && e.finalized.None? { ReceiveKeeps(w, auth, v, e, log, message, validator); }
    case Persisted(message) =>
      if e.started && e.finalized.None? { AcknowledgeKeeps(w, auth, v, e, log, message, validator); }
    case TimeoutEvent(timeout) =>
      if e.started && e.finalized.None? { HandleTimeoutKeeps(w, auth, v, e, log, timeout, validator); }
  }

  lemma ReceiveKeeps(w: World, auth: Signatures, v: ValidatorId, e: Engine, log: seq<Decision>, message: SignedMessage, validator: MessageValidator)
    requires w.Valid()
    requires Sound(w, auth, v, e, log) && e.started
    requires Authenticates(validator, auth)
    ensures var o := ReceiveMessage(e, message, validator);
      Sound(w, auth, v, o.engine, log + Emitted(o.effects))
  {
    assert e.validators == w.validators;
    hide Sound, MessageFault, AcceptMessage, Emitted;
    NoDecisions([]);
    assert log + [] == log;
    if MessageFault(e, message, validator).None? {
      AcceptMessageKeeps(w, auth, v, e, log, message, validator);
    }
  }
}
