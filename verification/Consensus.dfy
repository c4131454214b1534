/**
 * The engine with its mutable fields, loops and early returns, proved against the value-level
 * functions of EngineSpec.dfy (`crates/kcoin-consensus/src/engine.rs`).
 */
module ConsensusEngine {
  import opened Wrappers
  import opened Quorums
  import opened ConsensusTypes
  import opened EngineSpec
  import opened VoteCounting

  // ---------------------------------------------------------------- ordered iteration

  lemma SmallestExists(ids: set<ValidatorId>)
    requires ids != {}
    ensures exists v :: v in ids && forall other :: other in ids ==> v <= other
  {
    var v :| v in ids;
    SmallestBelow(ids, v);
  }

  lemma {:induction false} SmallestBelow(ids: set<ValidatorId>, v: ValidatorId)
    requires v in ids
    ensures exists least :: least in ids && forall other :: other in ids ==> least <= other
    decreases v
  {
    if other :| other in ids && other < v {
      SmallestBelow(ids, other);
    }
  }

  lemma {:induction false} EarliestExists(values: set<VoteValue>)
    requires values != {}
    ensures exists v :: v in values && forall other :: other in values ==> !ValueBefore(other, v)
    decreases |values|
  {
    var v :| v in values;
    if values - {v} == {} {
      assert values == {v};
    } else {
      EarliestExists(values - {v});
      var w :| w in values - {v} && forall other :: other in values - {v} ==> !ValueBefore(other, w);
      assert forall other :: other in values ==> other == v || other in values - {v};
      if ValueBefore(v, w) {
        assert v in values && forall other :: other in values ==> !ValueBefore(other, v);
      } else {
        assert w in values && forall other :: other in values ==> !ValueBefore(other, w);
      }
    }
  }

  lemma AscendingLast(init: seq<ValidatorId>, last: ValidatorId)
    requires Ascending(init + [last])
    ensures Ascending(init)
    ensures forall v :: v in init ==> v < last
  {
    var a := init + [last];
    assert forall i :: 0 <= i < |init| ==> a[i] == init[i];
    assert a[|init|] == last;
  }

  /** An ascending list is determined by its members. */
  lemma {:induction false} AscendingUnique(a: seq<ValidatorId>, b: seq<ValidatorId>)
    requires Ascending(a) && Ascending(b)
    requires forall v :: v in a <==> v in b
    ensures a == b
    decreases |a|
  {
    hide Ascending;
    assert b == [] || b[0] in b;
    if a != [] {
      assert a[0] in a;
      var a', x, b', y := a[..|a| - 1], a[|a| - 1], b[..|b| - 1], b[|b| - 1];
      assert a == a' + [x] && b == b' + [y];
      AscendingLast(a', x);
      AscendingLast(b', y);
      assert x in b && y in a;
      forall v ensures v in a' <==> v in b' {
        assert v in a <==> v in a' || v == x;
        assert v in b <==> v in b' || v == y;
      }
      AscendingUnique(a', b');
    }
  }

  lemma FirstValueUnique(votes: map<ValidatorId, SignedVote>, a: VoteValue, b: VoteValue, quorum: nat)
    requires IsQuorumValue(votes, a, quorum) && IsQuorumValue(votes, b, quorum)
    ensures a == b
  {
    assert a == b || ValueBefore(a, b) || ValueBefore(b, a);
  }

  /** `groups` holds, value by value, the votes of the listed validators in that order. */
  ghost predicate Grouped(votes: map<ValidatorId, SignedVote>, ids: seq<ValidatorId>, groups: map<VoteValue, seq<SignedVote>>)
  {
    forall value :: Select(votes, ids, value) == if value in groups then groups[value] else []
  }

  lemma GroupedExtends(votes: map<ValidatorId, SignedVote>, ids: seq<ValidatorId>, groups: map<VoteValue, seq<SignedVote>>, id: ValidatorId)
    requires Grouped(votes, ids, groups) && id in votes
    ensures var value := votes[id].vote.value;
      Grouped(votes, ids + [id], groups[value := (if value in groups then groups[value] else []) + [votes[id]]])
  {
    assert (ids + [id])[..|ids|] == ids;
  }

  lemma NothingGrouped(votes: map<ValidatorId, SignedVote>)
    ensures Partway(votes.Keys, votes.Keys, []) && Grouped(votes, [], map[])
  {
  }

  /** An ordered iteration over `all` has visited `done` and has `remaining` ahead of it. */
  ghost predicate Partway(all: set<ValidatorId>, remaining: set<ValidatorId>, done: seq<ValidatorId>)
  {
    && remaining <= all && Ascending(done)
    && (forall v :: v in done <==> v in all - remaining)
    && (forall v, u :: v in done && u in remaining ==> v < u)
  }

  lemma PartwayExtends(all: set<ValidatorId>, remaining: set<ValidatorId>, done: seq<ValidatorId>, id: ValidatorId)
    requires Partway(all, remaining, done) && id in remaining
    requires forall other :: other in remaining ==> id <= other
    ensures Partway(all, remaining - {id}, done + [id])
  {
    assert forall i :: 0 <= i < |done| ==> done[i] in done;
    assert Ascending(done + [id]);
  }

  /** A first value with a quorum is the one `quorum_votes` returns. */
  lemma QuorumFound(e: Engine, round: nat, kind: VoteKind, value: VoteValue)
    requires IsQuorumValue(SlotVotes(e, round, kind), value, e.validators.Quorum())
    ensures QuorumVotes(e, round, kind)
      == Some((value, Select(SlotVotes(e, round, kind), SortedIds(SlotVotes(e, round, kind).Keys), value)))
  {
    hide SlotVotes, Select, Voters, SortedIds, HasQuorum, ValueBefore, IsQuorumValue;
    var votes := SlotVotes(e, round, kind);
    forall other | IsQuorumValue(votes, other, e.validators.Quorum()) ensures other == value {
      FirstValueUnique(votes, value, other, e.validators.Quorum());
    }
  }

  lemma NoVotesNoQuorum(e: Engine, round: nat, kind: VoteKind)
    requires |e.validators.validators| > 0 && VoteSlot(round, kind) !in e.votes
    ensures QuorumVotes(e, round, kind) == None
  {
    forall value ensures Voters(map[], value) == {} {}
  }

  lemma NoQuorumFound(e: Engine, round: nat, kind: VoteKind)
    requires forall value :: !HasQuorum(SlotVotes(e, round, kind), value, e.validators.Quorum())
    ensures QuorumVotes(e, round, kind) == None
  {
  }

  lemma GroupSize(votes: map<ValidatorId, SignedVote>, value: VoteValue)
    ensures |Select(votes, SortedIds(votes.Keys), value)| == |Voters(votes, value)|
  {
    hide Select, Ascending;
    var ids := SortedIds(votes.Keys);
    SelectCount(votes, ids, value);
    assert VotersAmong(votes, ids, value) == Voters(votes, value);
  }

  lemma GroupSizes(votes: map<ValidatorId, SignedVote>)
    ensures forall value :: |Select(votes, SortedIds(votes.Keys), value)| == |Voters(votes, value)|
  {
    hide Select, SortedIds, Voters;
    forall value ensures |Select(votes, SortedIds(votes.Keys), value)| == |Voters(votes, value)| {
      GroupSize(votes, value);
    }
  }

  class Consensus {
    const localId: ValidatorId
    const validators: ValidatorSet
    const config: ConsensusConfig
    const height: nat
    var round: nat
    var phase: Phase
    var started: bool
    var finalized: Option<Finalization>
    var lockedRound: Option<nat>
    var lockedBlock: Option<BlockId>
    var validRound: Option<nat>
    var validBlock: Option<BlockId>
    var validProof: seq<SignedVote>
    var proposals: map<nat, SignedProposal>
    var votes: map<VoteSlot, map<ValidatorId, SignedVote>>
    var requestedProposals: set<nat>
    var localDecisions: map<DecisionKey, SignableMessage>
    var pendingPersistence: map<DecisionKey, SignableMessage>

    /** The value of all fields. */
    ghost function View(): Engine
      reads this
    {
      Engine(localId, validators, config, height, round, phase, started, finalized,
             lockedRound, lockedBlock, validRound, validBlock, validProof,
             proposals, votes, requestedProposals, localDecisions, pendingPersistence)
    }

    /** An engine needs a validator to rotate over; `ValidatorSet::new` refuses an empty set. */
    ghost predicate Valid()
      reads this
    {
      |validators.validators| > 0
    }

    constructor (localId: ValidatorId, validators: ValidatorSet, height: nat, config: ConsensusConfig)
      ensures View() == FreshEngine(localId, validators, height, config)
    {
      this.localId, this.validators, this.height, this.config := localId, validators, height, config;
      round, phase, started, finalized := 0, Propose, false, None;
      lockedRound, lockedBlock, validRound, validBlock, validProof := None, None, None, None, [];
      proposals, votes, requestedProposals := map[], map[], {};
      localDecisions, pendingPersistence := map[], map[];
    }

    /** `Consensus::new`. */
    static method Create(localId: ValidatorId, validators: ValidatorSet, height: nat, config: ConsensusConfig)
      returns (r: Result<Consensus, ConsensusError>)
      ensures r.Ok? ==> fresh(r.value) && NewEngine(localId, validators, height, config) == Ok(r.value.View())
      ensures r.Err? ==> NewEngine(localId, validators, height, config) == Err(r.error)
    {
      var fault := NewFault(localId, validators, height, config);
      if fault.Some? {
        return Err(fault.value);
      }
      var made := new Consensus(localId, validators, height, config);
      return Ok(made);
    }

    /** `Consensus::new_with_safety_state`. */
    static method CreateWithSafetyState(
      localId: ValidatorId, validators: ValidatorSet, height: nat, config: ConsensusConfig, s: SafetyState, validator: MessageValidator)
      returns (r: Result<Consensus, ConsensusError>)
      ensures r.Ok? ==> fresh(r.value) && RestoreEngine(localId, validators, height, config, s, validator) == Ok(r.value.View())
      ensures r.Err? ==> RestoreEngine(localId, validators, height, config, s, validator) == Err(r.error)
    {
      if s.height != height {
        return Err(RestoredHeightMismatch(height, s.height));
      }
      if s.round >= U32_MAX || s.round + 1 >= config.maxRoundsPerHeight {
        return Err(RestoredRoundOutOfRange(s.round));
      }
      var made := Create(localId, validators, height, config);
      if made.Err? {
        return made;
      }
      var consensus := made.value;
      var fault := consensus.ValidateRestored(s, validator);
      if fault.Some? {
        return Err(fault.value);
      }
      consensus.round := s.round + 1;
      consensus.lockedRound, consensus.lockedBlock := s.lockedRound, s.lockedBlock;
      consensus.validRound, consensus.validBlock := s.validRound, s.validBlock;
      consensus.validProof := s.validRoundProof;
      return Ok(consensus);
    }

    method ValidateRestored(s: SafetyState, validator: MessageValidator) returns (fault: Option<ConsensusError>)
      ensures fault == RestoredFault(View(), s, validator)
    {
      var proofSizeOk := validators.Quorum() <= |s.validRoundProof| <= |validators.validators|;
      var validOk := match (s.validRound, s.validBlock)
        case (None, None) => s.validRoundProof == []
        case (Some(r), Some(_)) => r <= s.round && proofSizeOk
        case _ => false;
      if !LockWellFormed(s) || !validOk || !LockCoveredByValid(s) {
        return Some(MalformedSafetyState);
      }
      if s.validRound.None? || s.validBlock.None? {
        return None;
      }
      fault := CheckProof(s.validRoundProof, s.validRound.value, VoteKind.Prevote, s.validBlock.value, MalformedSafetyState, validator);
    }

    /** The loop that authenticates a quorum proof and grows the set of its signers. */
    method CheckProof(
      proof: seq<SignedVote>, round: nat, kind: VoteKind, blockId: BlockId, mismatch: ConsensusError, validator: MessageValidator)
      returns (fault: Option<ConsensusError>)
      ensures fault == ProofFault(View(), proof, round, kind, blockId, mismatch, validator)
    {
      var signers := {};
      for i := 0 to |proof|
        invariant signers == set j | 0 <= j < i :: proof[j].vote.validator
        invariant FirstFault(View(), proof, i, round, kind, blockId, mismatch, validator).None?
      {
        var signed := proof[i];
        ghost var expected := FirstFault(View(), proof, i + 1, round, kind, blockId, mismatch, validator);
        assert expected == ProofVoteFault(View(), proof, i, round, kind, blockId, mismatch, validator);
        if |signed.signature| > config.maxSignatureBytes {
          fault := Some(SignatureTooLarge);
        } else {
          fault := ValidateVoteStructure(signed);
          if fault.None? {
            if signed.vote.round != round || signed.vote.kind != kind || signed.vote.value != Block(blockId)
              || signed.vote.validator in signers
            {
              fault := Some(mismatch);
            } else {
              fault := VoteVerdict(validator, signed);
            }
          }
        }
        assert fault == expected;
        if fault.Some? {
          FaultStays(View(), proof, i + 1, |proof|, round, kind, blockId, mismatch, validator);
          return;
        }
        signers := signers + {signed.vote.validator};
      }
      fault := None;
    }

    method ValidateVoteStructure(signed: SignedVote) returns (fault: Option<ConsensusError>)
      ensures fault == VoteStructureFault(View(), signed)
    {
      fault := ValidateContext(signed.vote.chainId, signed.vote.height);
      if fault.Some? {
        return;
      }
      if signed.vote.validator !in validators.validators {
        return Some(UnknownValidator(signed.vote.validator));
      }
      if signed.vote.round >= config.maxRoundsPerHeight {
        return Some(RoundOutsideWindow(signed.vote.round));
      }
      return None;
    }

    method ValidateContext(chainId: string, height: nat) returns (fault: Option<ConsensusError>)
      ensures fault == ContextFault(View(), chainId, height)
    {
      if chainId != config.chainId {
        return Some(WrongChain(config.chainId, chainId));
      }
      if height != this.height {
        return Some(WrongHeight(this.height, height));
      }
      return None;
    }

    method ValidateProposalStructure(signed: SignedProposal, validator: MessageValidator) returns (fault: Option<ConsensusError>)
      requires Valid()
      ensures fault == ProposalStructureFault(View(), signed, validator)
    {
      var p := signed.proposal;
      fault := ValidateContext(p.chainId, p.height);
      if fault.Some? {
        return;
      }
      if p.proposer !in validators.validators {
        return Some(UnknownValidator(p.proposer));
      }
      var expected := validators.Proposer(height, p.round);
      if p.proposer != expected {
        return Some(UnexpectedProposer(p.round, expected, p.proposer));
      }
      if p.round >= config.maxRoundsPerHeight {
        return Some(RoundOutsideWindow(p.round));
      }
      if p.validRound.None? {
        return if p.validRoundProof == [] then None else Some(InvalidValidRoundProof);
      }
      if p.validRound.value >= p.round
        || |p.validRoundProof| < validators.Quorum() || |p.validRoundProof| > |validators.validators|
      {
        return Some(InvalidValidRoundProof);
      }
      fault := CheckProof(p.validRoundProof, p.validRound.value, VoteKind.Prevote, p.blockId, InvalidValidRoundProof, validator);
    }

    method ValidateMessage(message: SignedMessage, validator: MessageValidator) returns (fault: Option<ConsensusError>)
      requires Valid()
      ensures fault == MessageFault(View(), message, validator)
    {
      if |message.Signature()| > config.maxSignatureBytes {
        return Some(SignatureTooLarge);
      }
      match message
      case SignedProposalMessage(p) =>
        fault := ValidateProposalStructure(p, validator);
        if fault.Some? {
          return;
        }
        match validator.validateProposal(p) {
          case Accept => return None;
          case Reject(error) => return Some(Validation(error));
        }
      case SignedVoteMessage(v) =>
        fault := ValidateVoteStructure(v);
        if fault.Some? {
          return;
        }
        return VoteVerdict(validator, v);
    }

    method ValidateCertificate(c: CommitCertificate, validator: MessageValidator) returns (fault: Option<ConsensusError>)
      ensures fault == CertificateFault(View(), c, validator)
    {
      fault := ValidateContext(c.chainId, c.height);
      if fault.Some? {
        return;
      }
      if c.round >= config.maxRoundsPerHeight
        || |c.precommits| < validators.Quorum() || |c.precommits| > |validators.validators|
      {
        return Some(InvalidCertificate);
      }
      fault := CheckProof(c.precommits, c.round, VoteKind.Precommit, c.blockId, InvalidCertificate, validator);
      if fault.Some? {
        return;
      }
      match validator.validateCertificate(c) {
        case Accept => return None;
        case Reject(error) => return Some(Validation(error));
      }
    }

    /** `restore_local_decision`. */
    method RestoreLocalDecision(message: SignableMessage) returns (fault: Option<ConsensusError>)
      requires Valid()
      modifies this
      ensures fault == RestoreDecisionFault(old(View()), message)
      ensures if fault.Some? then View() == old(View()) else RestoreDecision(old(View()), message) == Ok(View())
    {
      fault := None;
      if started {
        return Some(AlreadyStarted);
      }
      if message.ProposalMessage? {
        var expected := validators.Proposer(height, message.Round());
        if message.Signer() != expected {
          return Some(UnexpectedProposer(message.Round(), expected, message.Signer()));
        }
      }
      fault := ValidateContext(message.ChainId(), message.Height());
      if fault.Some? {
        return;
      }
      if message.Signer() != localId {
        return Some(RestoredDecisionSigner(localId, message.Signer()));
      }
      if message.Round() >= round || message.Round() >= config.maxRoundsPerHeight {
        return Some(MalformedSafetyState);
      }
      var key := message.Key();
      if key in localDecisions {
        if localDecisions[key] == message {
          assert localDecisions == localDecisions[key := message];
          return None;
        }
        return Some(UnexpectedPersistedMessage);
      }
      localDecisions := localDecisions[key := message];
      return None;
    }

    /** `quorum_votes`: group the cached votes by value, in validator order, and take the first quorum. */
    method QuorumOf(round: nat, kind: VoteKind) returns (r: Option<(VoteValue, seq<SignedVote>)>)
      requires Valid()
      ensures r == QuorumVotes(View(), round, kind)
    {
      var slot := VoteSlot(round, kind);
      if slot !in votes {
        NoVotesNoQuorum(View(), round, kind);
        return None;
      }
      var cached := votes[slot];
      var byValue := GroupByValue(cached);
      r := FirstQuorum(cached, byValue, round, kind);
    }

    static method GroupByValue(cached: map<ValidatorId, SignedVote>) returns (byValue: map<VoteValue, seq<SignedVote>>)
      ensures Grouped(cached, SortedIds(cached.Keys), byValue)
    {
      hide Ascending, Select, SortedIds;
      byValue := map[];
      var remaining := cached.Keys;
      ghost var done: seq<ValidatorId> := [];
      NothingGrouped(cached);
      while remaining != {}
        invariant Partway(cached.Keys, remaining, done)
        invariant Grouped(cached, done, byValue)
        decreases |remaining|
      {
        hide Grouped;
        SmallestExists(remaining);
        var id :| id in remaining && forall other :: other in remaining ==> id <= other;
        var vote := cached[id];
        GroupedExtends(cached, done, byValue, id);
        PartwayExtends(cached.Keys, remaining, done, id);
        var group := if vote.vote.value in byValue then byValue[vote.vote.value] else [];
        byValue := byValue[vote.vote.value := group + [vote]];
        done := done + [id];
        remaining := remaining - {id};
      }
      AscendingUnique(done, SortedIds(cached.Keys));
    }

    method FirstQuorum(cached: map<ValidatorId, SignedVote>, byValue: map<VoteValue, seq<SignedVote>>, round: nat, kind: VoteKind)
      returns (r: Option<(VoteValue, seq<SignedVote>)>)
      requires Valid() && cached == SlotVotes(View(), round, kind)
      requires Grouped(cached, SortedIds(cached.Keys), byValue)
      ensures r == QuorumVotes(View(), round, kind)
    {
      hide SlotVotes, Select, Voters, SortedIds, QuorumVotes;
      var quorum := validators.Quorum();
      GroupSizes(cached);
      var left := byValue.Keys;
      while left != {}
        invariant left <= byValue.Keys
        invariant forall value :: value !in left ==> !HasQuorum(cached, value, quorum)
        decreases |left|
      {
        EarliestExists(left);
        var value :| value in left && forall other :: other in left ==> !ValueBefore(other, value);
        if |byValue[value]| >= quorum {
          QuorumFound(View(), round, kind, value);
          return Some((value, byValue[value]));
        }
        left := left - {value};
      }
      NoQuorumFound(View(), round, kind);
      return None;
    }

    // ---------------------------------------------------------------- decisions

    method CastVote(kind: VoteKind, value: VoteValue) returns (effects: seq<Effect>)
      modifies this
      ensures Outcome(View(), effects, None) == EngineSpec.CastVote(old(View()), kind, value)
    {
      var message := VoteMessage(Vote(config.chainId, height, round, kind, localId, value));
      var key := VoteKey(round, kind);
      if key in localDecisions {
        return [];
      }
      localDecisions := localDecisions[key := message];
      pendingPersistence := pendingPersistence[key := message];
      effects := [PersistBeforeBroadcast(message, CurrentSafetyState())];
      phase := match kind
        case Prevote => Phase.Prevote
        case Precommit => Phase.Precommit;
      effects := effects + [ScheduleTimeout(PhaseTimeout(phase))];
    }

    function CurrentSafetyState(): (s: SafetyState)
      reads this
      ensures s == SafetyOf(View())
    {
      SafetyState(height, round, lockedRound, lockedBlock, validRound, validBlock, validProof)
    }

    function PhaseTimeout(phase: Phase): (t: Timeout)
      reads this
      ensures t == CurrentTimeout(View(), phase)
    {
      Timeout(height, round, phase, config.TimeoutFor(phase, round))
    }

    /** `prevote_for`. */
    function ValueFor(p: Proposal): (value: VoteValue)
      reads this
      ensures value == PrevoteFor(View(), p)
    {
      if lockedRound.None? && lockedBlock.None? then Block(p.blockId)
      else if lockedBlock == Some(p.blockId) then Block(p.blockId)
      else if lockedRound.Some? && lockedBlock.Some? && p.validRound.Some? && p.validRound.value > lockedRound.value
      then Block(p.blockId)
      else Nil
    }

    method RequestPersistence(message: SignableMessage) returns (effects: seq<Effect>, error: Option<ConsensusError>)
      modifies this
      ensures Outcome(View(), effects, error) == EngineSpec.RequestPersistence(old(View()), message)
    {
      var key := message.Key();
      if key in localDecisions {
        if localDecisions[key] == message {
          return [], None;
        }
        return [], Some(UnexpectedPersistedMessage);
      }
      localDecisions := localDecisions[key := message];
      pendingPersistence := pendingPersistence[key := message];
      return [PersistBeforeBroadcast(message, CurrentSafetyState())], None;
    }

    method Finalize(c: CommitCertificate) returns (effects: seq<Effect>, error: Option<ConsensusError>)
      modifies this
      ensures Outcome(View(), effects, error) == FinalizeWith(old(View()), c)
    {
      if finalized.Some? {
        if finalized.value.blockId == c.blockId {
          return [], None;
        }
        return [], Some(ConflictingCommit(finalized.value.blockId, c.blockId));
      }
      var finalization := Finalization(c.height, c.round, c.blockId, c);
      phase := Phase.Finalized;
      finalized := Some(finalization);
      return [Effect.Finalize(finalization)], None;
    }

    // ---------------------------------------------------------------- rounds

    predicate RoundIsCacheable(round: nat)
      reads this
      ensures RoundIsCacheable(round) == Cacheable(View(), round)
    {
      var retainedBefore := SaturatingSub(config.maxCachedRounds, 1) % (U32_MAX + 1);
      var minimum := SaturatingSub(this.round, retainedBefore);
      var maximum := SaturatingAdd(this.round, config.maxRoundAhead, U32_MAX);
      minimum <= round <= maximum
    }

    /** `prune_caches`: each `retain` keeps the entries inside the window. */
    method PruneCaches()
      modifies this
      ensures View() == EngineSpec.PruneCaches(old(View()))
    {
      hide EngineSpec.PruneCaches, Cacheable;
      var minimum := SaturatingSub(round, RetainedBefore(config));
      var maximum := SaturatingAdd(round, config.maxRoundAhead, U32_MAX);
      WindowOf(View());
      PrunedParts(View(), minimum, maximum);
      RetainRounds(minimum, maximum);
    }

    method RetainRounds(minimum: nat, maximum: nat)
      modifies this
      ensures View() == Retained(old(View()), minimum, maximum)
    {
      var keptProposals := map r | r in proposals && minimum <= r <= maximum :: proposals[r];
      var keptVotes := map s | s in votes && minimum <= s.round <= maximum :: votes[s];
      var keptRequests := set r | r in requestedProposals && minimum <= r <= maximum;
      var keptDecisions := map k | k in localDecisions && minimum <= k.round <= maximum :: localDecisions[k];
      var keptPending := map k | k in pendingPersistence && minimum <= k.round <= maximum :: pendingPersistence[k];
      proposals, votes, requestedProposals := keptProposals, keptVotes, keptRequests;
      localDecisions, pendingPersistence := keptDecisions, keptPending;
    }

    method EvaluatePrevotes(round: nat) returns (effects: seq<Effect>)
      requires Valid()
      modifies this
      ensures Outcome(View(), effects, None) == EngineSpec.EvaluatePrevotes(old(View()), round)
    {
      hide QuorumVotes, EngineSpec.CastVote;
      effects := [];
      var quorum := QuorumOf(round, VoteKind.Prevote);
      match quorum
      case None =>
      case Some((Nil, _)) =>
        if round == this.round && phase == Phase.Prevote {
          effects := CastVote(VoteKind.Precommit, Nil);
        }
      case Some((Block(blockId), proof)) =>
        var hasProposal := round in proposals && proposals[round].proposal.blockId == blockId;
        if hasProposal && round <= this.round && (validRound.None? || round > validRound.value) {
          validRound, validBlock, validProof := Some(round), Some(blockId), proof;
        }
        if hasProposal && round == this.round && phase == Phase.Prevote {
          lockedRound, lockedBlock := Some(round), Some(blockId);
          effects := CastVote(VoteKind.Precommit, Block(blockId));
        }
    }

    /** `evaluate_round`. */
    method EvaluateRound(round: nat, validator: MessageValidator) returns (effects: seq<Effect>, error: Option<ConsensusError>)
      requires Valid()
      modifies this
      ensures Valid()
      ensures Outcome(View(), effects, error) == EngineSpec.EvaluateRound(old(View()), round, validator)
    {
      hide QuorumVotes, EngineSpec.EvaluatePrevotes;
      effects := EvaluatePrevotes(round);
      error := None;
      var quorum := QuorumOf(round, VoteKind.Precommit);
      if quorum.Some? && quorum.value.0.Block? {
        var c := CommitCertificate(config.chainId, height, round, quorum.value.0.id, quorum.value.1);
        match validator.validateCertificate(c)
        case Reject(reason) =>
          return effects, Some(Validation(reason));
        case Accept =>
          var more;
          more, error := Finalize(c);
          effects := effects + more;
      }
    }

    method ActivateCurrentRound(validator: MessageValidator) returns (effects: seq<Effect>, error: Option<ConsensusError>)
      requires Valid()
      modifies this
      ensures Valid()
      ensures Outcome(View(), effects, error) == EngineSpec.ActivateCurrentRound(old(View()), validator)
    {
      hide EngineSpec.CastVote, EngineSpec.EvaluateRound, PrevoteFor;
      effects := [];
      if phase == Propose && round in proposals {
        effects := CastVote(VoteKind.Prevote, ValueFor(proposals[round].proposal));
      }
      var more;
      more, error := EvaluateRound(round, validator);
      effects := effects + more;
    }

    method EnterRound(round: nat, validator: MessageValidator) returns (effects: seq<Effect>, error: Option<ConsensusError>)
      requires Valid()
      modifies this
      ensures Valid()
      ensures Outcome(View(), effects, error) == EngineSpec.EnterRound(old(View()), round, validator)
    {
      hide EngineSpec.ActivateCurrentRound, EngineSpec.PruneCaches, CurrentTimeout;
      if round >= config.maxRoundsPerHeight {
        return [], Some(RoundLimitReached(round));
      }
      this.round, phase := round, Propose;
      PruneCaches();
      PruneKeepsRest(old(View()).(round := round, phase := Propose));
      effects := [ScheduleTimeout(PhaseTimeout(Propose))];
      error := None;
      if round in proposals {
        var more;
        more, error := ActivateCurrentRound(validator);
        effects := effects + more;
      } else if validators.Proposer(height, round) == localId {
        requestedProposals := requestedProposals + {round};
        effects := effects + [RequestProposal(height, round, validBlock, validRound)];
      }
    }

    // ---------------------------------------------------------------- events

    method ProposalReady(height: nat, round: nat, blockId: BlockId) returns (effects: seq<Effect>, error: Option<ConsensusError>)
      modifies this
      ensures Outcome(View(), effects, error) == AcceptBuiltBlock(old(View()), height, round, blockId)
    {
      hide EngineSpec.RequestPersistence;
      if height != this.height {
        return [], Some(WrongHeight(this.height, height));
      }
      if round !in requestedProposals {
        return [], Some(ProposalNotRequested(height, round));
      }
      requestedProposals := requestedProposals - {round};
      var carried := validRound.Some? && validRound.value < round && validBlock == Some(blockId);
      var proof := if carried then validProof else [];
      var carriedRound := if proof == [] then None else validRound;
      effects, error := RequestPersistence(
        ProposalMessage(Proposal(config.chainId, height, round, localId, blockId, carriedRound, proof)));
    }

    method AcceptProposal(signed: SignedProposal, validator: MessageValidator)
      returns (effects: seq<Effect>, error: Option<ConsensusError>)
      requires Valid()
      modifies this
      ensures Valid()
      ensures Outcome(View(), effects, error) == EngineSpec.AcceptProposal(old(View()), signed, validator)
    {
      hide EngineSpec.ActivateCurrentRound, Cacheable;
      var round := signed.proposal.round;
      if !RoundIsCacheable(round) {
        return [], None;
      }
      if round in proposals {
        var first := proposals[round];
        if first == signed {
          return [], None;
        }
        return [ReportEvidence(DoubleProposal(signed.proposal.proposer, first, signed))], None;
      }
      proposals := proposals[round := signed];
      effects, error := [], None;
      if round == this.round {
        effects, error := ActivateCurrentRound(validator);
      }
    }

    method AcceptVote(signed: SignedVote, validator: MessageValidator)
      returns (effects: seq<Effect>, error: Option<ConsensusError>)
      requires Valid()
      modifies this
      ensures Valid()
      ensures Outcome(View(), effects, error) == EngineSpec.AcceptVote(old(View()), signed, validator)
    {
      hide EngineSpec.EvaluateRound, Cacheable;
      var vote := signed.vote;
      if !RoundIsCacheable(vote.round) {
        return [], None;
      }
      var slot := VoteSlot(vote.round, vote.kind);
      var byValidator: map<ValidatorId, SignedVote> := if slot in votes then votes[slot] else map[];
      if vote.validator in byValidator {
        var first := byValidator[vote.validator];
        if first == signed {
          return [], None;
        }
        return [ReportEvidence(DoubleVote(vote.validator, first, signed))], None;
      }
      votes := votes[slot := byValidator[vote.validator := signed]];
      effects, error := EvaluateRound(vote.round, validator);
    }

    /** `accept_validated_message`. */
    method AcceptMessage(message: SignedMessage, validator: MessageValidator)
      returns (effects: seq<Effect>, error: Option<ConsensusError>)
      requires Valid()
      modifies this
      ensures Valid()
      ensures Outcome(View(), effects, error) == EngineSpec.AcceptMessage(old(View()), message, validator)
    {
      hide EngineSpec.AcceptProposal, EngineSpec.AcceptVote;
      match message
      case SignedProposalMessage(p) => effects, error := AcceptProposal(p, validator);
      case SignedVoteMessage(v) => effects, error := AcceptVote(v, validator);
    }

    method ReceiveMessage(message: SignedMessage, validator: MessageValidator)
      returns (effects: seq<Effect>, error: Option<ConsensusError>)
      requires Valid()
      modifies this
      ensures Valid()
      ensures Outcome(View(), effects, error) == EngineSpec.ReceiveMessage(old(View()), message, validator)
    {
      hide EngineSpec.AcceptMessage, MessageFault;
      error := ValidateMessage(message, validator);
      if error.Some? {
        return [], error;
      }
      effects, error := AcceptMessage(message, validator);
    }

    /** `persisted`: the signer slot is durable, so the message may be broadcast and counted. */
    method AcknowledgePersisted(message: SignedMessage, validator: MessageValidator)
      returns (effects: seq<Effect>, error: Option<ConsensusError>)
      requires Valid()
      modifies this
      ensures Valid()
      ensures Outcome(View(), effects, error) == EngineSpec.AcknowledgePersisted(old(View()), message, validator)
    {
      hide EngineSpec.AcceptMessage, MessageFault;
      var key := message.Signable().Key();
      if key !in pendingPersistence || pendingPersistence[key] != message.Signable() {
        return [], Some(UnexpectedPersistedMessage);
      }
      error := ValidateMessage(message, validator);
      if error.Some? {
        return [], error;
      }
      pendingPersistence := pendingPersistence - {key};
      effects, error := AcceptMessage(message, validator);
      effects := [Broadcast(message)] + effects;
    }

    method HandleTimeout(timeout: Timeout, validator: MessageValidator)
      returns (effects: seq<Effect>, error: Option<ConsensusError>)
      requires Valid()
      modifies this
      ensures Valid()
      ensures Outcome(View(), effects, error) == EngineSpec.HandleTimeout(old(View()), timeout, validator)
    {
      hide EngineSpec.CastVote, EngineSpec.EvaluateRound, EngineSpec.EnterRound, CurrentTimeout;
      if timeout != PhaseTimeout(phase) {
        return [], None;
      }
      match phase
      case Propose =>
        effects, error := TimeOutVoting(VoteKind.Prevote, validator);
      case Prevote =>
        effects, error := TimeOutVoting(VoteKind.Precommit, validator);
      case Precommit =>
        if round >= U32_MAX {
          return [], Some(RoundLimitReached(round));
        }
        effects, error := EnterRound(round + 1, validator);
      case Finalized =>
        return [], None;
    }

    method TimeOutVoting(kind: VoteKind, validator: MessageValidator)
      returns (effects: seq<Effect>, error: Option<ConsensusError>)
      requires Valid()
      modifies this
      ensures Valid()
      ensures var first := EngineSpec.CastVote(old(View()), kind, Nil);
        Outcome(View(), effects, error)
        == Chain(first, EngineSpec.EvaluateRound(first.engine, first.engine.round, validator))
    {
      hide EngineSpec.CastVote, EngineSpec.EvaluateRound;
      effects := CastVote(kind, Nil);
      var more;
      more, error := EvaluateRound(round, validator);
      effects := effects + more;
    }

    /** `step`: the new fields and the reply are those of the specification, for every event. */
    method Step(event: Event, validator: MessageValidator) returns (reply: Result<seq<Effect>, ConsensusError>)
      requires Valid()
      modifies this
      ensures Valid()
      ensures View() == EngineSpec.Step(old(View()), event, validator).engine
      ensures reply == EngineSpec.Step(old(View()), event, validator).Reply()
    {
      hide EngineSpec.EnterRound, CertificateFault, FinalizeWith, AcceptBuiltBlock,
           EngineSpec.ReceiveMessage, EngineSpec.AcknowledgePersisted, EngineSpec.HandleTimeout;
      var effects, error := [], None;
      if event.Start? {
        if started {
          return Err(AlreadyStarted);
        }
        started := true;
        effects, error := EnterRound(round, validator);
        return if error.Some? then Err(error.value) else Ok(effects);
      }
      if event.Certificate? {
        error := ValidateCertificate(event.certificate, validator);
        if error.Some? {
          return Err(error.value);
        }
        effects, error := Finalize(event.certificate);
        return if error.Some? then Err(error.value) else Ok(effects);
      }
      if !started {
        return Err(NotStarted);
      }
      if finalized.Some? {
        return Ok([]);
      }
      match event {
        case ProposalReady(height, round, blockId) => effects, error := ProposalReady(height, round, blockId);
        case Message(message) => effects, error := ReceiveMessage(message, validator);
        case Persisted(message) => effects, error := AcknowledgePersisted(message, validator);
        case TimeoutEvent(timeout) => effects, error := HandleTimeout(timeout, validator);
      }
      return if error.Some? then Err(error.value) else Ok(effects);
    }
  }

  lemma WindowOf(e: Engine)
    ensures var minimum := SaturatingSub(e.round, RetainedBefore(e.config));
      var maximum := SaturatingAdd(e.round, e.config.maxRoundAhead, U32_MAX);
      forall r: nat :: Cacheable(e, r) <==> minimum <= r <= maximum
  {
  }

  /** The engine with only the entries of the given rounds in its caches. */
  ghost function Retained(e: Engine, minimum: nat, maximum: nat): Engine
  {
    e.(proposals := (map r | r in e.proposals && minimum <= r <= maximum :: e.proposals[r]),
       votes := (map s | s in e.votes && minimum <= s.round <= maximum :: e.votes[s]),
       requestedProposals := (set r | r in e.requestedProposals && minimum <= r <= maximum),
       localDecisions := (map k | k in e.localDecisions && minimum <= k.round <= maximum :: e.localDecisions[k]),
       pendingPersistence := (map k | k in e.pendingPersistence && minimum <= k.round <= maximum :: e.pendingPersistence[k]))
  }

  lemma PrunedParts(e: Engine, minimum: nat, maximum: nat)
    requires forall r: nat :: Cacheable(e, r) <==> minimum <= r <= maximum
    ensures EngineSpec.PruneCaches(e) == Retained(e, minimum, maximum)
  {
    hide Cacheable;
    var pruned, kept := EngineSpec.PruneCaches(e), Retained(e, minimum, maximum);
    assert pruned.proposals == kept.proposals;
    assert pruned.votes == kept.votes;
    assert pruned.requestedProposals == kept.requestedProposals;
    assert pruned.localDecisions == kept.localDecisions;
    assert pruned.pendingPersistence == kept.pendingPersistence;
  }

  lemma PruneKeepsRest(e: Engine)
    ensures var kept := EngineSpec.PruneCaches(e);
      kept.height == e.height && kept.round == e.round && kept.localId == e.localId && kept.validators == e.validators
      && kept.config == e.config && kept.validBlock == e.validBlock && kept.validRound == e.validRound
  {
  }

  lemma {:induction false} FaultStays(
    e: Engine, proof: seq<SignedVote>, count: nat, total: nat, round: nat, kind: VoteKind, blockId: BlockId,
    mismatch: ConsensusError, validator: MessageValidator)
    requires count <= total <= |proof|
    requires FirstFault(e, proof, count, round, kind, blockId, mismatch, validator).Some?
    ensures FirstFault(e, proof, total, round, kind, blockId, mismatch, validator)
      == FirstFault(e, proof, count, round, kind, blockId, mismatch, validator)
    decreases total
  {
    if count < total {
      FaultStays(e, proof, count, total - 1, round, kind, blockId, mismatch, validator);
    }
  }
}
