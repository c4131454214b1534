/** Facts about `quorum_votes` and about the quorum-proof loops of the engine. */
module VoteCounting {
  import opened Wrappers
  import opened Quorums
  import opened ConsensusTypes
  import opened EngineSpec

  function VotersAmong(votes: map<ValidatorId, SignedVote>, ids: seq<ValidatorId>, value: VoteValue): set<ValidatorId>
  {
    set v | v in Voters(votes, value) && v in ids
  }

  /** `chosen` consists of cached votes for `value` by the listed validators, in ascending order. */
  ghost predicate Lists(votes: map<ValidatorId, SignedVote>, ids: seq<ValidatorId>, value: VoteValue, chosen: seq<SignedVote>)
  {
    && (forall i {:trigger chosen[i]} :: 0 <= i < |chosen| ==>
          && chosen[i].vote.validator in votes
          && chosen[i].vote.validator in ids
          && votes[chosen[i].vote.validator] == chosen[i]
          && chosen[i].vote.value == value)
    && (forall i, j {:trigger chosen[i], chosen[j]} :: 0 <= i < j < |chosen| ==>
          chosen[i].vote.validator < chosen[j].vote.validator)
  }

  lemma {:induction false} SelectLists(votes: map<ValidatorId, SignedVote>, ids: seq<ValidatorId>, value: VoteValue)
    requires Ascending(ids)
    requires forall v :: v in votes ==> votes[v].vote.validator == v
    ensures Lists(votes, ids, value, Select(votes, ids, value))
    decreases |ids|
  {
    if ids != [] {
      var init, last := ids[..|ids| - 1], ids[|ids| - 1];
      SelectLists(votes, init, value);
      assert forall v :: v in init ==> v in ids && v < last;
      var rest := Select(votes, init, value);
      if last in votes && votes[last].vote.value == value {
        var chosen := rest + [votes[last]];
        assert Select(votes, ids, value) == chosen;
        forall i | 0 <= i < |chosen|
          ensures chosen[i].vote.validator in votes && chosen[i].vote.validator in ids
            && votes[chosen[i].vote.validator] == chosen[i] && chosen[i].vote.value == value
        {
          assert i < |rest| ==> chosen[i] == rest[i];
        }
        forall i, j | 0 <= i < j < |chosen| ensures chosen[i].vote.validator < chosen[j].vote.validator {
          assert chosen[i] == rest[i];
          assert j < |rest| ==> chosen[j] == rest[j];
        }
      }
    }
  }

  lemma {:induction false} SelectCount(votes: map<ValidatorId, SignedVote>, ids: seq<ValidatorId>, value: VoteValue)
    requires Ascending(ids)
    ensures |Select(votes, ids, value)| == |VotersAmong(votes, ids, value)|
    decreases |ids|
  {
    if ids == [] {
      assert VotersAmong(votes, ids, value) == {};
    } else {
      var init, last := ids[..|ids| - 1], ids[|ids| - 1];
      SelectCount(votes, init, value);
      var before, after := VotersAmong(votes, init, value), VotersAmong(votes, ids, value);
      assert forall v :: v in ids <==> v in init || v == last;
      assert last !in init;
      if last in votes && votes[last].vote.value == value {
        assert after == before + {last};
      } else {
        assert after == before;
      }
    }
  }

  /** What a returned quorum is: all voters for the first value that has a quorum, in id order. */
  lemma QuorumVotesAre(e: Engine, round: nat, kind: VoteKind)
    requires forall v :: v in SlotVotes(e, round, kind) ==> SlotVotes(e, round, kind)[v].vote.validator == v
    ensures var votes := SlotVotes(e, round, kind);
      match QuorumVotes(e, round, kind)
      case None => forall value :: !IsQuorumValue(votes, value, e.validators.Quorum())
      case Some((value, proof)) =>
        && IsQuorumValue(votes, value, e.validators.Quorum())
        && |proof| == |Voters(votes, value)|
        && Lists(votes, SortedIds(votes.Keys), value, proof)
  {
    var votes := SlotVotes(e, round, kind);
    match QuorumVotes(e, round, kind)
    case None =>
    case Some((value, proof)) =>
      SelectLists(votes, SortedIds(votes.Keys), value);
      SelectCount(votes, SortedIds(votes.Keys), value);
      assert VotersAmong(votes, SortedIds(votes.Keys), value) == Voters(votes, value);
  }

  /** The value order is well founded, so some value is first as soon as any value has a quorum. */
  lemma {:induction false} FirstQuorumExists(votes: map<ValidatorId, SignedVote>, value: VoteValue, quorum: nat)
    requires HasQuorum(votes, value, quorum)
    ensures exists first :: IsQuorumValue(votes, first, quorum)
    decreases value.Block?, if value.Block? then value.id else 0
  {
    if !IsQuorumValue(votes, value, quorum) {
      var other :| ValueBefore(other, value) && HasQuorum(votes, other, quorum);
      FirstQuorumExists(votes, other, quorum);
    }
  }

  /** With one vote per member of a set of `n` validators, at most one value has a quorum. */
  lemma QuorumValueUnique(votes: map<ValidatorId, SignedVote>, validators: set<ValidatorId>, a: VoteValue, b: VoteValue)
    requires votes.Keys <= validators && validators != {}
    requires HasQuorum(votes, a, QuorumSize(|validators|)) && HasQuorum(votes, b, QuorumSize(|validators|))
    ensures a == b
  {
    var v := HonestOverlap(validators, {}, Voters(votes, a), Voters(votes, b));
  }

  ghost predicate VoteAccepted(e: Engine, signed: SignedVote, round: nat, kind: VoteKind, blockId: BlockId, validator: MessageValidator)
  {
    && |signed.signature| <= e.config.maxSignatureBytes
    && VoteStructureFault(e, signed).None?
    && signed.vote.round == round && signed.vote.kind == kind && signed.vote.value == Block(blockId)
    && validator.validateVote(signed).Accept?
  }

  /** All votes of a quorum proof pass, and no signer appears twice. */
  ghost predicate ProofAccepted(e: Engine, proof: seq<SignedVote>, round: nat, kind: VoteKind, blockId: BlockId, validator: MessageValidator)
  {
    && (forall i :: 0 <= i < |proof| ==> VoteAccepted(e, proof[i], round, kind, blockId, validator))
    && (forall i, j :: 0 <= i < j < |proof| ==> proof[i].vote.validator != proof[j].vote.validator)
  }

  /** The three proof loops report no fault exactly on distinct, matching, authentic votes. */
  lemma ProofFaultNone(
    e: Engine, proof: seq<SignedVote>, round: nat, kind: VoteKind, blockId: BlockId,
    mismatch: ConsensusError, validator: MessageValidator)
    ensures ProofFault(e, proof, round, kind, blockId, mismatch, validator).None?
      <==> ProofAccepted(e, proof, round, kind, blockId, validator)
  {
    FirstFaultNone(e, proof, |proof|, round, kind, blockId, mismatch, validator);
    if ProofAccepted(e, proof, round, kind, blockId, validator) {
      forall i | 0 <= i < |proof|
        ensures ProofVoteFault(e, proof, i, round, kind, blockId, mismatch, validator).None?
      {
      }
    } else if forall i :: 0 <= i < |proof| ==> ProofVoteFault(e, proof, i, round, kind, blockId, mismatch, validator).None? {
      forall i | 0 <= i < |proof| ensures VoteAccepted(e, proof[i], round, kind, blockId, validator) {
        assert ProofVoteFault(e, proof, i, round, kind, blockId, mismatch, validator).None?;
      }
      forall i, j | 0 <= i < j < |proof| ensures proof[i].vote.validator != proof[j].vote.validator {
        assert ProofVoteFault(e, proof, j, round, kind, blockId, mismatch, validator).None?;
      }
      assert false;
    }
  }

  lemma {:induction false} FirstFaultNone(
    e: Engine, proof: seq<SignedVote>, count: nat, round: nat, kind: VoteKind, blockId: BlockId,
    mismatch: ConsensusError, validator: MessageValidator)
    requires count <= |proof|
    ensures FirstFault(e, proof, count, round, kind, blockId, mismatch, validator).None?
      <==> forall i :: 0 <= i < count ==> ProofVoteFault(e, proof, i, round, kind, blockId, mismatch, validator).None?
    decreases count
  {
    if count > 0 {
      FirstFaultNone(e, proof, count - 1, round, kind, blockId, mismatch, validator);
    }
  }
}
