/** From votes to money: consensus safety carried over to the ledgers of all replicas. */
module Finality {
  import opened Wrappers
  import opened Quorums
  import opened ConsensusTypes
  import opened Protocol
  import opened Network
  import opened Certificates
  import opened Recovery
  import opened Agreement
  import opened Blocks
  import opened LedgerSpec
  import opened LedgerInvariant

  /** What `verify` accepts shows that a quorum precommitted the block. */
  lemma VerifiedCommits(w: World, auth: Signatures, p: ProtocolCertificate, genuine: SignedVote -> bool)
    requires Verified(p, w.validators.validators, genuine)
    requires p.chainId == w.config.chainId && p.height == w.height
    requires forall signed :: genuine(signed) && signed.vote.height == w.height ==> signed in auth
    ensures Committed(w, auth, p.round, p.blockHash)
  {
    var ids := SignerSet(p.signatures);
    StrictCount(p.signatures);
    var signers := Signers(w, auth, p.round, VoteKind.Precommit, Block(p.blockHash));
    forall v | v in ids ensures v in signers {
      var s :| s in p.signatures && s.validator == v;
      var i :| 0 <= i < |p.signatures| && p.signatures[i] == s;
      assert Endorsed(p, p.signatures[i], w.validators.validators, genuine);
      var signed := SignedPrecommit(p, s);
      assert signed in auth && Supports(w, signed.vote, p.round, VoteKind.Precommit, Block(p.blockHash));
    }
    SubsetSize(ids, signers);
  }

  /** At one height, all certificates that pass `verify` are for one block, whatever their rounds. */
  lemma VerifiedCertificatesAgree(w: World, s: Net, p: ProtocolCertificate, q: ProtocolCertificate, genuine: SignedVote -> bool)
    requires w.Valid() && w.FaultsBounded() && NetSound(w, s)
    requires Verified(p, w.validators.validators, genuine) && Verified(q, w.validators.validators, genuine)
    requires p.chainId == q.chainId == w.config.chainId && p.height == q.height == w.height
    requires forall signed :: genuine(signed) && signed.vote.height == w.height ==> signed in s.auth
    ensures p.blockHash == q.blockHash
  {
    hide Verified, NetSound, Committed;
    VerifiedCommits(w, s.auth, p, genuine);
    VerifiedCommits(w, s.auth, q, genuine);
    OneCommittedBlock(w, s, p.round, p.blockHash, q.round, q.blockHash);
  }

  /** A run of the consensus network of one height of a chain, after which all genuine votes are signed. */
  ghost predicate Governs(
    w: World, states: seq<Net>, actions: seq<Action>, chainId: string, validators: seq<ValidatorId>, height: nat,
    genuine: SignedVote -> bool)
  {
    && w.Valid() && w.FaultsBounded()
    && w.config.chainId == chainId && w.validators.validators == validators && w.height == height
    && Run(w, states, actions)
    && forall signed :: genuine(signed) && signed.vote.height == height ==> signed in states[|actions|].auth
  }

  /**
   * End to end: if fewer than a third of the validators are faulty at the last common height, any two
   * replicas that verified certified histories hold the same blocks and the same ledger up to it.
   */
  lemma ReplicasAgree(
    c: Crypto, chainId: string, a: seq<Certified>, b: seq<Certified>, validators: seq<ValidatorId>,
    genuine: SignedVote -> bool, w: World, states: seq<Net>, actions: seq<Action>)
    requires HashesBind(c) && ChainIdValid(chainId) && 0 < |a| <= |b|
    requires ReplaysFinalized(c, chainId, a, validators, genuine) && ReplaysFinalized(c, chainId, b, validators, genuine)
    requires Governs(w, states, actions, chainId, validators, |a|, genuine)
    ensures BlocksOf(a) == BlocksOf(b)[..|a|]
    ensures Replay(c, chainId, BlocksOf(a)) == Replay(c, chainId, BlocksOf(b)[..|a|])
  {
    hide Init, Next, NetSound, ReplaysFinalized, HashesBind, Verified, Replay, World.Valid, World.FaultsBounded, ChainIdValid;
    var n := |a| - 1;
    var b' := b[..|a|];
    PrefixReplays(c, chainId, b, |a|, validators, genuine);
    LastHeight(c, chainId, a, validators, genuine);
    LastHeight(c, chainId, b', validators, genuine);
    RunSound(w, states, actions, |actions|);
    VerifiedCertificatesAgree(w, states[|actions|], a[n].certificate, b'[n].certificate, genuine);
    SameIdSameLedger(c, chainId, a, b', validators, genuine);
  }

  lemma LastHeight(c: Crypto, chainId: string, a: seq<Certified>, validators: seq<ValidatorId>, genuine: SignedVote -> bool)
    requires ChainIdValid(chainId) && a != [] && ReplaysFinalized(c, chainId, a, validators, genuine)
    ensures var certificate := a[|a| - 1].certificate;
      && certificate.height == |a| && certificate.chainId == chainId
      && Verified(certificate, validators, genuine)
  {
    hide Verified, Sound, ApplyBlock;
    GenesisSound(chainId);
    var blocks := BlocksOf(a);
    assert CertifiesBlock(c, a[|a| - 1].certificate, a[|a| - 1].block, validators, genuine);
    ReplayKeepsSound(c, Genesis(chainId), blocks);
    ReplayKeepsSound(c, Genesis(chainId), blocks[..|blocks| - 1]);
    ApplyBlockKeepsSound(c, ReplayFrom(c, Genesis(chainId), blocks[..|blocks| - 1]).value, blocks[|blocks| - 1]);
  }
}
