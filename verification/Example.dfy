/**
 * The hypotheses of the end-to-end theorems can be met together: an encoding of blocks and
 * transactions as numbers that binds them, and a network of four validators, one of them Byzantine,
 * that certifies a first block.
 */
module Example {
  import opened Wrappers
  import opened Quorums
  import opened ConsensusTypes
  import opened EngineSpec
  import opened Protocol
  import opened Network
  import opened ConsensusEngine
  import opened Certificates
  import opened Merkle
  import opened LedgerSpec
  import opened LedgerInvariant
  import opened Blocks
  import opened Finality
  import opened WitnessSteps
  import opened Witness
  import Radix
  import Rotation

  // ---------------------------------------------------------------- numbers for lists of numbers

  /** A list of numbers as one number, without collisions. */
  function Code(xs: seq<nat>): nat
  {
    if xs == [] then 0 else Radix.Pow(2, xs[0]) * (2 * Code(xs[1..]) + 1)
  }

  lemma Halve(x: nat, odd: nat)
    ensures x > 0 ==> Radix.Pow(2, x) * odd == 2 * (Radix.Pow(2, x - 1) * odd)
    ensures x == 0 ==> Radix.Pow(2, x) * odd == odd
  {
    if x > 0 {
      Radix.Associate(2, Radix.Pow(2, x - 1), odd);
    }
  }

  lemma {:induction false} OddPart(x: nat, m: nat, y: nat, n: nat)
    requires Radix.Pow(2, x) * (2 * m + 1) == Radix.Pow(2, y) * (2 * n + 1)
    ensures x == y && m == n
    decreases x
  {
    hide Radix.Pow;
    Halve(x, 2 * m + 1);
    Halve(y, 2 * n + 1);
    if x > 0 && y > 0 {
      OddPart(x - 1, m, y - 1, n);
    }
  }

  lemma CodePositive(xs: seq<nat>)
    ensures Code(xs) == 0 <==> xs == []
  {
    if xs != [] {
      Radix.PowPositive(2, xs[0]);
      assert Radix.Pow(2, xs[0]) * (2 * Code(xs[1..]) + 1) > 0;
    }
  }

  lemma {:induction false} CodeBinds(a: seq<nat>, b: seq<nat>)
    requires Code(a) == Code(b)
    ensures a == b
    decreases |a|
  {
    CodePositive(a);
    CodePositive(b);
    if a != [] {
      OddPart(a[0], Code(a[1..]), b[0], Code(b[1..]));
      CodeBinds(a[1..], b[1..]);
      assert a == [a[0]] + a[1..] && b == [b[0]] + b[1..];
    }
  }

  // ---------------------------------------------------------------- numbers for blocks and transactions

  function TextCode(s: string): nat
  {
    Code(seq(|s|, i requires 0 <= i < |s| => s[i] as nat))
  }

  function BytesCode(s: Signature): nat
  {
    Code(seq(|s|, i requires 0 <= i < |s| => s[i] as nat))
  }

  function NameCode(name: Option<string>): nat
  {
    match name
    case None => 0
    case Some(s) => TextCode(s) + 1
  }

  function ActionCode(action: TransactionAction): nat
  {
    match action
    case Transfer(recipient, amount) => Code([0, recipient, amount])
    case ClaimReward(id, answer) => Code([1, id, answer])
    case SetDisplayName(name) => Code([2, NameCode(name)])
  }

  function TransactionCode(tx: SignedTransaction): Hash
  {
    var u := tx.unsigned;
    Code([u.protocolVersion, TextCode(u.chainId), u.senderPublicKey, u.nonce, u.expiryHeight, ActionCode(u.action), BytesCode(tx.signature)])
  }

  function HeaderCode(h: BlockHeader): Hash
  {
    Code([h.protocolVersion, TextCode(h.chainId), h.height, h.parentHash, h.proposer, h.round, h.timestampMs, h.transactionsRoot, h.stateRoot])
  }

  lemma TextBinds(a: string, b: string)
    requires TextCode(a) == TextCode(b)
    ensures a == b
  {
    var x := seq(|a|, i requires 0 <= i < |a| => a[i] as nat);
    var y := seq(|b|, i requires 0 <= i < |b| => b[i] as nat);
    CodeBinds(x, y);
    assert |a| == |x| == |y| == |b|;
    forall i | 0 <= i < |a| ensures a[i] == b[i] {
      assert x[i] == y[i];
    }
  }

  lemma BytesBind(a: Signature, b: Signature)
    requires BytesCode(a) == BytesCode(b)
    ensures a == b
  {
    var x := seq(|a|, i requires 0 <= i < |a| => a[i] as nat);
    var y := seq(|b|, i requires 0 <= i < |b| => b[i] as nat);
    CodeBinds(x, y);
    assert |a| == |x| == |y| == |b|;
    forall i | 0 <= i < |a| ensures a[i] == b[i] {
      assert x[i] == y[i];
    }
  }

  lemma ActionBinds(a: TransactionAction, b: TransactionAction)
    requires ActionCode(a) == ActionCode(b)
    ensures a == b
  {
    hide Code, TextCode;
    var x := Fields(a);
    var y := Fields(b);
    CodeBinds(x, y);
    assert x[0] == y[0] && |x| == |y|;
    if a.SetDisplayName? {
      assert x[1] == y[1];
      if a.displayName.Some? {
        TextBinds(a.displayName.value, b.displayName.value);
      }
    } else {
      assert x[1] == y[1] && x[2] == y[2];
    }
  }

  function Fields(action: TransactionAction): (fields: seq<nat>)
    ensures ActionCode(action) == Code(fields)
  {
    match action
    case Transfer(recipient, amount) => [0, recipient, amount]
    case ClaimReward(id, answer) => [1, id, answer]
    case SetDisplayName(name) => [2, NameCode(name)]
  }

  lemma TransactionBinds(a: SignedTransaction, b: SignedTransaction)
    requires TransactionCode(a) == TransactionCode(b)
    ensures a == b
  {
    hide Code, TextCode, BytesCode, ActionCode;
    var u, v := a.unsigned, b.unsigned;
    var x := [u.protocolVersion, TextCode(u.chainId), u.senderPublicKey, u.nonce, u.expiryHeight, ActionCode(u.action), BytesCode(a.signature)];
    var y := [v.protocolVersion, TextCode(v.chainId), v.senderPublicKey, v.nonce, v.expiryHeight, ActionCode(v.action), BytesCode(b.signature)];
    CodeBinds(x, y);
    assert x[0] == y[0] && x[1] == y[1] && x[2] == y[2] && x[3] == y[3] && x[4] == y[4] && x[5] == y[5] && x[6] == y[6];
    TextBinds(u.chainId, v.chainId);
    ActionBinds(u.action, v.action);
    BytesBind(a.signature, b.signature);
  }

  lemma HeaderBinds(a: BlockHeader, b: BlockHeader)
    requires HeaderCode(a) == HeaderCode(b)
    ensures a == b
  {
    hide Code, TextCode;
    var x := [a.protocolVersion, TextCode(a.chainId), a.height, a.parentHash, a.proposer, a.round, a.timestampMs, a.transactionsRoot, a.stateRoot];
    var y := [b.protocolVersion, TextCode(b.chainId), b.height, b.parentHash, b.proposer, b.round, b.timestampMs, b.transactionsRoot, b.stateRoot];
    CodeBinds(x, y);
    assert x[0] == y[0] && x[1] == y[1] && x[2] == y[2] && x[3] == y[3] && x[4] == y[4];
    assert x[5] == y[5] && x[6] == y[6] && x[7] == y[7] && x[8] == y[8];
    TextBinds(a.chainId, b.chainId);
  }

  function LeafCode(x: Hash): Hash { Code([0, x]) }

  function NodeCode(a: Hash, b: Hash): Hash { Code([1, a, b]) }

  function EmptyCode(): Hash { Code([2]) }

  function CodedHashing(): Hashing
  {
    Hashing(EmptyCode(), LeafCode, NodeCode)
  }

  lemma LeafBinds(x: Hash, y: Hash)
    requires LeafCode(x) == LeafCode(y)
    ensures x == y
  {
    hide Code;
    CodeBinds([0, x], [0, y]);
    assert [0, x][1] == [0, y][1];
  }

  lemma NodeBinds(a: Hash, b: Hash, c: Hash, d: Hash)
    requires NodeCode(a, b) == NodeCode(c, d)
    ensures a == c && b == d
  {
    hide Code;
    CodeBinds([1, a, b], [1, c, d]);
    assert [1, a, b][1] == [1, c, d][1] && [1, a, b][2] == [1, c, d][2];
  }

  lemma DomainsDiffer(xs: seq<nat>, ys: seq<nat>)
    requires |xs| > 0 && |ys| > 0 && xs[0] != ys[0]
    ensures Code(xs) != Code(ys)
  {
    hide Code;
    if Code(xs) == Code(ys) {
      CodeBinds(xs, ys);
    }
  }

  lemma CodedHashingIsFree()
    ensures CollisionFree(CodedHashing())
  {
    hide LeafCode, NodeCode, EmptyCode;
    var h := CodedHashing();
    forall x, y | h.leaf(x) == h.leaf(y) ensures x == y {
      LeafBinds(x, y);
    }
    forall a, b, c, d | h.node(a, b) == h.node(c, d) ensures a == c && b == d {
      NodeBinds(a, b, c, d);
    }
    CodesDiffer();
  }

  lemma CodesDiffer()
    ensures forall x: Hash, a: Hash, b: Hash :: LeafCode(x) != NodeCode(a, b)
    ensures forall x: Hash :: LeafCode(x) != EmptyCode()
    ensures forall a: Hash, b: Hash :: NodeCode(a, b) != EmptyCode()
  {
    hide Code;
    forall x: Hash, a: Hash, b: Hash ensures LeafCode(x) != NodeCode(a, b) {
      DomainsDiffer([0, x], [1, a, b]);
    }
    forall x: Hash ensures LeafCode(x) != EmptyCode() {
      DomainsDiffer([0, x], [2]);
    }
    forall a: Hash, b: Hash ensures NodeCode(a, b) != EmptyCode() {
      DomainsDiffer([1, a, b], [2]);
    }
  }

  /** Numbers in place of hashes, and a world in which every signature is good. */
  function Coded(): Crypto
  {
    Crypto(TransactionCode, key => key, _ => true, _ => true, s => |s|, _ => true, _ => 0, _ => 0, HeaderCode, CodedHashing())
  }

  lemma CodedBinds()
    ensures HashesBind(Coded())
  {
    hide TransactionCode, HeaderCode, CollisionFree;
    CodedHashingIsFree();
    var c := Coded();
    forall x, y | c.transactionId(x) == c.transactionId(y) ensures x == y {
      TransactionBinds(x, y);
    }
    forall x, y | c.blockId(x) == c.blockId(y) ensures x == y {
      HeaderBinds(x, y);
    }
  }

  // ---------------------------------------------------------------- a certified first block

  /** The certificate of a quorum of votes with empty signatures. */
  ghost function QuorumCertificate(w: World, b: BlockId, quorum: set<ValidatorId>): ProtocolCertificate
  {
    var ids := SortedIds(quorum);
    ProtocolCertificate(Certificates.PROTOCOL_VERSION, w.config.chainId, w.height, 0, b,
      seq(|ids|, i requires 0 <= i < |ids| => CommitSignature(ids[i], [])))
  }

  lemma {:induction false} AscendingSize(ids: seq<ValidatorId>, members: set<ValidatorId>)
    requires Ascending(ids) && forall v :: v in ids <==> v in members
    ensures |ids| == |members|
  {
    DistinctCount(ids);
    assert ToSet(ids) == members;
  }

  lemma QuorumCertificateVerifies(w: World, b: BlockId, quorum: set<ValidatorId>, genuine: SignedVote -> bool)
    requires w.Valid() && quorum <= w.validators.Ids() && |quorum| == w.validators.Quorum()
    requires 58 + |w.config.chainId| + 96 * |quorum| <= MAX_COMMIT_CERTIFICATE_BYTES
    requires forall x :: x in quorum ==> genuine(SignedAs(w, x, b, VoteKind.Precommit))
    ensures Verified(QuorumCertificate(w, b, quorum), w.validators.validators, genuine)
  {
    var c := QuorumCertificate(w, b, quorum);
    var ids := SortedIds(quorum);
    AscendingSize(ids, quorum);
    hide SortedIds;
    forall i | 0 <= i < |c.signatures| ensures Endorsed(c, c.signatures[i], w.validators.validators, genuine) {
      assert ids[i] in ids && ids[i] in quorum;
      assert SignedPrecommit(c, c.signatures[i]) == SignedAs(w, ids[i], b, VoteKind.Precommit);
    }
  }

  /**
   * The hypotheses of ReplicasAgree and NodesAgree hold together: for every world of height one with
   * an honest first proposer and a small enough quorum, there are a run and a certified history that
   * the run governs.
   */
  lemma GovernedHistoryExists(c: Crypto, w: World, p: ValidatorId, quorum: set<ValidatorId>, wallClockMs: nat)
    returns (history: seq<Certified>, genuine: SignedVote -> bool, states: seq<Net>, actions: seq<Action>)
    requires Setting(w, p, quorum) && w.FaultsBounded() && w.height == 1
    requires 58 + |w.config.chainId| + 96 * |quorum| <= MAX_COMMIT_CERTIFICATE_BYTES
    ensures |history| == 1 && ReplaysFinalized(c, w.config.chainId, history, w.validators.validators, genuine)
    ensures Governs(w, states, actions, w.config.chainId, w.validators.validators, 1, genuine)
  {
    var block := FirstBlockOf(c, w, p, wallClockMs);
    var b := c.blockId(block.header);
    var s := QuorumCanDecide(w, p, b, quorum);
    states, actions := RunTo(w, s);
    var auth := s.auth;
    genuine := signed => signed in auth;
    QuorumCertificateVerifies(w, b, quorum, genuine);
    history := [Blocks.Certified(block, QuorumCertificate(w, b, quorum))];
    assert BlocksOf(history) == [block];
    ReplaysOne(c, w.config.chainId, block);
    hide Verified, ApplyBlock;
    ProposerIsExpected(w, p);
  }

  lemma RunTo(w: World, s: Net) returns (states: seq<Net>, actions: seq<Action>)
    requires |w.validators.validators| > 0 && Reachable(w, s)
    ensures Run(w, states, actions) && states[|actions|] == s
  {
    hide Next, Init;
    states, actions :| Run(w, states, actions) && states[|actions|] == s;
  }

  lemma ProposerIsExpected(w: World, p: ValidatorId)
    requires w.Valid() && w.height == 1 && w.validators.Proposer(1, 0) == p
    ensures ExpectedProposer(w.validators.validators, 1, 0) == p
  {
    Rotation.RotationsAgreeIff(w.validators, 1, 0);
  }

  /** The proposer's block on a fresh ledger, which that ledger accepts. */
  lemma FirstBlockOf(c: Crypto, w: World, p: ValidatorId, wallClockMs: nat) returns (block: LedgerBlock)
    requires w.Valid()
    ensures ApplyBlock(c, Genesis(w.config.chainId), block).Ok?
    ensures block.header.height == 1 && block.header.round == 0 && block.header.proposer == p && block.header.chainId == w.config.chainId
  {
    var g := Genesis(w.config.chainId);
    GenesisSound(w.config.chainId);
    BuildSucceedsIff(c, g, p, 0, wallClockMs, []);
    BuiltBlockApplies(c, g, p, 0, wallClockMs, []);
    NodeProposalsFit(c, g, p, 0, wallClockMs, []);
    block := BuildBlock(c, g, p, 0, wallClockMs, []).value;
  }

  lemma ReplaysOne(c: Crypto, chainId: string, block: LedgerBlock)
    requires ApplyBlock(c, Genesis(chainId), block).Ok?
    ensures Replay(c, chainId, [block]).Ok?
  {
    hide ApplyBlock;
    assert [block][..0] == [];
    assert ReplayFrom(c, Genesis(chainId), []) == Ok(Genesis(chainId));
  }

  // ---------------------------------------------------------------- four validators, one of them Byzantine

  const CHAIN: string := "kcoin-local"

  function Four(): World
  {
    World(ValidatorSet([0, 1, 2, 3]), ConsensusConfig(CHAIN, 0, 0, 0, 0, 1, 0, 10, 64), 1, {3})
  }

  lemma FourIsASetting()
    ensures Setting(Four(), 0, {0, 1, 3}) && Four().FaultsBounded() && !Four().Honest(3) && Four().Honest(2)
  {
    var w := Four();
    assert w.validators.Ids() == {0, 1, 2, 3};
    assert ChainIdValid(CHAIN);
  }

  /** With validator 3 Byzantine and validator 2 silent, the other two and the Byzantine one decide any block. */
  lemma FourDecide(b: BlockId) returns (s: Net)
    ensures |Four().validators.validators| > 0 && Reachable(Four(), s)
    ensures exists d :: d in s.decided && d.0 == 0 && d.1.blockId == b
  {
    hide Setting, Reachable;
    FourIsASetting();
    s := QuorumCanDecide(Four(), 0, b, {0, 1, 3});
  }

  /** All hypotheses of ReplicasAgree at once, for the coded world. */
  lemma HypothesesAreMet()
    returns (history: seq<Certified>, genuine: SignedVote -> bool, states: seq<Net>, actions: seq<Action>)
    ensures HashesBind(Coded()) && ChainIdValid(CHAIN) && |history| == 1
    ensures ReplaysFinalized(Coded(), CHAIN, history, Four().validators.validators, genuine)
    ensures Governs(Four(), states, actions, CHAIN, Four().validators.validators, |history|, genuine)
  {
    CodedBinds();
    FourIsASetting();
    hide Setting, HashesBind, ReplaysFinalized, Governs;
    history, genuine, states, actions := GovernedHistoryExists(Coded(), Four(), 0, {0, 1, 3}, 0);
  }
}
