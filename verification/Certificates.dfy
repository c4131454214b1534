/**
 * Protocol commit certificates (`crates/kcoin-protocol/src/commit.rs`) and their translation to and
 * from consensus certificates (`crates/kcoin-consensus/src/types.rs`).
 */
module Certificates {
  import opened Wrappers
  import opened Quorums
  import opened ConsensusTypes
  import opened Protocol

  const PROTOCOL_VERSION: nat := 1
  const MAX_COMMIT_CERTIFICATE_BYTES: nat := 64 * 1024
  const SIGNATURE_BYTES: nat := 64

  datatype CommitSignature = CommitSignature(validator: ValidatorId, signature: Signature)

  datatype ProtocolCertificate = ProtocolCertificate(
    protocolVersion: nat,
    chainId: string,
    height: nat,
    round: nat,
    blockHash: BlockId,
    signatures: seq<CommitSignature>)
  {
    /** Length of the Borsh encoding: fixed-width fields, a length-prefixed id and 96 bytes a signature. */
    function EncodedSize(): nat
    {
      2 + (4 + |chainId|) + 8 + 4 + 32 + 4 + 96 * |signatures|
    }
  }

  datatype CertificateError =
    | PayloadTooLarge
    | UnsupportedProtocolVersion
    | InvalidChainId
    | InvalidCommitCertificate
    | UnauthorizedValidator
    | DuplicateValidator
    | InvalidSignature
    | InsufficientQuorum(required: nat, actual: nat)

  datatype ConversionError = InvalidChain | MismatchedPrecommit | InvalidSignatureLength(actual: nat)

  // ---------------------------------------------------------------- canonical order

  /** Insert behind all signatures whose validator is not larger, as a stable sort does. */
  function Insert(signature: CommitSignature, sorted: seq<CommitSignature>): seq<CommitSignature>
  {
    if sorted == [] || sorted[|sorted| - 1].validator <= signature.validator then sorted + [signature]
    else Insert(signature, sorted[..|sorted| - 1]) + [sorted[|sorted| - 1]]
  }

  /** `sort_by_key(validator)`. */
  function SortByValidator(signatures: seq<CommitSignature>): seq<CommitSignature>
  {
    if signatures == [] then []
    else Insert(signatures[|signatures| - 1], SortByValidator(signatures[..|signatures| - 1]))
  }

  ghost predicate Ordered(signatures: seq<CommitSignature>)
  {
    forall i, j :: 0 <= i < j < |signatures| ==> signatures[i].validator <= signatures[j].validator
  }

  ghost predicate StrictlyOrdered(signatures: seq<CommitSignature>)
  {
    forall i, j :: 0 <= i < j < |signatures| ==> signatures[i].validator < signatures[j].validator
  }

  ghost predicate DistinctValidators(signatures: seq<CommitSignature>)
  {
    forall i, j :: 0 <= i < j < |signatures| ==> signatures[i].validator != signatures[j].validator
  }

  lemma AppendOrdered(signatures: seq<CommitSignature>, last: CommitSignature)
    requires Ordered(signatures) && forall s :: s in signatures ==> s.validator <= last.validator
    ensures Ordered(signatures + [last])
  {
    assert forall i :: 0 <= i < |signatures| ==> signatures[i] in signatures;
  }

  lemma LastIsLargest(init: seq<CommitSignature>, last: CommitSignature)
    requires Ordered(init + [last])
    ensures Ordered(init) && forall s :: s in init ==> s.validator <= last.validator
  {
    var all := init + [last];
    assert forall i :: 0 <= i < |init| ==> all[i] == init[i];
    assert all[|init|] == last;
  }

  lemma {:induction false} InsertSorts(s: CommitSignature, sorted: seq<CommitSignature>)
    requires Ordered(sorted)
    ensures Ordered(Insert(s, sorted))
    ensures multiset(Insert(s, sorted)) == multiset(sorted) + multiset{s}
    decreases |sorted|
  {
    hide Ordered;
    if sorted == [] {
      AppendOrdered([], s);
    } else {
      var init, last := sorted[..|sorted| - 1], sorted[|sorted| - 1];
      assert sorted == init + [last];
      LastIsLargest(init, last);
      if last.validator <= s.validator {
        AppendOrdered(sorted, s);
      } else {
        InsertSorts(s, init);
        var placed := Insert(s, init);
        forall p | p in placed ensures p.validator <= last.validator {
          assert p in multiset(placed);
        }
        AppendOrdered(placed, last);
      }
    }
  }

  lemma {:induction false} SortSorts(signatures: seq<CommitSignature>)
    ensures Ordered(SortByValidator(signatures))
    ensures multiset(SortByValidator(signatures)) == multiset(signatures)
    decreases |signatures|
  {
    if signatures != [] {
      var init := signatures[..|signatures| - 1];
      SortSorts(init);
      InsertSorts(signatures[|signatures| - 1], SortByValidator(init));
      assert signatures == init + [signatures[|signatures| - 1]];
    }
  }

  lemma SameMembers(a: seq<CommitSignature>, b: seq<CommitSignature>)
    requires multiset(a) == multiset(b)
    ensures |a| == |b|
    ensures forall s :: s in a <==> s in b
  {
    assert |multiset(a)| == |a| && |multiset(b)| == |b|;
    forall s ensures s in a <==> s in b {
      assert s in a <==> s in multiset(a);
      assert s in b <==> s in multiset(b);
    }
  }

  /** Sorting a list of distinct signers puts it in the canonical strict order. */
  lemma SortDistinct(signatures: seq<CommitSignature>)
    requires DistinctValidators(signatures)
    ensures StrictlyOrdered(SortByValidator(signatures))
    ensures |SortByValidator(signatures)| == |signatures|
    ensures forall s :: s in SortByValidator(signatures) <==> s in signatures
  {
    SortSorts(signatures);
    var sorted := SortByValidator(signatures);
    SameMembers(signatures, sorted);
    forall i, j | 0 <= i < j < |sorted| ensures sorted[i].validator < sorted[j].validator {
      assert sorted[i] in signatures && sorted[j] in signatures;
      if sorted[i].validator == sorted[j].validator {
        var x :| 0 <= x < |signatures| && signatures[x] == sorted[i];
        var y :| 0 <= y < |signatures| && signatures[y] == sorted[j];
        assert x == y;
        TwiceMeansTwice(sorted, i, j);
        OnceMeansOnce(signatures, x);
        assert false;
      }
    }
  }

  lemma TwiceMeansTwice(s: seq<CommitSignature>, i: nat, j: nat)
    requires i < j < |s| && s[i] == s[j]
    ensures multiset(s)[s[i]] >= 2
  {
    assert s == s[..i] + [s[i]] + s[i + 1..j] + [s[j]] + s[j + 1..];
  }

  lemma OnceMeansOnce(s: seq<CommitSignature>, i: nat)
    requires i < |s| && DistinctValidators(s)
    ensures multiset(s)[s[i]] == 1
  {
    assert s == s[..i] + [s[i]] + s[i + 1..];
    assert s[i] !in s[..i] && s[i] !in s[i + 1..];
  }

  // ---------------------------------------------------------------- verification

  /** The commit vote a signature of the certificate is over, in the consensus crate's terms. */
  function SignedPrecommit(c: ProtocolCertificate, s: CommitSignature): SignedVote
  {
    SignedVote(Vote(c.chainId, c.height, c.round, VoteKind.Precommit, s.validator, Block(c.blockHash)), s.signature)
  }

  predicate Endorsed(c: ProtocolCertificate, s: CommitSignature, validators: seq<ValidatorId>, genuine: SignedVote -> bool)
  {
    s.validator in validators && genuine(SignedPrecommit(c, s))
  }

  /** What `verify` promises about a certificate that it accepts. */
  ghost predicate Verified(c: ProtocolCertificate, validators: seq<ValidatorId>, genuine: SignedVote -> bool)
  {
    && c.EncodedSize() <= MAX_COMMIT_CERTIFICATE_BYTES
    && c.protocolVersion == PROTOCOL_VERSION
    && ChainIdValid(c.chainId)
    && ValidatorSet(validators).Valid()
    && StrictlyOrdered(c.signatures)
    && (forall i :: 0 <= i < |c.signatures| ==> Endorsed(c, c.signatures[i], validators, genuine))
    && |c.signatures| >= QuorumSize(|validators|)
  }

  /** `CommitCertificate::verify`, with the Ed25519 check as the parameter `genuine`. */
  method Verify(c: ProtocolCertificate, validators: seq<ValidatorId>, genuine: SignedVote -> bool)
    returns (r: Option<CertificateError>)
    ensures r.None? <==> Verified(c, validators, genuine)
    ensures r == Some(PayloadTooLarge) <==> c.EncodedSize() > MAX_COMMIT_CERTIFICATE_BYTES
    ensures r.Some? && r.value.InsufficientQuorum? ==>
      r.value == InsufficientQuorum(QuorumSize(|validators|), |c.signatures|) && |c.signatures| < QuorumSize(|validators|)
  {
    hide StrictlyOrdered, QuorumSize, ToSet, Endorsed, ChainIdValid;
    if c.EncodedSize() > MAX_COMMIT_CERTIFICATE_BYTES {
      return Some(PayloadTooLarge);
    }
    if c.protocolVersion != PROTOCOL_VERSION {
      return Some(UnsupportedProtocolVersion);
    }
    if !ChainIdValid(c.chainId) {
      return Some(InvalidChainId);
    }
    var authorized := ToSet(validators);
    RepeatsShrink(validators);
    if authorized == {} || |authorized| != |validators| {
      return Some(InvalidCommitCertificate);
    }
    var required := QuorumSize(|authorized|);
    var seen;
    r, seen := CheckSigners(c, validators, genuine);
    if r.None? && seen < required {
      return Some(InsufficientQuorum(required, seen));
    }
  }

  /** The loop over the signatures: authorized, not seen before, in order, and genuine. */
  method CheckSigners(c: ProtocolCertificate, validators: seq<ValidatorId>, genuine: SignedVote -> bool)
    returns (r: Option<CertificateError>, count: nat)
    ensures r.None? <==>
      && StrictlyOrdered(c.signatures)
      && forall i :: 0 <= i < |c.signatures| ==> Endorsed(c, c.signatures[i], validators, genuine)
    ensures r.None? ==> count == |c.signatures|
    ensures r.Some? ==> !r.value.InsufficientQuorum? && r.value != PayloadTooLarge
  {
    hide StrictlyOrdered, SignerSet, ToSet, SignedPrecommit;
    var authorized := ToSet(validators);
    var seen := {};
    var previous := None;
    NoSigners(c.signatures);
    for i := 0 to |c.signatures|
      invariant seen == SignerSet(c.signatures[..i])
      invariant previous == if i == 0 then None else Some(c.signatures[i - 1].validator)
      invariant StrictlyOrdered(c.signatures[..i])
      invariant forall k :: 0 <= k < i ==> Endorsed(c, c.signatures[k], validators, genuine)
    {
      var s := c.signatures[i];
      StrictStep(c.signatures, i);
      InSet(validators, s.validator);
      if s.validator !in authorized {
        return Some(UnauthorizedValidator), 0;
      }
      if s.validator in seen {
        return Some(DuplicateValidator), 0;
      }
      seen := seen + {s.validator};
      if previous.Some? && previous.value >= s.validator {
        return Some(InvalidCommitCertificate), 0;
      }
      previous := Some(s.validator);
      if !genuine(SignedPrecommit(c, s)) {
        return Some(CertificateError.InvalidSignature), 0;
      }
    }
    assert c.signatures[..|c.signatures|] == c.signatures;
    StrictCount(c.signatures);
    return None, |seen|;
  }

  lemma NoSigners(s: seq<CommitSignature>)
    ensures SignerSet(s[..0]) == {} && StrictlyOrdered(s[..0])
  {
  }

  lemma InSet(ids: seq<ValidatorId>, v: ValidatorId)
    ensures v in ToSet(ids) <==> v in ids
  {
  }

  function SignerSet(s: seq<CommitSignature>): set<ValidatorId>
  {
    set x | x in s :: x.validator
  }

  /** One turn of the `verify` loop: order and signer set of one more signature. */
  lemma StrictStep(s: seq<CommitSignature>, i: nat)
    requires i < |s| && StrictlyOrdered(s[..i])
    ensures SignerSet(s[..i + 1]) == SignerSet(s[..i]) + {s[i].validator}
    ensures StrictlyOrdered(s) ==> s[i].validator !in SignerSet(s[..i])
    ensures StrictlyOrdered(s[..i + 1]) <==> (i == 0 || s[i - 1].validator < s[i].validator)
    ensures StrictlyOrdered(s) ==> StrictlyOrdered(s[..i + 1])
  {
    var before, now := s[..i], s[..i + 1];
    assert now == before + [s[i]];
    assert forall k :: 0 <= k < i ==> before[k] == s[k] && now[k] == s[k];
    if i > 0 && s[i - 1].validator < s[i].validator {
      forall k | 0 <= k < i ensures s[k].validator < s[i].validator {
        if k < i - 1 { assert before[k].validator < before[i - 1].validator; }
      }
    }
    if i > 0 && StrictlyOrdered(now) {
      assert now[i - 1].validator < now[i].validator;
    }
  }

  ghost predicate DistinctIds(ids: seq<ValidatorId>)
  {
    forall i, j :: 0 <= i < j < |ids| ==> ids[i] != ids[j]
  }

  lemma DistinctAppend(init: seq<ValidatorId>, last: ValidatorId)
    ensures DistinctIds(init + [last]) <==> DistinctIds(init) && last !in init
  {
    var all := init + [last];
    assert forall i :: 0 <= i < |init| ==> all[i] == init[i];
    assert all[|init|] == last;
    if DistinctIds(all) {
      forall i, j | 0 <= i < j < |init| ensures init[i] != init[j] {
        assert all[i] != all[j];
      }
    }
  }

  lemma {:induction false} RepeatsShrink(ids: seq<ValidatorId>)
    ensures |ToSet(ids)| <= |ids|
    ensures |ToSet(ids)| == |ids| <==> DistinctIds(ids)
    ensures ToSet(ids) == {} <==> ids == []
    decreases |ids|
  {
    if ids == [] {
      assert ToSet(ids) == {};
    } else {
      hide DistinctIds;
      var init, last := ids[..|ids| - 1], ids[|ids| - 1];
      RepeatsShrink(init);
      assert ids == init + [last];
      DistinctAppend(init, last);
      assert ToSet(ids) == ToSet(init) + {last};
    }
  }

  // ---------------------------------------------------------------- translation

  function PrecommitFault(c: CommitCertificate, signed: SignedVote): Option<ConversionError>
  {
    if signed.vote.kind != VoteKind.Precommit || signed.vote.value != Block(c.blockId)
      || signed.vote.chainId != c.chainId || signed.vote.height != c.height || signed.vote.round != c.round
    then Some(MismatchedPrecommit)
    else if |signed.signature| != SIGNATURE_BYTES then Some(InvalidSignatureLength(|signed.signature|))
    else None
  }

  function ConvertAll(c: CommitCertificate, precommits: seq<SignedVote>): Result<seq<CommitSignature>, ConversionError>
  {
    if precommits == [] then Ok([])
    else match PrecommitFault(c, precommits[0])
      case Some(error) => Err(error)
      case None =>
        match ConvertAll(c, precommits[1..])
        case Err(error) => Err(error)
        case Ok(rest) => Ok([CommitSignature(precommits[0].vote.validator, precommits[0].signature)] + rest)
  }

  /** `CommitCertificate::to_protocol`. */
  function ToProtocol(c: CommitCertificate): Result<ProtocolCertificate, ConversionError>
  {
    if !ChainIdValid(c.chainId) then Err(InvalidChain)
    else match ConvertAll(c, c.precommits)
      case Err(error) => Err(error)
      case Ok(signatures) =>
        Ok(ProtocolCertificate(PROTOCOL_VERSION, c.chainId, c.height, c.round, c.blockId, SortByValidator(signatures)))
  }

  /** `CommitCertificate::from_protocol`. */
  function FromProtocol(p: ProtocolCertificate): CommitCertificate
  {
    CommitCertificate(p.chainId, p.height, p.round, p.blockHash,
      seq(|p.signatures|, i requires 0 <= i < |p.signatures| => SignedPrecommit(p, p.signatures[i])))
  }

  lemma {:induction false} ConvertAllMaps(c: CommitCertificate, precommits: seq<SignedVote>)
    requires forall i :: 0 <= i < |precommits| ==> PrecommitFault(c, precommits[i]).None?
    ensures ConvertAll(c, precommits).Ok?
    ensures var out := ConvertAll(c, precommits).value;
      |out| == |precommits|
      && forall i :: 0 <= i < |out| ==> out[i] == CommitSignature(precommits[i].vote.validator, precommits[i].signature)
    decreases |precommits|
  {
    if precommits != [] {
      var rest := precommits[1..];
      assert forall i :: 0 <= i < |rest| ==> rest[i] == precommits[i + 1];
      ConvertAllMaps(c, rest);
    }
  }

  /**
   * Certificate transfer: a certificate that is valid for the engine, with 64-byte signatures and
   * within the size limit, converts to a protocol certificate that passes `verify`.
   */
  lemma ValidTransfers(w: World, auth: Signatures, c: CommitCertificate)
    requires w.Valid() && CertificateValid(w, auth, c)
    requires forall i :: 0 <= i < |c.precommits| ==> |c.precommits[i].signature| == SIGNATURE_BYTES
    requires 58 + |c.chainId| + 96 * |c.precommits| <= MAX_COMMIT_CERTIFICATE_BYTES
    ensures ToProtocol(c).Ok?
    ensures var p := ToProtocol(c).value;
      && Verified(p, w.validators.validators, signed => signed in auth)
      && p.blockHash == c.blockId && p.round == c.round && p.height == c.height && p.chainId == c.chainId
  {
    forall i | 0 <= i < |c.precommits| ensures PrecommitFault(c, c.precommits[i]).None? {
      assert Supports(w, c.precommits[i].vote, c.round, VoteKind.Precommit, Block(c.blockId));
    }
    ConvertAllMaps(c, c.precommits);
    var plain := ConvertAll(c, c.precommits).value;
    forall i, j | 0 <= i < j < |plain| ensures plain[i].validator != plain[j].validator {
      assert c.precommits[i].vote.validator != c.precommits[j].vote.validator;
    }
    SortDistinct(plain);
    var p := ToProtocol(c).value;
    forall i | 0 <= i < |p.signatures|
      ensures Endorsed(p, p.signatures[i], w.validators.validators, signed => signed in auth)
    {
      assert p.signatures[i] in plain;
      var k :| 0 <= k < |plain| && plain[k] == p.signatures[i];
      assert VoteFits(w, c.precommits[k]) && Supports(w, c.precommits[k].vote, c.round, VoteKind.Precommit, Block(c.blockId));
      assert SignedPrecommit(p, p.signatures[i]) == c.precommits[k];
    }
  }

  /** And back: a verified protocol certificate for this height is a valid engine certificate. */
  lemma VerifiedTransfers(w: World, auth: Signatures, p: ProtocolCertificate)
    requires w.Valid() && Verified(p, w.validators.validators, signed => signed in auth)
    requires p.chainId == w.config.chainId && p.height == w.height && p.round < w.config.maxRoundsPerHeight
    requires forall i :: 0 <= i < |p.signatures| ==> |p.signatures[i].signature| <= w.config.maxSignatureBytes
    ensures CertificateValid(w, auth, FromProtocol(p))
  {
    var c := FromProtocol(p);
    var ids := SignerSet(p.signatures);
    StrictCount(p.signatures);
    assert forall s :: s in p.signatures ==> Endorsed(p, s, w.validators.validators, signed => signed in auth);
    assert ids <= w.validators.Ids();
    SubsetSize(ids, w.validators.Ids());
    WorldSize(w);
    forall i, j | 0 <= i < j < |c.precommits| ensures c.precommits[i].vote.validator != c.precommits[j].vote.validator {
      assert p.signatures[i].validator < p.signatures[j].validator;
    }
  }

  lemma {:induction false} StrictCount(s: seq<CommitSignature>)
    requires StrictlyOrdered(s)
    ensures |SignerSet(s)| == |s|
    decreases |s|
  {
    if s == [] {
      assert SignerSet(s) == {};
    } else {
      var i := |s| - 1;
      assert StrictlyOrdered(s[..i]);
      StrictCount(s[..i]);
      StrictStep(s, i);
      assert s[..i + 1] == s;
    }
  }

  /** The translation loses nothing but the order: going there and back permutes the precommits. */
  lemma TransferRoundTrip(c: CommitCertificate)
    requires ToProtocol(c).Ok?
    requires forall i :: 0 <= i < |c.precommits| ==> PrecommitFault(c, c.precommits[i]).None?
    ensures var back := FromProtocol(ToProtocol(c).value);
      && back.(precommits := c.precommits) == c
      && (forall signed :: signed in back.precommits <==> signed in c.precommits)
      && |back.precommits| == |c.precommits|
      && ToProtocol(back).Ok?
  {
    hide Insert, ChainIdValid;
    ConvertAllMaps(c, c.precommits);
    var plain := ConvertAll(c, c.precommits).value;
    SortSorts(plain);
    var p := ToProtocol(c).value;
    SameMembers(p.signatures, plain);
    SameVotes(c, p, plain);
    var back := FromProtocol(p);
    forall i | 0 <= i < |back.precommits| ensures PrecommitFault(back, back.precommits[i]).None? {
      assert back.precommits[i] in c.precommits;
    }
    ConvertAllMaps(back, back.precommits);
  }

  lemma SameVotes(c: CommitCertificate, p: ProtocolCertificate, plain: seq<CommitSignature>)
    requires forall i :: 0 <= i < |c.precommits| ==> PrecommitFault(c, c.precommits[i]).None?
    requires p == ProtocolCertificate(p.protocolVersion, c.chainId, c.height, c.round, c.blockId, p.signatures)
    requires |plain| == |c.precommits|
    requires forall i :: 0 <= i < |plain| ==> plain[i] == CommitSignature(c.precommits[i].vote.validator, c.precommits[i].signature)
    requires forall s :: s in p.signatures <==> s in plain
    ensures forall signed :: signed in FromProtocol(p).precommits <==> signed in c.precommits
  {
    var back := FromProtocol(p);
    forall k | 0 <= k < |plain| ensures SignedPrecommit(p, plain[k]) == c.precommits[k] {
    }
    forall signed | signed in back.precommits ensures signed in c.precommits {
      var i :| 0 <= i < |back.precommits| && back.precommits[i] == signed;
      assert p.signatures[i] in plain;
      var k :| 0 <= k < |plain| && plain[k] == p.signatures[i];
      assert c.precommits[k] == signed;
    }
    forall signed | signed in c.precommits ensures signed in back.precommits {
      var k :| 0 <= k < |c.precommits| && c.precommits[k] == signed;
      assert plain[k] in p.signatures;
      var i :| 0 <= i < |p.signatures| && p.signatures[i] == plain[k];
      assert back.precommits[i] == signed;
    }
  }
}
