/** Certificates of honest decisions, as peers and the protocol crate see them. */
module Transfer {
  import opened Wrappers
  import opened ConsensusTypes
  import opened Protocol
  import opened EngineSpec
  import opened EngineInvariant
  import opened EngineSteps
  import opened Network
  import opened Recovery
  import opened Agreement
  import opened Certificates

  /**
   * Certificate transfer: the certificate of any decision an honest validator has made passes the
   * checks of every live honest peer, and with 64-byte signatures and within the size limit it
   * converts to a protocol certificate that passes `verify`.
   */
  lemma DecisionsTransfer(
    w: World, states: seq<Net>, actions: seq<Action>, i: nat, d: (ValidatorId, Finalization), peer: ValidatorId, validator: MessageValidator)
    requires w.Valid() && Run(w, states, actions) && i < |states| && d in states[i].decided
    requires peer in states[i].nodes && states[i].nodes[peer].engine.Some?
    requires Authenticates(validator, states[i].auth) && validator.validateCertificate(d.1.certificate).Accept?
    ensures CertificateFault(states[i].nodes[peer].engine.value, d.1.certificate, validator).None?
    ensures var c := d.1.certificate;
      (forall k :: 0 <= k < |c.precommits| ==> |c.precommits[k].signature| == SIGNATURE_BYTES)
      && 58 + |c.chainId| + 96 * |c.precommits| <= MAX_COMMIT_CERTIFICATE_BYTES
      ==> ToProtocol(c).Ok? && Verified(ToProtocol(c).value, w.validators.validators, signed => signed in states[i].auth)
  {
    hide Init, Next, Sound, LogSound, SignedIsRecorded, DecidedIsCommitted, CertificateValid, Verified, ToProtocol, CertificateFault, World.Valid;
    RunSound(w, states, actions, i);
    var s, c := states[i], d.1.certificate;
    DecidedCertificate(w, s, d);
    assert NodeSound(w, s.auth, peer, s.nodes[peer]);
    PeerParameters(w, s.auth, peer, s.nodes[peer].engine.value, s.nodes[peer].log);
    CertificateAccepted(w, s.auth, s.nodes[peer].engine.value, c, validator);
    if (forall k :: 0 <= k < |c.precommits| ==> |c.precommits[k].signature| == SIGNATURE_BYTES)
      && 58 + |c.chainId| + 96 * |c.precommits| <= MAX_COMMIT_CERTIFICATE_BYTES
    {
      ValidTransfers(w, s.auth, c);
    }
  }

  lemma PeerParameters(w: World, auth: Signatures, v: ValidatorId, e: Engine, log: seq<Decision>)
    requires |w.validators.validators| > 0 && Sound(w, auth, v, e, log)
    ensures e.validators == w.validators && e.config == w.config && e.height == w.height
  {
  }
}
