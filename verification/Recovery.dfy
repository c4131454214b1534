/**
 * Restart from the signer store: every durable safety state is one the engine accepts again, as
 * long as a round is left to resume in, and the resumed engine satisfies the validator invariant.
 */
module Recovery {
  import opened Wrappers
  import opened Quorums
  import opened ConsensusTypes
  import opened EngineSpec
  import opened VoteCounting
  import opened Protocol
  import opened EngineInvariant
  import opened EngineSteps
  import opened Network

  /** A message that `restore_local_decision` reserves in this engine. */
  predicate Restorable(e: Engine, m: SignableMessage)
    requires |e.validators.validators| > 0
  {
    && m.Signer() == e.localId && m.ChainId() == e.config.chainId && m.Height() == e.height
    && m.Round() < e.round && m.Round() < e.config.maxRoundsPerHeight
    && (m.ProposalMessage? ==> m.Signer() == e.validators.Proposer(e.height, m.Round()))
  }

  lemma {:induction false} RestoreAllReserves(e: Engine, log: seq<Decision>) returns (d: map<DecisionKey, SignableMessage>)
    requires |e.validators.validators| > 0 && !e.started
    requires forall i :: 0 <= i < |log| ==> Restorable(e, log[i].message)
    requires DistinctKeys(log)
    requires forall i :: 0 <= i < |log| ==> log[i].message.Key() !in e.localDecisions
    ensures RestoreAll(e, log) == Ok(e.(localDecisions := d))
    ensures forall k :: k in d ==>
      (k in e.localDecisions && d[k] == e.localDecisions[k]) || exists i :: 0 <= i < |log| && log[i].message == d[k] && d[k].Key() == k
    ensures forall i :: 0 <= i < |log| ==> log[i].message.Key() in d && d[log[i].message.Key()] == log[i].message
    ensures e.localDecisions.Keys <= d.Keys && forall k :: k in e.localDecisions ==> d[k] == e.localDecisions[k]
    decreases |log|
  {
    if log == [] {
      d := e.localDecisions;
      assert e.(localDecisions := d) == e;
    } else {
      var m, rest := log[0].message, log[1..];
      var reserved := e.(localDecisions := e.localDecisions[m.Key() := m]);
      assert Restorable(e, m);
      assert RestoreDecision(e, m) == Ok(reserved);
      assert forall i :: 0 <= i < |rest| ==> rest[i] == log[i + 1];
      forall i | 0 <= i < |rest| ensures Restorable(reserved, rest[i].message) && rest[i].message.Key() !in reserved.localDecisions {
        assert Restorable(e, log[i + 1].message);
        assert log[0].message.Key() != log[i + 1].message.Key();
      }
      d := RestoreAllReserves(reserved, rest);
      forall i | 0 <= i < |log| ensures log[i].message.Key() in d && d[log[i].message.Key()] == log[i].message {
        if i > 0 { assert log[i] == rest[i - 1]; }
      }
    }
  }

  /** The engine a restart builds before it reserves signer slots. */
  function Resumed(w: World, v: ValidatorId, s: SafetyState): Engine
  {
    FreshEngine(v, w.validators, w.height, w.config).(
      round := s.round + 1,
      lockedRound := s.lockedRound, lockedBlock := s.lockedBlock,
      validRound := s.validRound, validBlock := s.validBlock, validProof := s.validRoundProof)
  }

  /** A sound safety state is accepted exactly when a round is left to resume in. */
  lemma SafetyStateAccepted(w: World, auth: Signatures, v: ValidatorId, s: SafetyState, validator: MessageValidator)
    requires w.Valid() && v in w.validators.validators
    requires SafetySound(w, auth, s)
    requires Authenticates(validator, auth)
    ensures RestoreEngine(v, w.validators, w.height, w.config, s, validator)
      == if s.round + 1 < w.config.maxRoundsPerHeight then Ok(Resumed(w, v, s)) else Err(RestoredRoundOutOfRange(s.round))
  {
    var e := FreshEngine(v, w.validators, w.height, w.config);
    if s.validRound.Some? {
      ProofFaultIffQuorum(w, auth, e, s.validRoundProof, s.validRound.value, VoteKind.Prevote, s.validBlock.value, MalformedSafetyState, validator);
    }
    hide ProofFault, QuorumProof, Polka;
    assert RestoredFault(e, s, validator).None?;
  }

  lemma ResumedSafety(w: World, auth: Signatures, v: ValidatorId, s: SafetyState)
    requires SafetySound(w, auth, s) && s.round + 1 < w.config.maxRoundsPerHeight
    ensures SafetySound(w, auth, s.(round := s.round + 1))
    ensures SafetyOf(Resumed(w, v, s)) == s.(round := s.round + 1)
  {
    hide QuorumProof, Polka;
  }

  lemma ResumedEngineSound(w: World, auth: Signatures, v: ValidatorId, s: SafetyState, d: map<DecisionKey, SignableMessage>)
    requires |w.validators.validators| > 0 && v in w.validators.validators
    requires SafetySound(w, auth, s) && s.round + 1 < w.config.maxRoundsPerHeight
    requires forall k :: k in d ==> d[k].Key() == k && k.round <= s.round && MessageFits(w, v, d[k])
    ensures EngineSound(w, auth, v, Resumed(w, v, s).(localDecisions := d))
  {
    hide SafetySound, MessageFits;
    var e := Resumed(w, v, s).(localDecisions := d);
    ResumedSafety(w, auth, v, s);
    SafetyRounds(w, auth, s);
    assert SafetyOf(e) == SafetyOf(Resumed(w, v, s));
    assert DecisionsSound(w, e);
  }

  lemma ResumedLinked(w: World, auth: Signatures, v: ValidatorId, log: seq<Decision>, d: map<DecisionKey, SignableMessage>)
    requires |w.validators.validators| > 0 && LogSound(w, auth, v, log) && log != []
    ensures Linked(Resumed(w, v, log[|log| - 1].safety).(localDecisions := d), log)
  {
    LastRoundBounds(w, auth, v, log);
    hide SafetiesSound, PrevotesJustified, PrecommitsJustified, MessageFits;
    var n := |log| - 1;
    forall i | 0 <= i < |log| ensures log[i].safety.round <= log[n].safety.round {
      if i < n { assert log[i].safety.round <= log[n].safety.round; }
    }
  }

  lemma ResumedSound(w: World, auth: Signatures, v: ValidatorId, log: seq<Decision>, d: map<DecisionKey, SignableMessage>)
    requires w.Valid() && v in w.validators.validators
    requires LogSound(w, auth, v, log) && log != []
    requires log[|log| - 1].safety.round + 1 < w.config.maxRoundsPerHeight
    requires forall k :: k in d ==> exists i :: 0 <= i < |log| && log[i].message == d[k] && d[k].Key() == k
    ensures Sound(w, auth, v, Resumed(w, v, log[|log| - 1].safety).(localDecisions := d), log)
  {
    hide LogSound, EngineSound, Linked, SafetySound, MessageFits;
    var s := log[|log| - 1].safety;
    LastSafety(w, auth, v, log);
    LastRoundBounds(w, auth, v, log);
    forall k | k in d ensures d[k].Key() == k && k.round <= s.round && MessageFits(w, v, d[k]) {
      var i :| 0 <= i < |log| && log[i].message == d[k] && d[k].Key() == k;
      assert log[i].message.Round() <= s.round;
    }
    ResumedEngineSound(w, auth, v, s, d);
    ResumedLinked(w, auth, v, log, d);
  }

  lemma SafetyRounds(w: World, auth: Signatures, s: SafetyState)
    requires SafetySound(w, auth, s)
    ensures s.validRound.Some? ==> s.validRound.value <= s.round
    ensures s.lockedRound.Some? ==> s.lockedRound.value <= s.round
  {
  }

  lemma FreshSound(w: World, auth: Signatures, v: ValidatorId)
    requires w.Valid() && v in w.validators.validators
    ensures Sound(w, auth, v, FreshEngine(v, w.validators, w.height, w.config), [])
  {
  }

  /**
   * Restart succeeds exactly when nothing was decided yet or the round after the last decision is
   * within the limit. It brings back the lock, the valid value and its proof, reserves every
   * durable decision, and yields an engine that satisfies the validator invariant.
   */
  lemma RecoverSucceeds(w: World, auth: Signatures, v: ValidatorId, log: seq<Decision>, validator: MessageValidator)
    requires w.Valid() && v in w.validators.validators
    requires LogSound(w, auth, v, log)
    requires Authenticates(validator, auth)
    ensures var made := Recover(w, v, log, validator);
      && (made.Ok? <==> (log == [] || log[|log| - 1].safety.round + 1 < w.config.maxRoundsPerHeight))
      && (made.Err? ==> made.error == RestoredRoundOutOfRange(log[|log| - 1].safety.round))
      && (made.Ok? ==>
            && Sound(w, auth, v, made.value, log)
            && !made.value.started
            && (log != [] ==>
                  && SafetyOf(made.value) == log[|log| - 1].safety.(round := log[|log| - 1].safety.round + 1)
                  && (forall i :: 0 <= i < |log| ==>
                        && log[i].message.Key() in made.value.localDecisions
                        && made.value.localDecisions[log[i].message.Key()] == log[i].message
                        && log[i].message.Round() < made.value.round)))
  {
    if log == [] {
      FreshSound(w, auth, v);
    } else {
      RecoverResumes(w, auth, v, log, validator);
    }
  }

  lemma FitsIsRestorable(w: World, v: ValidatorId, s: SafetyState, m: SignableMessage)
    requires |w.validators.validators| > 0 && MessageFits(w, v, m) && m.Round() <= s.round
    ensures Restorable(Resumed(w, v, s), m)
  {
  }

  lemma RecoverResumes(w: World, auth: Signatures, v: ValidatorId, log: seq<Decision>, validator: MessageValidator)
    requires w.Valid() && v in w.validators.validators
    requires LogSound(w, auth, v, log) && log != []
    requires Authenticates(validator, auth)
    ensures var made := Recover(w, v, log, validator);
      var s := log[|log| - 1].safety;
      if s.round + 1 < w.config.maxRoundsPerHeight then
        && made.Ok?
        && Sound(w, auth, v, made.value, log)
        && !made.value.started
        && SafetyOf(made.value) == s.(round := s.round + 1)
        && (forall i :: 0 <= i < |log| ==>
              && log[i].message.Key() in made.value.localDecisions
              && made.value.localDecisions[log[i].message.Key()] == log[i].message
              && log[i].message.Round() < made.value.round)
      else made == Err(RestoredRoundOutOfRange(s.round))
  {
    hide LogSound, SafetySound, Sound, RestoreEngine, Authenticates, MessageFits, Restorable, RestoreAll;
    var s := log[|log| - 1].safety;
    LastSafety(w, auth, v, log);
    SafetyStateAccepted(w, auth, v, s, validator);
    if s.round + 1 < w.config.maxRoundsPerHeight {
      var e := Resumed(w, v, s);
      LastRoundBounds(w, auth, v, log);
      forall i | 0 <= i < |log| ensures Restorable(e, log[i].message) {
        FitsIsRestorable(w, v, s, log[i].message);
      }
      var d := RestoreAllReserves(e, log);
      ResumedSound(w, auth, v, log, d);
    }
  }

  lemma LastRoundBounds(w: World, auth: Signatures, v: ValidatorId, log: seq<Decision>)
    requires |w.validators.validators| > 0
    requires LogSound(w, auth, v, log) && log != []
    ensures forall i :: 0 <= i < |log| ==>
      MessageFits(w, v, log[i].message) && log[i].message.Round() <= log[|log| - 1].safety.round
    ensures log[|log| - 1].safety.height == w.height
    ensures DistinctKeys(log)
  {
    hide SafetiesSound, PrecommitsLocked, PrevotesJustified, PrecommitsJustified;
    assert SafetySound(w, auth, log[|log| - 1].safety) by { LastSafety(w, auth, v, log); }
    forall i | 0 <= i < |log| ensures log[i].message.Round() <= log[|log| - 1].safety.round {
      if i < |log| - 1 { assert log[i].safety.round <= log[|log| - 1].safety.round; }
    }
  }

  lemma LastSafety(w: World, auth: Signatures, v: ValidatorId, log: seq<Decision>)
    requires |w.validators.validators| > 0
    requires LogSound(w, auth, v, log) && log != []
    ensures SafetySound(w, auth, log[|log| - 1].safety)
  {
  }

  /** A restart changes no log, no signature and no decision. */
  lemma RestartRecords(w: World, s: Net, v: ValidatorId, s': Net)
    requires v in s.nodes && s'.auth == s.auth && s'.decided == s.decided && s'.nodes.Keys == s.nodes.Keys
    requires forall u :: u in s.nodes ==> s'.nodes[u].log == s.nodes[u].log
    requires SignedIsRecorded(w, s) && DecidedIsCommitted(w, s)
    ensures SignedIsRecorded(w, s') && DecidedIsCommitted(w, s')
  {
    hide Recorded, CertificateValid;
  }

  lemma RestartKeeps(w: World, s: Net, v: ValidatorId, validator: MessageValidator, s': Net)
    requires w.Valid()
    requires NetSound(w, s)
    requires RestartStep(w, s, v, validator, s')
    ensures NetSound(w, s')
  {
    hide Sound, LogSound, Recover, SignedIsRecorded, DecidedIsCommitted, Authenticates, World.Valid;
    assert NodeSound(w, s.auth, v, s.nodes[v]);
    RecoverSucceeds(w, s.auth, v, s.nodes[v].log, validator);
    RestartRecords(w, s, v, s');
    forall u | u in s'.nodes ensures NodeSound(w, s'.auth, u, s'.nodes[u]) {
      assert NodeSound(w, s.auth, u, s.nodes[u]);
    }
  }

  // ---------------------------------------------------------------- runs

  lemma InitSound(w: World, s: Net)
    requires w.Valid() && Init(w, s)
    ensures NetSound(w, s)
  {
  }

  lemma NextKeeps(w: World, s: Net, a: Action, s': Net)
    requires w.Valid()
    requires NetSound(w, s)
    requires Next(w, s, a, s')
    ensures NetSound(w, s')
  {
    hide NetSound, SignStep, DeliverStep, CrashStep, RestartStep;
    match a
    case Sign(signed) => SignKeeps(w, s, signed, s');
    case Deliver(v, event, validator, executed) => DeliverKeeps(w, s, v, event, validator, executed, s');
    case Crash(v) => CrashKeeps(w, s, v, s');
    case Restart(v, validator) => RestartKeeps(w, s, v, validator, s');
  }

  /** The invariant holds in every state of every run, whatever the number of Byzantine validators. */
  lemma {:induction false} RunSound(w: World, states: seq<Net>, actions: seq<Action>, i: nat)
    requires w.Valid()
    requires Run(w, states, actions) && i < |states|
    ensures NetSound(w, states[i])
    decreases i
  {
    hide NetSound, Next, Init;
    if i == 0 {
      InitSound(w, states[0]);
    } else {
      RunSound(w, states, actions, i - 1);
      NextKeeps(w, states[i - 1], actions[i - 1], states[i]);
    }
  }
}
