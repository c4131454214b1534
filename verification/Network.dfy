/**
 * A height played by many validators. Honest ones run the engine behind the write-once signer
 * store, and may crash and restart at any time; Byzantine ones sign whatever they like. Messages
 * are delivered to anyone in any order, any number of times or never: a step hands an arbitrary
 * event to one engine, whose validator accepts exactly the signatures that exist.
 */
module Network {
  import opened Wrappers
  import opened Quorums
  import opened ConsensusTypes
  import opened EngineSpec
  import opened Protocol
  import opened EngineInvariant
  import opened EngineSteps

  // ---------------------------------------------------------------- the signer store

  datatype StorageError = ConflictingSignature(key: DecisionKey) | ConflictingSafetyState(key: DecisionKey)

  /** The row that already occupies a signer slot, if any. */
  function RowOf(log: seq<Decision>, key: DecisionKey): Option<Decision>
  {
    if log == [] then None
    else if log[|log| - 1].message.Key() == key then Some(log[|log| - 1])
    else RowOf(log[..|log| - 1], key)
  }

  /**
   * `persist_consensus_decision`: a slot is written once. The same decision again is a no-op; a
   * different message or safety state in an occupied slot is refused.
   */
  function PersistDecision(log: seq<Decision>, d: Decision): Result<seq<Decision>, StorageError>
  {
    match RowOf(log, d.message.Key())
    case None => Ok(log + [d])
    case Some(row) =>
      if row.message != d.message then Err(ConflictingSignature(d.message.Key()))
      else if row.safety != d.safety then Err(ConflictingSafetyState(d.message.Key()))
      else Ok(log)
  }

  /** Persist decisions in order; a refusal abandons the rest. */
  function PersistAll(log: seq<Decision>, decisions: seq<Decision>): seq<Decision>
    decreases |decisions|
  {
    if decisions == [] then log
    else match PersistDecision(log, decisions[0])
      case Ok(written) => PersistAll(written, decisions[1..])
      case Err(_) => log
  }

  // ---------------------------------------------------------------- restart

  /** Reserve the signer slots of durable decisions, in the order they were written. */
  function RestoreAll(e: Engine, log: seq<Decision>): Result<Engine, ConsensusError>
    requires |e.validators.validators| > 0
    decreases |log|
  {
    if log == [] then Ok(e)
    else match RestoreDecision(e, log[0].message)
      case Ok(reserved) => RestoreAll(reserved, log[1..])
      case Err(error) => Err(error)
  }

  /** `initialize_consensus_recovery`: the last row's safety state is the `consensus_safety` cell. */
  ghost function Recover(w: World, v: ValidatorId, log: seq<Decision>, validator: MessageValidator): Result<Engine, ConsensusError>
    requires |w.validators.validators| > 0
  {
    if log == [] then NewEngine(v, w.validators, w.height, w.config)
    else match RestoreEngine(v, w.validators, w.height, w.config, log[|log| - 1].safety, validator)
      case Ok(e) => RestoreAll(e, log)
      case Err(error) => Err(error)
  }

  // ---------------------------------------------------------------- states and actions

  datatype Node = Node(engine: Option<Engine>, log: seq<Decision>)

  datatype Net = Net(auth: Signatures, nodes: map<ValidatorId, Node>, decided: set<(ValidatorId, Finalization)>)

  datatype Action =
    | Sign(signed: SignedVote)
    | Deliver(v: ValidatorId, event: Event, validator: MessageValidator, executed: nat)
    | Crash(v: ValidatorId)
    | Restart(v: ValidatorId, validator: MessageValidator)

  ghost function HonestIds(w: World): set<ValidatorId>
  {
    set v | v in w.validators.validators && w.Honest(v)
  }

  ghost predicate Init(w: World, s: Net)
  {
    && s.auth == {} && s.decided == {}
    && s.nodes == map v | v in HonestIds(w) :: Node(None, [])
  }

  /** A new signature: an honest validator signs only what its store already holds. */
  ghost predicate SignStep(w: World, s: Net, signed: SignedVote, s': Net)
  {
    && (w.Honest(signed.vote.validator) ==>
          signed.vote.validator in s.nodes && Recorded(s.nodes[signed.vote.validator].log, VoteMessage(signed.vote)))
    && s' == s.(auth := s.auth + {signed})
  }

  /** One event is stepped through an engine and a prefix of the requested writes is carried out. */
  ghost predicate DeliverStep(w: World, s: Net, v: ValidatorId, event: Event, validator: MessageValidator, executed: nat, s': Net)
  {
    && v in s.nodes && s.nodes[v].engine.Some?
    && |s.nodes[v].engine.value.validators.validators| > 0
    && Authenticates(validator, s.auth)
    && var o := Step(s.nodes[v].engine.value, event, validator);
      var requested := if o.error.Some? then [] else Emitted(o.effects);
      && executed <= |requested|
      && s' == s.(
        nodes := s.nodes[v := Node(Some(o.engine), PersistAll(s.nodes[v].log, requested[..executed]))],
        decided := s.decided + if o.engine.finalized.Some? then {(v, o.engine.finalized.value)} else {})
  }

  ghost predicate CrashStep(s: Net, v: ValidatorId, s': Net)
  {
    v in s.nodes && s' == s.(nodes := s.nodes[v := s.nodes[v].(engine := None)])
  }

  ghost predicate RestartStep(w: World, s: Net, v: ValidatorId, validator: MessageValidator, s': Net)
    requires |w.validators.validators| > 0
  {
    && v in s.nodes && s.nodes[v].engine.None?
    && Authenticates(validator, s.auth)
    && var made := Recover(w, v, s.nodes[v].log, validator);
      s' == s.(nodes := s.nodes[v := s.nodes[v].(engine := if made.Ok? then Some(made.value) else None)])
  }

  ghost predicate Next(w: World, s: Net, a: Action, s': Net)
    requires |w.validators.validators| > 0
  {
    match a
    case Sign(signed) => SignStep(w, s, signed, s')
    case Deliver(v, event, validator, executed) => DeliverStep(w, s, v, event, validator, executed, s')
    case Crash(v) => CrashStep(s, v, s')
    case Restart(v, validator) => RestartStep(w, s, v, validator, s')
  }

  /** A finite run of the height: any number of steps, in any order. */
  ghost predicate Run(w: World, states: seq<Net>, actions: seq<Action>)
    requires |w.validators.validators| > 0
  {
    && |states| == |actions| + 1
    && Init(w, states[0])
    && forall i :: 0 <= i < |actions| ==> Next(w, states[i], actions[i], states[i + 1])
  }

  // ---------------------------------------------------------------- the invariant

  ghost predicate NodeSound(w: World, auth: Signatures, v: ValidatorId, node: Node)
    requires |w.validators.validators| > 0
  {
    && LogSound(w, auth, v, node.log)
    && (node.engine.Some? ==> Sound(w, auth, v, node.engine.value, node.log))
  }

  ghost predicate SignedIsRecorded(w: World, s: Net)
  {
    forall signed :: signed in s.auth && w.Honest(signed.vote.validator) ==>
      signed.vote.validator in s.nodes && Recorded(s.nodes[signed.vote.validator].log, VoteMessage(signed.vote))
  }

  ghost predicate DecidedIsCommitted(w: World, s: Net)
  {
    forall d :: d in s.decided ==>
      w.Honest(d.0) && CertificateValid(w, s.auth, d.1.certificate) && d.1.blockId == d.1.certificate.blockId
  }

  ghost predicate NetSound(w: World, s: Net)
    requires |w.validators.validators| > 0
  {
    && s.nodes.Keys == HonestIds(w)
    && (forall v :: v in s.nodes ==> NodeSound(w, s.auth, v, s.nodes[v]))
    && SignedIsRecorded(w, s)
    && DecidedIsCommitted(w, s)
  }

  // ---------------------------------------------------------------- more signatures

  lemma SafetyMonotone(w: World, auth: Signatures, more: Signatures, s: SafetyState)
    requires auth <= more
    requires SafetySound(w, auth, s)
    ensures SafetySound(w, more, s)
  {
    if s.lockedRound.Some? {
      CertifiedMonotone(w, auth, more, s.lockedRound.value, VoteKind.Prevote, Block(s.lockedBlock.value));
    }
    hide Certified, VoteFits, Supports;
  }

  lemma LogMonotone(w: World, auth: Signatures, more: Signatures, v: ValidatorId, log: seq<Decision>)
    requires |w.validators.validators| > 0
    requires auth <= more
    requires LogSound(w, auth, v, log)
    ensures LogSound(w, more, v, log)
  {
    hide SafetySound, Certified;
    forall i | 0 <= i < |log| ensures SafetySound(w, more, log[i].safety) {
      SafetyMonotone(w, auth, more, log[i].safety);
    }
    forall i | 0 <= i < |log| && IsBlockPrecommit(log[i].message)
      ensures Polka(w, more, log[i].message.vote.round, log[i].message.vote.value.id)
    {
      CertifiedMonotone(w, auth, more, log[i].message.vote.round, VoteKind.Prevote, log[i].message.vote.value);
    }
    forall i, j | 0 <= i < |log| && 0 <= j < |log| && IsBlockPrecommit(log[i].message) && IsBlockPrevote(log[j].message)
      ensures Justified(w, more, log[i].message.vote, log[j].message.vote)
    {
      var precommit, prevote := log[i].message.vote, log[j].message.vote;
      assert Justified(w, auth, precommit, prevote);
      if precommit.round < prevote.round && precommit.value != prevote.value {
        var r :| precommit.round < r < prevote.round && Polka(w, auth, r, prevote.value.id);
        CertifiedMonotone(w, auth, more, r, VoteKind.Prevote, prevote.value);
        assert Polka(w, more, r, prevote.value.id);
      }
    }
  }

  lemma EngineMonotone(w: World, auth: Signatures, more: Signatures, v: ValidatorId, e: Engine)
    requires |w.validators.validators| > 0
    requires auth <= more
    requires EngineSound(w, auth, v, e)
    ensures EngineSound(w, more, v, e)
  {
    SafetyMonotone(w, auth, more, SafetyOf(e));
    hide SafetySound, DecisionsSound, RequestsSound, PhaseSound, ValidCached, VoteFits, Supports;
  }

  lemma NodeMonotone(w: World, auth: Signatures, more: Signatures, v: ValidatorId, node: Node)
    requires |w.validators.validators| > 0
    requires auth <= more
    requires NodeSound(w, auth, v, node)
    ensures NodeSound(w, more, v, node)
  {
    LogMonotone(w, auth, more, v, node.log);
    if node.engine.Some? {
      EngineMonotone(w, auth, more, v, node.engine.value);
    }
    hide EngineSound, LogSound, Linked;
  }

  // ---------------------------------------------------------------- the store never refuses

  lemma {:induction false} RowOfFound(log: seq<Decision>, key: DecisionKey)
    ensures RowOf(log, key).None? <==> forall i :: 0 <= i < |log| ==> log[i].message.Key() != key
    ensures RowOf(log, key).Some? ==> exists i :: 0 <= i < |log| && log[i] == RowOf(log, key).value && log[i].message.Key() == key
    decreases |log|
  {
    if log != [] {
      var init := log[..|log| - 1];
      RowOfFound(init, key);
      assert forall i :: 0 <= i < |init| ==> init[i] == log[i];
    }
  }

  /** Decisions for free, distinct slots are all written. */
  lemma {:induction false} PersistAllAppends(log: seq<Decision>, decisions: seq<Decision>)
    requires DistinctKeys(log + decisions)
    ensures PersistAll(log, decisions) == log + decisions
    decreases |decisions|
  {
    if decisions == [] {
      assert log + decisions == log;
    } else {
      var d := decisions[0];
      RowOfFound(log, d.message.Key());
      assert forall i :: 0 <= i < |log| ==> (log + decisions)[i] == log[i];
      assert (log + decisions)[|log|] == d;
      assert PersistDecision(log, d) == Ok(log + [d]);
      assert (log + [d]) + decisions[1..] == log + decisions;
      PersistAllAppends(log + [d], decisions[1..]);
    }
  }

  // ---------------------------------------------------------------- each action keeps the invariant

  /** After a step, any executed prefix of the requested writes leaves engine and log in agreement. */
  lemma KeysOf(w: World, auth: Signatures, v: ValidatorId, e: Engine, log: seq<Decision>)
    requires |w.validators.validators| > 0 && Sound(w, auth, v, e, log)
    ensures DistinctKeys(log) && |e.validators.validators| > 0
  {
  }

  lemma DeliverNode(w: World, auth: Signatures, v: ValidatorId, e: Engine, log: seq<Decision>, event: Event, validator: MessageValidator, executed: nat)
    requires w.Valid()
    requires Sound(w, auth, v, e, log)
    requires Authenticates(validator, auth)
    requires executed <= |Emitted(Step(e, event, validator).effects)|
    ensures var o := Step(e, event, validator);
      var written := Emitted(o.effects)[..executed];
      && PersistAll(log, written) == log + written
      && Sound(w, auth, v, o.engine, log + written)
      && Sound(w, auth, v, o.engine, log)
  {
    hide Sound, Step, Emitted, PersistAll, Authenticates, DistinctKeys;
    KeysOf(w, auth, v, e, log);
    StepKeeps(w, auth, v, e, log, event, validator);
    var o := Step(e, event, validator);
    var all := log + Emitted(o.effects);
    PrefixSound(w, auth, v, o.engine, all, |log|);
    assert all[..|log|] == log;
    PrefixSound(w, auth, v, o.engine, all, |log| + executed);
    assert all[..|log| + executed] == log + Emitted(o.effects)[..executed];
    KeysOf(w, auth, v, o.engine, log + Emitted(o.effects)[..executed]);
    PersistAllAppends(log, Emitted(o.effects)[..executed]);
  }

  lemma RecordedGrows(log: seq<Decision>, more: seq<Decision>, m: SignableMessage)
    requires Recorded(log, m)
    ensures Recorded(log + more, m)
  {
    var i :| 0 <= i < |log| && log[i].message == m;
    assert (log + more)[i] == log[i];
  }

  /** The shape of the state after a delivery. */
  lemma DeliverShape(w: World, s: Net, v: ValidatorId, event: Event, validator: MessageValidator, executed: nat, s': Net)
    returns (e: Engine, written: seq<Decision>)
    requires w.Valid()
    requires v in s.nodes && s.nodes[v].engine.Some? && Sound(w, s.auth, v, s.nodes[v].engine.value, s.nodes[v].log)
    requires DeliverStep(w, s, v, event, validator, executed, s')
    ensures e == Step(s.nodes[v].engine.value, event, validator).engine
    ensures Sound(w, s.auth, v, e, s.nodes[v].log + written)
    ensures s' == s.(
      nodes := s.nodes[v := Node(Some(e), s.nodes[v].log + written)],
      decided := s.decided + if e.finalized.Some? then {(v, e.finalized.value)} else {})
  {
    hide Sound, Step, Emitted, PersistAll;
    var o := Step(s.nodes[v].engine.value, event, validator);
    var requested := if o.error.Some? then [] else Emitted(o.effects);
    DeliverNode(w, s.auth, v, s.nodes[v].engine.value, s.nodes[v].log, event, validator, if o.error.Some? then 0 else executed);
    assert requested[..executed] == Emitted(o.effects)[..if o.error.Some? then 0 else executed];
    e, written := o.engine, requested[..executed];
  }

  lemma DeliverKeeps(w: World, s: Net, v: ValidatorId, event: Event, validator: MessageValidator, executed: nat, s': Net)
    requires w.Valid()
    requires NetSound(w, s)
    requires DeliverStep(w, s, v, event, validator, executed, s')
    ensures NetSound(w, s')
  {
    hide Sound, LogSound, Step, Emitted, Recorded, CertificateValid, PersistAll, Authenticates;
    assert NodeSound(w, s.auth, v, s.nodes[v]);
    var e, written := DeliverShape(w, s, v, event, validator, executed, s');
    DeliverFrame(w, s, v, e, written, s');
  }

  lemma DeliverFrame(w: World, s: Net, v: ValidatorId, e: Engine, written: seq<Decision>, s': Net)
    requires w.Valid()
    requires NetSound(w, s)
    requires v in s.nodes && Sound(w, s.auth, v, e, s.nodes[v].log + written)
    requires s' == s.(
      nodes := s.nodes[v := Node(Some(e), s.nodes[v].log + written)],
      decided := s.decided + if e.finalized.Some? then {(v, e.finalized.value)} else {})
    ensures NetSound(w, s')
  {
    hide Sound, LogSound, Recorded, CertificateValid;
    SoundParts(w, s.auth, v, e, s.nodes[v].log + written);
    forall u | u in s'.nodes ensures NodeSound(w, s'.auth, u, s'.nodes[u]) {
      assert u != v ==> s'.nodes[u] == s.nodes[u] && NodeSound(w, s.auth, u, s.nodes[u]);
    }
    forall signed | signed in s'.auth && w.Honest(signed.vote.validator)
      ensures signed.vote.validator in s'.nodes && Recorded(s'.nodes[signed.vote.validator].log, VoteMessage(signed.vote))
    {
      if signed.vote.validator == v {
        RecordedGrows(s.nodes[v].log, written, VoteMessage(signed.vote));
      }
    }
  }

  lemma SoundParts(w: World, auth: Signatures, v: ValidatorId, e: Engine, log: seq<Decision>)
    requires |w.validators.validators| > 0
    requires Sound(w, auth, v, e, log)
    ensures LogSound(w, auth, v, log)
    ensures e.finalized.Some? ==>
      CertificateValid(w, auth, e.finalized.value.certificate) && e.finalized.value.blockId == e.finalized.value.certificate.blockId
  {
  }

  lemma SignKeeps(w: World, s: Net, signed: SignedVote, s': Net)
    requires w.Valid()
    requires NetSound(w, s)
    requires SignStep(w, s, signed, s')
    ensures NetSound(w, s')
  {
    hide NodeSound, Recorded;
    forall v | v in s'.nodes ensures NodeSound(w, s'.auth, v, s'.nodes[v]) {
      NodeMonotone(w, s.auth, s'.auth, v, s.nodes[v]);
    }
    assert DecidedIsCommitted(w, s') by {
      hide VoteFits, Supports;
    }
  }

  lemma CrashKeeps(w: World, s: Net, v: ValidatorId, s': Net)
    requires w.Valid()
    requires NetSound(w, s)
    requires CrashStep(s, v, s')
    ensures NetSound(w, s')
  {
    hide Sound, LogSound, Recorded, CertificateValid;
    forall u | u in s'.nodes ensures NodeSound(w, s'.auth, u, s'.nodes[u]) {
      assert NodeSound(w, s.auth, u, s.nodes[u]);
    }
  }
}
