/** What a validator's durable store guarantees over all of its lives. */
module Durability {
  import opened Wrappers
  import opened Quorums
  import opened ConsensusTypes
  import opened EngineSpec
  import opened Protocol
  import opened EngineInvariant
  import opened EngineSteps
  import opened Network
  import opened Recovery
  import opened Agreement

  predicate SameSlot(v: ValidatorId, a: Vote, b: Vote)
  {
    a.validator == v && b.validator == v && a.round == b.round && a.kind == b.kind
  }

  /**
   * No equivocation: in every state of every run the store of an honest validator holds at most one
   * message per signer slot, and all of its signatures are for stored messages, so no two of its
   * authentic votes differ for one round and kind. This needs no bound on the number of faults.
   */
  lemma NoEquivocation(w: World, states: seq<Net>, actions: seq<Action>, i: nat, v: ValidatorId)
    requires w.Valid() && Run(w, states, actions) && i < |states|
    requires w.Honest(v)
    ensures v in states[i].nodes && DistinctKeys(states[i].nodes[v].log)
    ensures forall a, b :: a in states[i].auth && b in states[i].auth && SameSlot(v, a.vote, b.vote) ==> a.vote == b.vote
  {
    hide Next, Init, LogSound, Sound, DecidedIsCommitted;
    RunSound(w, states, actions, i);
    var s := states[i];
    assert NodeSound(w, s.auth, v, s.nodes[v]);
    KeysDistinct(w, s.auth, v, s.nodes[v].log);
    forall a, b | a in s.auth && b in s.auth && SameSlot(v, a.vote, b.vote)
      ensures a.vote == b.vote
    {
      var x, y := BothRecorded(w, s, v, a.vote, b.vote);
      var log := s.nodes[v].log;
      assert log[x].message.Key() == log[y].message.Key();
      assert x == y;
    }
  }

  /**
   * The signer store never has to refuse the engine: although caches are pruned and a restart
   * forgets them, every write that a step requests goes to a free slot.
   */
  lemma StoreNeverRefuses(w: World, states: seq<Net>, actions: seq<Action>, i: nat, v: ValidatorId, event: Event, validator: MessageValidator)
    requires w.Valid() && Run(w, states, actions) && i < |states|
    requires v in states[i].nodes && states[i].nodes[v].engine.Some?
    requires Authenticates(validator, states[i].auth)
    requires states[i].nodes[v].engine.value.validators == w.validators
    ensures var log := states[i].nodes[v].log;
      var requested := Emitted(Step(states[i].nodes[v].engine.value, event, validator).effects);
      && PersistAll(log, requested) == log + requested
      && forall k :: 0 <= k < |requested| ==> RowOf(log, requested[k].message.Key()).None?
  {
    hide Next, Init, LogSound, Sound, Step, Emitted;
    RunSound(w, states, actions, i);
    var s := states[i];
    assert NodeSound(w, s.auth, v, s.nodes[v]);
    var e, log := s.nodes[v].engine.value, s.nodes[v].log;
    var requested := Emitted(Step(e, event, validator).effects);
    DeliverNode(w, s.auth, v, e, log, event, validator, |requested|);
    assert requested[..|requested|] == requested;
    SoundParts(w, s.auth, v, Step(e, event, validator).engine, log + requested);
    KeysDistinct(w, s.auth, v, log + requested);
    forall k | 0 <= k < |requested| ensures RowOf(log, requested[k].message.Key()).None? {
      RowOfFound(log, requested[k].message.Key());
      assert (log + requested)[|log| + k] == requested[k];
      assert forall x :: 0 <= x < |log| ==> (log + requested)[x] == log[x];
    }
  }

  /**
   * A block precommit stays locked: the durable safety cell holds its lock, or the lock of a later
   * round in which another prevote quorum was seen.
   */
  lemma PrecommitStaysLocked(w: World, states: seq<Net>, actions: seq<Action>, i: nat, v: ValidatorId, k: nat)
    requires w.Valid() && Run(w, states, actions) && i < |states|
    requires w.Honest(v) && v in states[i].nodes
    requires k < |states[i].nodes[v].log| && IsBlockPrecommit(states[i].nodes[v].log[k].message)
    ensures var log := states[i].nodes[v].log;
      var vote := log[k].message.vote;
      var cell := log[|log| - 1].safety;
      && cell.lockedRound.Some? && cell.lockedBlock.Some?
      && Polka(w, states[i].auth, cell.lockedRound.value, cell.lockedBlock.value)
      && (cell.lockedRound.value > vote.round
          || (cell.lockedRound == Some(vote.round) && Block(cell.lockedBlock.value) == vote.value))
  {
    hide Next, Init, Sound;
    RunSound(w, states, actions, i);
    var s := states[i];
    assert NodeSound(w, s.auth, v, s.nodes[v]);
    LockInCell(w, s.auth, v, s.nodes[v].log, k);
  }

  lemma LockInCell(w: World, auth: Signatures, v: ValidatorId, log: seq<Decision>, k: nat)
    requires |w.validators.validators| > 0 && LogSound(w, auth, v, log)
    requires k < |log| && IsBlockPrecommit(log[k].message)
    ensures LockCovers(log[|log| - 1].safety, log[k].message.vote.round, log[k].message.vote.value.id)
    ensures SafetySound(w, auth, log[|log| - 1].safety)
  {
  }

  /**
   * Restart closure: in every reachable state, recovery from the store succeeds exactly when the
   * store is empty or the round after the last decision is below the limit; it restores the lock
   * and the valid value with its proof, and reserves every stored decision.
   */
  lemma RestartAccepted(w: World, states: seq<Net>, actions: seq<Action>, i: nat, v: ValidatorId, validator: MessageValidator)
    requires w.Valid() && Run(w, states, actions) && i < |states|
    requires w.Honest(v) && v in states[i].nodes
    requires Authenticates(validator, states[i].auth)
    ensures var log := states[i].nodes[v].log;
      var made := Recover(w, v, log, validator);
      && (made.Ok? <==> (log == [] || log[|log| - 1].safety.round + 1 < w.config.maxRoundsPerHeight))
      && (made.Ok? && log != [] ==>
            && SafetyOf(made.value) == log[|log| - 1].safety.(round := log[|log| - 1].safety.round + 1)
            && forall k :: 0 <= k < |log| ==>
                 log[k].message.Key() in made.value.localDecisions
                 && made.value.localDecisions[log[k].message.Key()] == log[k].message)
  {
    hide Next, Init, LogSound, Sound, Recover;
    RunSound(w, states, actions, i);
    assert NodeSound(w, states[i].auth, v, states[i].nodes[v]);
    RecoverSucceeds(w, states[i].auth, v, states[i].nodes[v].log, validator);
  }
}
