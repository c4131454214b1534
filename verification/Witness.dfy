/**
 * The runs the protocol theorems speak about exist and reach decisions: whatever the number of
 * validators, any quorum whose first proposer is honest can decide any block, with Byzantine members
 * or without.
 */
module Witness {
  import opened Wrappers
  import opened Quorums
  import opened ConsensusTypes
  import opened EngineSpec
  import opened VoteCounting
  import opened ConsensusEngine
  import opened Protocol
  import opened EngineInvariant
  import opened EngineSteps
  import opened Network
  import opened Recovery
  import opened Agreement
  import opened StepFailures
  import opened Phases
  import opened WitnessSteps

  // ---------------------------------------------------------------- reachable networks

  ghost predicate Reachable(w: World, s: Net)
    requires |w.validators.validators| > 0
  {
    exists states, actions :: Run(w, states, actions) && states[|actions|] == s
  }

  lemma Onward(w: World, s: Net, a: Action, s': Net)
    requires |w.validators.validators| > 0 && Reachable(w, s) && Next(w, s, a, s')
    ensures Reachable(w, s')
  {
    hide Init, Next;
    var states, actions :| Run(w, states, actions) && states[|actions|] == s;
    var ss, aa := states + [s'], actions + [a];
    forall i | 0 <= i < |aa| ensures Next(w, ss[i], aa[i], ss[i + 1]) {
      if i < |actions| {
        assert ss[i] == states[i] && ss[i + 1] == states[i + 1] && aa[i] == actions[i];
      }
    }
    assert Run(w, ss, aa) && ss[|aa|] == s';
  }

  function WithNode(s: Net, u: ValidatorId, e: Engine, log: seq<Decision>): Net
  {
    s.(nodes := s.nodes[u := Node(Some(e), log)])
  }

  lemma PersistOne(log: seq<Decision>, d: seq<Decision>)
    requires |d| <= 1 && (d != [] ==> RowOf(log, d[0].message.Key()).None?)
    ensures PersistAll(log, d) == log + d
  {
    if d == [] {
      assert log + d == log;
    } else {
      assert d == [d[0]] && d[1..] == [];
      assert PersistAll(log + [d[0]], d[1..]) == log + [d[0]];
    }
  }

  /** One delivery to one validator. */
  lemma Delivers(w: World, s: Net, u: ValidatorId, e: Engine, log: seq<Decision>, event: Event) returns (e': Engine, d: seq<Decision>)
    requires |w.validators.validators| > 0 && |e.validators.validators| > 0
    requires Reachable(w, s) && u in s.nodes && s.nodes[u] == Node(Some(e), log)
    requires var o := Step(e, event, Accepting(s.auth));
      && o.error.None? && o.engine.finalized.None?
      && |Emitted(o.effects)| <= 1 && (Emitted(o.effects) != [] ==> RowOf(log, Emitted(o.effects)[0].message.Key()).None?)
    ensures var o := Step(e, event, Accepting(s.auth)); e' == o.engine && d == Emitted(o.effects)
    ensures Reachable(w, WithNode(s, u, e', log + d))
  {
    hide Step, Emitted, RowOf, PersistAll, Accepting, Authenticates, Reachable;
    AcceptingAuthenticates(s.auth);
    var o := Step(e, event, Accepting(s.auth));
    e', d := o.engine, Emitted(o.effects);
    assert d[..|d|] == d;
    PersistOne(log, d);
    assert s.decided + {} == s.decided;
    Onward(w, s, Deliver(u, event, Accepting(s.auth), |d|), WithNode(s, u, e', log + d));
  }

  lemma Signs(w: World, s: Net, signed: SignedVote) returns (s': Net)
    requires |w.validators.validators| > 0 && Reachable(w, s)
    requires w.Honest(signed.vote.validator) ==>
      signed.vote.validator in s.nodes && Recorded(s.nodes[signed.vote.validator].log, VoteMessage(signed.vote))
    ensures Reachable(w, s') && s' == s.(auth := s.auth + {signed})
  {
    hide Reachable, Recorded;
    s' := s.(auth := s.auth + {signed});
    Onward(w, s, Sign(signed), s');
  }

  /** Waking and starting a validator that has never run. */
  lemma Wakes(w: World, p: ValidatorId, s: Net, u: ValidatorId)
    requires w.Valid() && w.validators.Proposer(w.height, 0) == p && |w.validators.validators| > 0 && u in w.validators.validators
    requires Reachable(w, s) && u in s.nodes && s.nodes[u] == Node(None, [])
    ensures Reachable(w, WithNode(s, u, Begun(w, p, u), []))
  {
    hide Reachable, Step, Emitted, Accepting, Authenticates;
    AcceptingAuthenticates(s.auth);
    var e := FreshEngine(u, w.validators, w.height, w.config);
    var awake := WithNode(s, u, e, []);
    Onward(w, s, Restart(u, Accepting(s.auth)), awake);
    StartBegins(w, p, u, Accepting(s.auth));
    NoRow(e);
    var e', d := Delivers(w, awake, u, e, [], Start);
    var none: seq<Decision> := [];
    assert none + d == none;
    assert WithNode(awake, u, e', none + d) == WithNode(s, u, Begun(w, p, u), none);
  }

  lemma NoRow(e: Engine)
    ensures forall key :: RowOf([], key).None?
  {
  }

  // ---------------------------------------------------------------- stages of the round

  /** Only the listed validators' nodes differ. */
  ghost predicate OnlyNodes(s: Net, s': Net, ids: set<ValidatorId>)
  {
    && s'.auth == s.auth && s'.decided == s.decided && s'.nodes.Keys == s.nodes.Keys
    && forall u :: u in s.nodes && u !in ids ==> s'.nodes[u] == s.nodes[u]
  }

  ghost predicate HasPrevoted(w: World, p: ValidatorId, b: BlockId, u: ValidatorId, counted: set<ValidatorId>, s: Net)
  {
    && u in s.nodes && s.nodes[u].engine.Some? && Prevoting(w, p, b, u, counted, s.nodes[u].engine.value)
    && Recorded(s.nodes[u].log, VoteMessage(VoteOf(w, u, b, VoteKind.Prevote)))
    && RowOf(s.nodes[u].log, VoteKey(0, VoteKind.Precommit)).None?
  }

  ghost predicate HasPrecommitted(
    w: World, p: ValidatorId, b: BlockId, u: ValidatorId, quorum: set<ValidatorId>, counted: set<ValidatorId>, s: Net)
  {
    && u in s.nodes && s.nodes[u].engine.Some? && Precommitting(w, p, b, u, quorum, counted, s.nodes[u].engine.value)
    && Recorded(s.nodes[u].log, VoteMessage(VoteOf(w, u, b, VoteKind.Precommit)))
  }

  lemma AppendRow(log: seq<Decision>, d: Decision, key: DecisionKey)
    ensures RowOf(log + [d], key) == if d.message.Key() == key then Some(d) else RowOf(log, key)
    ensures Recorded(log + [d], d.message)
    ensures forall m :: Recorded(log, m) ==> Recorded(log + [d], m)
  {
    assert (log + [d])[..|log|] == log;
    assert (log + [d])[|log|] == d;
    forall m | Recorded(log, m) ensures Recorded(log + [d], m) {
      var i :| 0 <= i < |log| && log[i].message == m;
      assert (log + [d])[i].message == m;
    }
  }

  /** The proposer wakes, proposes and prevotes its own proposal. */
  lemma ProposerJoins(w: World, p: ValidatorId, b: BlockId, s: Net) returns (s': Net)
    requires w.Valid() && w.validators.Proposer(w.height, 0) == p && p in w.validators.validators && |w.validators.validators| > 0
    requires Reachable(w, s) && p in s.nodes && s.nodes[p] == Node(None, [])
    ensures Reachable(w, s') && OnlyNodes(s, s', {p}) && HasPrevoted(w, p, b, p, {}, s')
  {
    hide Reachable, Step, Emitted, Accepting, Prevoting, Listening, RowOf, Recorded, Begun;
    Wakes(w, p, s, p);
    var begun := WithNode(s, p, Begun(w, p, p), []);
    ProposerProposes(w, p, b, Accepting(begun.auth));
    NoRow(Begun(w, p, p));
    var e1, d1 := Delivers(w, begun, p, Begun(w, p, p), [], ProposalReady(w.height, 0, b));
    var proposed := WithNode(begun, p, e1, [] + d1);
    TakesProposal(w, p, b, p, e1, proposed.auth);
    assert [] + d1 == [] + [d1[0]];
    AppendRow([], d1[0], VoteKey(0, VoteKind.Prevote));
    AppendRow([], d1[0], VoteKey(0, VoteKind.Precommit));
    NotFinal(w, p, b, p, {}, {}, Step(e1, ProposalEvent(w, p, b, p), Accepting(proposed.auth)).engine);
    var e2, d2 := Delivers(w, proposed, p, e1, [] + d1, ProposalEvent(w, p, b, p));
    s' := WithNode(proposed, p, e2, ([] + d1) + d2);
    assert ([] + d1) + d2 == ([] + d1) + [d2[0]];
    AppendRow([] + d1, d2[0], VoteKey(0, VoteKind.Precommit));
  }

  /** Another validator wakes, hears the proposal and prevotes it. */
  lemma FollowerJoins(w: World, p: ValidatorId, b: BlockId, s: Net, u: ValidatorId) returns (s': Net)
    requires w.Valid() && w.validators.Proposer(w.height, 0) == p && p in w.validators.validators && |w.validators.validators| > 0
    requires u != p && u in w.validators.validators && Reachable(w, s) && u in s.nodes && s.nodes[u] == Node(None, [])
    ensures Reachable(w, s') && OnlyNodes(s, s', {u}) && HasPrevoted(w, p, b, u, {}, s')
  {
    hide Reachable, Step, Emitted, Accepting, Prevoting, RowOf, Recorded;
    Wakes(w, p, s, u);
    var begun := WithNode(s, u, Begun(w, p, u), []);
    assert Listening(w, p, b, u, Begun(w, p, u));
    TakesProposal(w, p, b, u, Begun(w, p, u), begun.auth);
    NoRow(Begun(w, p, u));
    NotFinal(w, p, b, u, {}, {}, Step(Begun(w, p, u), ProposalEvent(w, p, b, u), Accepting(begun.auth)).engine);
    var e', d := Delivers(w, begun, u, Begun(w, p, u), [], ProposalEvent(w, p, b, u));
    s' := WithNode(begun, u, e', [] + d);
    assert [] + d == [] + [d[0]];
    AppendRow([], d[0], VoteKey(0, VoteKind.Precommit));
  }

  lemma {:induction false} AllJoin(w: World, p: ValidatorId, b: BlockId, s: Net, ids: set<ValidatorId>) returns (s': Net)
    requires w.Valid() && w.validators.Proposer(w.height, 0) == p && p in w.validators.validators && |w.validators.validators| > 0
    requires Reachable(w, s) && forall u :: u in ids ==> u in w.validators.validators && u in s.nodes && s.nodes[u] == Node(None, [])
    ensures Reachable(w, s') && OnlyNodes(s, s', ids)
    ensures forall u :: u in ids ==> HasPrevoted(w, p, b, u, {}, s')
    decreases |ids|
  {
    hide Reachable, Prevoting, RowOf, Recorded;
    s' := s;
    if ids != {} {
      var u :| u in ids;
      var mid;
      if u == p {
        mid := ProposerJoins(w, p, b, s);
      } else {
        mid := FollowerJoins(w, p, b, s, u);
      }
      s' := AllJoin(w, p, b, mid, ids - {u});
    }
  }

  /** All members of a quorum sign: honest ones what they have stored, Byzantine ones freely. */
  lemma {:induction false} AllSign(w: World, b: BlockId, kind: VoteKind, s: Net, ids: set<ValidatorId>) returns (s': Net)
    requires |w.validators.validators| > 0 && Reachable(w, s)
    requires forall u :: u in ids && w.Honest(u) ==> u in s.nodes && Recorded(s.nodes[u].log, VoteMessage(VoteOf(w, u, b, kind)))
    ensures Reachable(w, s') && s'.nodes == s.nodes && s'.decided == s.decided && s.auth <= s'.auth
    ensures forall u :: u in ids ==> SignedAs(w, u, b, kind) in s'.auth
    decreases |ids|
  {
    hide Reachable, Recorded, World.Honest;
    s' := s;
    if ids != {} {
      var u :| u in ids;
      var mid := Signs(w, s, SignedAs(w, u, b, kind));
      s' := AllSign(w, b, kind, mid, ids - {u});
    }
  }

  lemma NextVoter(u: ValidatorId, quorum: set<ValidatorId>, counted: set<ValidatorId>) returns (x: ValidatorId)
    requires u in quorum && counted < quorum
    ensures x in quorum - counted && (counted == {} ==> x == u)
  {
    if counted == {} {
      x := u;
    } else {
      x :| x in quorum && x !in counted;
    }
  }

  lemma HearsOnePrevote(
    w: World, p: ValidatorId, b: BlockId, s: Net, u: ValidatorId, counted: set<ValidatorId>, x: ValidatorId) returns (s': Net)
    requires w.Valid() && |w.validators.validators| > 0 && Reachable(w, s) && HasPrevoted(w, p, b, u, counted, s)
    requires x in w.validators.validators && x !in counted && (x == u || u in counted) && SignedAs(w, x, b, VoteKind.Prevote) in s.auth
    requires |counted| + 1 < w.validators.Quorum()
    ensures Reachable(w, s') && OnlyNodes(s, s', {u}) && HasPrevoted(w, p, b, u, counted + {x}, s')
  {
    hide Reachable, Step, Emitted, Accepting, Prevoting, RowOf, Recorded, World.Valid;
    var e, log := s.nodes[u].engine.value, s.nodes[u].log;
    var event := VoteEvent(w, u, b, VoteKind.Prevote, x);
    PrevoteCounted(w, p, b, u, counted, x, e, s.auth);
    NotFinal(w, p, b, u, {}, counted + {x}, Step(e, event, Accepting(s.auth)).engine);
    var e', d := Delivers(w, s, u, e, log, event);
    assert log + d == log;
    s' := WithNode(s, u, e', log + d);
  }

  lemma HearsLastPrevote(
    w: World, p: ValidatorId, b: BlockId, s: Net, u: ValidatorId, counted: set<ValidatorId>, x: ValidatorId) returns (s': Net)
    requires w.Valid() && |w.validators.validators| > 0 && Reachable(w, s) && HasPrevoted(w, p, b, u, counted, s)
    requires x in w.validators.validators && x !in counted && (x == u || u in counted) && SignedAs(w, x, b, VoteKind.Prevote) in s.auth
    requires |counted| + 1 == w.validators.Quorum()
    ensures Reachable(w, s') && OnlyNodes(s, s', {u}) && HasPrecommitted(w, p, b, u, counted + {x}, {}, s')
  {
    hide Reachable, Step, Emitted, Accepting, Prevoting, Precommitting, RowOf, Recorded, World.Valid;
    var e, log := s.nodes[u].engine.value, s.nodes[u].log;
    var event := VoteEvent(w, u, b, VoteKind.Prevote, x);
    PrevoteCompletes(w, p, b, u, counted, x, e, s.auth);
    NotFinal(w, p, b, u, counted + {x}, {}, Step(e, event, Accepting(s.auth)).engine);
    var e', d := Delivers(w, s, u, e, log, event);
    assert log + d == log + [d[0]];
    AppendRow(log, d[0], VoteKey(0, VoteKind.Precommit));
    s' := WithNode(s, u, e', log + d);
  }

  /** One validator hears the missing prevotes, its own first, and precommits at the last. */
  lemma {:induction false} HearsPrevotes(
    w: World, p: ValidatorId, b: BlockId, s: Net, u: ValidatorId, quorum: set<ValidatorId>, counted: set<ValidatorId>) returns (s': Net)
    requires w.Valid() && |w.validators.validators| > 0 && Reachable(w, s) && u in quorum && quorum <= w.validators.Ids()
    requires |quorum| == w.validators.Quorum() && counted < quorum && (counted != {} ==> u in counted)
    requires HasPrevoted(w, p, b, u, counted, s)
    requires forall x :: x in quorum ==> SignedAs(w, x, b, VoteKind.Prevote) in s.auth
    ensures Reachable(w, s') && OnlyNodes(s, s', {u}) && HasPrecommitted(w, p, b, u, quorum, {}, s')
    decreases |quorum - counted|
  {
    hide Reachable, HasPrevoted, HasPrecommitted, World.Valid, ValidatorSet.Quorum;
    var x := NextVoter(u, quorum, counted);
    OneMore(counted, x);
    StrictlySmaller(counted + {x}, quorum);
    if |counted| + 1 < w.validators.Quorum() {
      var mid := HearsOnePrevote(w, p, b, s, u, counted, x);
      assert quorum - (counted + {x}) == (quorum - counted) - {x};
      s' := HearsPrevotes(w, p, b, mid, u, quorum, counted + {x});
    } else {
      s' := HearsLastPrevote(w, p, b, s, u, counted, x);
    }
  }

  lemma StrictlySmaller(a: set<ValidatorId>, b: set<ValidatorId>)
    requires a <= b
    ensures |a| <= |b| && (|a| == |b| ==> a == b)
  {
    SubsetSize(a, b);
    if a != b {
      assert |b - a| > 0;
      assert b == a + (b - a);
    }
  }

  lemma NotFinal(w: World, p: ValidatorId, b: BlockId, u: ValidatorId, quorum: set<ValidatorId>, counted: set<ValidatorId>, e: Engine)
    ensures Prevoting(w, p, b, u, counted, e) ==> e.finalized.None?
    ensures Precommitting(w, p, b, u, quorum, counted, e) ==> e.finalized.None?
  {
  }

  lemma {:induction false} AllHear(w: World, p: ValidatorId, b: BlockId, s: Net, quorum: set<ValidatorId>, ids: set<ValidatorId>) returns (s': Net)
    requires w.Valid() && |w.validators.validators| > 0 && Reachable(w, s) && ids <= quorum <= w.validators.Ids()
    requires |quorum| == w.validators.Quorum() && forall u :: u in ids ==> HasPrevoted(w, p, b, u, {}, s)
    requires forall x :: x in quorum ==> SignedAs(w, x, b, VoteKind.Prevote) in s.auth
    ensures Reachable(w, s') && OnlyNodes(s, s', ids)
    ensures forall u :: u in ids ==> HasPrecommitted(w, p, b, u, quorum, {}, s')
    decreases |ids|
  {
    hide Reachable, Prevoting, Precommitting, RowOf, Recorded;
    s' := s;
    if ids != {} {
      var u :| u in ids;
      assert u in quorum;
      var mid := HearsPrevotes(w, p, b, s, u, quorum, {});
      s' := AllHear(w, p, b, mid, quorum, ids - {u});
    }
  }

  lemma HearsOnePrecommit(
    w: World, p: ValidatorId, b: BlockId, s: Net, u: ValidatorId, quorum: set<ValidatorId>, counted: set<ValidatorId>, x: ValidatorId)
    returns (s': Net)
    requires w.Valid() && |w.validators.validators| > 0 && Reachable(w, s) && HasPrecommitted(w, p, b, u, quorum, counted, s)
    requires |quorum| == w.validators.Quorum() > 0 && |counted| + 1 < w.validators.Quorum()
    requires x in w.validators.validators && x !in counted && (x == u || u in counted) && SignedAs(w, x, b, VoteKind.Precommit) in s.auth
    ensures Reachable(w, s') && OnlyNodes(s, s', {u}) && HasPrecommitted(w, p, b, u, quorum, counted + {x}, s')
  {
    hide Reachable, Step, Emitted, Accepting, Precommitting, Recorded, World.Valid;
    var e, log := s.nodes[u].engine.value, s.nodes[u].log;
    var event := VoteEvent(w, u, b, VoteKind.Precommit, x);
    PrecommitCounted(w, p, b, u, quorum, counted, x, e, s.auth);
    NotFinal(w, p, b, u, quorum, counted + {x}, Step(e, event, Accepting(s.auth)).engine);
    var e', d := Delivers(w, s, u, e, log, event);
    assert log + d == log;
    s' := WithNode(s, u, e', log + d);
  }

  /** A validator hears all precommits but the last. */
  lemma {:induction false} HearsPrecommits(
    w: World, p: ValidatorId, b: BlockId, s: Net, u: ValidatorId, quorum: set<ValidatorId>, counted: set<ValidatorId>)
    returns (s': Net, last: ValidatorId)
    requires w.Valid() && |w.validators.validators| > 0 && Reachable(w, s) && u in quorum && quorum <= w.validators.Ids()
    requires |quorum| == w.validators.Quorum() > 0 && counted < quorum && (counted != {} ==> u in counted)
    requires HasPrecommitted(w, p, b, u, quorum, counted, s)
    requires forall x :: x in quorum ==> SignedAs(w, x, b, VoteKind.Precommit) in s.auth
    ensures Reachable(w, s') && OnlyNodes(s, s', {u}) && last in quorum
    ensures HasPrecommitted(w, p, b, u, quorum, quorum - {last}, s') && (last == u || u in quorum - {last})
    decreases |quorum - counted|
  {
    hide Reachable, HasPrecommitted, World.Valid, ValidatorSet.Quorum;
    var x := NextVoter(u, quorum, counted);
    OneMore(counted, x);
    StrictlySmaller(counted + {x}, quorum);
    if |counted| + 1 < w.validators.Quorum() {
      var mid := HearsOnePrecommit(w, p, b, s, u, quorum, counted, x);
      assert quorum - (counted + {x}) == (quorum - counted) - {x};
      s', last := HearsPrecommits(w, p, b, mid, u, quorum, counted + {x});
    } else {
      assert counted == quorum - {x};
      s', last := s, x;
    }
  }

  // ---------------------------------------------------------------- decisions

  lemma StartOfRun(w: World) returns (s: Net)
    requires |w.validators.validators| > 0
    ensures Reachable(w, s) && s.auth == {} && s.decided == {} && s.nodes.Keys == HonestIds(w)
    ensures forall u :: u in s.nodes ==> s.nodes[u] == Node(None, [])
  {
    s := Net({}, map v | v in HonestIds(w) :: Node(None, []), {});
    assert Run(w, [s], []);
  }

  /** A run in which all of a quorum has precommitted and the proposer lacks one last precommit. */
  lemma AlmostDecided(w: World, p: ValidatorId, b: BlockId, quorum: set<ValidatorId>) returns (s: Net, last: ValidatorId)
    requires Setting(w, p, quorum)
    ensures |w.validators.validators| > 0 && Reachable(w, s) && last in quorum
    ensures HasPrecommitted(w, p, b, p, quorum, quorum - {last}, s) && (last == p || p in quorum - {last})
    ensures forall x :: x in quorum ==> SignedAs(w, x, b, VoteKind.Precommit) in s.auth
  {
    hide Reachable, HasPrevoted, HasPrecommitted, Recorded;
    var honest := set u | u in quorum && w.Honest(u);
    var s0 := StartOfRun(w);
    assert honest <= s0.nodes.Keys;
    var s1 := AllJoin(w, p, b, s0, honest);
    PrevotesRecorded(w, p, b, s1, honest);
    var s2 := AllSign(w, b, VoteKind.Prevote, s1, quorum);
    SameNodesPrevoted(w, p, b, s1, s2, honest);
    var s3 := AllHear(w, p, b, s2, quorum, honest);
    PrecommitsRecorded(w, p, b, s3, quorum, honest);
    var s4 := AllSign(w, b, VoteKind.Precommit, s3, quorum);
    SameNodesPrecommitted(w, p, b, s3, s4, quorum);
    s, last := HearsPrecommits(w, p, b, s4, p, quorum, {});
  }

  lemma PrevotesRecorded(w: World, p: ValidatorId, b: BlockId, s: Net, ids: set<ValidatorId>)
    requires forall u :: u in ids ==> HasPrevoted(w, p, b, u, {}, s)
    ensures forall u :: u in ids ==> u in s.nodes && Recorded(s.nodes[u].log, VoteMessage(VoteOf(w, u, b, VoteKind.Prevote)))
  {
    hide Recorded, Prevoting, RowOf;
  }

  lemma PrecommitsRecorded(w: World, p: ValidatorId, b: BlockId, s: Net, quorum: set<ValidatorId>, ids: set<ValidatorId>)
    requires forall u :: u in ids ==> HasPrecommitted(w, p, b, u, quorum, {}, s)
    ensures forall u :: u in ids ==> u in s.nodes && Recorded(s.nodes[u].log, VoteMessage(VoteOf(w, u, b, VoteKind.Precommit)))
  {
    hide Recorded, Precommitting;
  }

  lemma SameNodesPrevoted(w: World, p: ValidatorId, b: BlockId, s: Net, s': Net, ids: set<ValidatorId>)
    requires s'.nodes == s.nodes && forall u :: u in ids ==> HasPrevoted(w, p, b, u, {}, s)
    ensures forall u :: u in ids ==> HasPrevoted(w, p, b, u, {}, s')
  {
    hide Recorded, Prevoting, RowOf;
  }

  lemma SameNodesPrecommitted(w: World, p: ValidatorId, b: BlockId, s: Net, s': Net, quorum: set<ValidatorId>)
    requires s'.nodes == s.nodes && HasPrecommitted(w, p, b, p, quorum, {}, s)
    ensures HasPrecommitted(w, p, b, p, quorum, {}, s')
  {
    hide Recorded, Precommitting;
  }

  /** A delivery that finalizes is recorded as a decision. */
  lemma Concludes(w: World, s: Net, u: ValidatorId, e: Engine, log: seq<Decision>, event: Event) returns (s': Net)
    requires |w.validators.validators| > 0 && |e.validators.validators| > 0
    requires Reachable(w, s) && u in s.nodes && s.nodes[u] == Node(Some(e), log)
    requires var o := Step(e, event, Accepting(s.auth)); o.error.None? && o.engine.finalized.Some? && Emitted(o.effects) == []
    ensures Reachable(w, s') && s'.auth == s.auth
    ensures (u, Step(e, event, Accepting(s.auth)).engine.finalized.value) in s'.decided
  {
    hide Step, Emitted, Accepting, Authenticates, Reachable;
    AcceptingAuthenticates(s.auth);
    var e' := Step(e, event, Accepting(s.auth)).engine;
    s' := WithNode(s, u, e', log).(decided := s.decided + {(u, e'.finalized.value)});
    assert PersistAll(log, []) == log;
    Onward(w, s, Deliver(u, event, Accepting(s.auth), 0), s');
  }

  /**
   * Decisions are possible: for every world, every block and every quorum that contains the honest
   * proposer of round zero, there is a run in which the proposer finalizes the block with the votes
   * of exactly that quorum. Members of the quorum may be Byzantine; everyone else may stay silent.
   */
  lemma QuorumCanDecide(w: World, p: ValidatorId, b: BlockId, quorum: set<ValidatorId>) returns (s: Net)
    requires Setting(w, p, quorum)
    ensures |w.validators.validators| > 0 && Reachable(w, s)
    ensures exists d :: d in s.decided && d.0 == p && d.1.blockId == b
    ensures forall x :: x in quorum ==> SignedAs(w, x, b, VoteKind.Precommit) in s.auth
  {
    hide Reachable, Step, Emitted, Accepting, Precommitting, Recorded;
    var before, last := AlmostDecided(w, p, b, quorum);
    var e, log := before.nodes[p].engine.value, before.nodes[p].log;
    LastOne(quorum, last);
    PrecommitCompletes(w, p, b, p, quorum, quorum - {last}, last, e, before.auth);
    assert quorum - {last} + {last} == quorum;
    s := Concludes(w, before, p, e, log, VoteEvent(w, p, b, VoteKind.Precommit, last));
    assert (p, Step(e, VoteEvent(w, p, b, VoteKind.Precommit, last), Accepting(before.auth)).engine.finalized.value) in s.decided;
  }

  lemma LastOne(quorum: set<ValidatorId>, last: ValidatorId)
    requires last in quorum
    ensures |quorum - {last}| + 1 == |quorum|
  {
  }

  // ---------------------------------------------------------------- exceptions that happen

  lemma ReachableSound(w: World, s: Net)
    requires w.Valid() && |w.validators.validators| > 0 && Reachable(w, s)
    ensures NetSound(w, s)
  {
    hide NetSound, Next, Init;
    var states, actions :| Run(w, states, actions) && states[|actions|] == s;
    RunSound(w, states, actions, |actions|);
  }

  /** Accepts the same signatures and refuses every certificate, as a node without the block bytes does. */
  function Refusing(auth: Signatures): MessageValidator
  {
    Accepting(auth).(validateCertificate := _ => Reject(InvalidCertificateForApplication))
  }

  lemma RefusingAuthenticates(auth: Signatures)
    ensures Authenticates(Refusing(auth), auth)
  {
  }

  /** The precommit that completes the quorum is evaluated, and the hook refuses the certificate. */
  lemma LastPrecommitFails(
    w: World, p: ValidatorId, b: BlockId, u: ValidatorId, quorum: set<ValidatorId>, counted: set<ValidatorId>, x: ValidatorId,
    e: Engine, auth: Signatures)
    requires w.Valid() && Precommitting(w, p, b, u, quorum, counted, e) && x in w.validators.validators && x !in counted
    requires |quorum| == w.validators.Quorum() > 0 && |counted| + 1 == w.validators.Quorum()
    requires SignedAs(w, x, b, VoteKind.Precommit) in auth && (x == u || u in counted)
    ensures |e.validators.validators| > 0 && FailsMidway(e, VoteEvent(w, u, b, VoteKind.Precommit, x), Refusing(auth))
  {
    hide QuorumVotes, EvaluatePrevotes, SlotOf;
    PrecommitCount(w, p, b, u, quorum, counted, x, e);
    ZeroIsCached(e);
    assert MessageFault(e, SignedVoteMessage(SignedAs(w, x, b, VoteKind.Precommit)), Refusing(auth)).None?;
    hide MessageFault, Cacheable;
    var c := Counted(w, u, b, VoteKind.Precommit, x, e);
    assert SlotVotes(e, 0, VoteKind.Precommit) == if Slot(VoteKind.Precommit) in e.votes then e.votes[Slot(VoteKind.Precommit)] else map[];
    SameVotesSameQuorum(e.(votes := c.votes), c, 0, VoteKind.Precommit);
  }

  /**
   * A failing call that changes the engine happens in a run of every world: with a hook that refuses
   * the certificate, the last precommit is counted and the call fails.
   */
  lemma QuorumCanStumble(w: World, p: ValidatorId, b: BlockId, quorum: set<ValidatorId>)
    returns (s: Net, event: Event, validator: MessageValidator)
    requires Setting(w, p, quorum)
    ensures |w.validators.validators| > 0 && Reachable(w, s)
    ensures p in s.nodes && s.nodes[p].engine.Some? && |s.nodes[p].engine.value.validators.validators| > 0
    ensures Authenticates(validator, s.auth)
    ensures var e := s.nodes[p].engine.value;
      && FailsMidway(e, event, validator)
      && Step(e, event, validator).error.Some? && Step(e, event, validator).engine != e
  {
    hide Reachable, Step, Accepting, Precommitting, Recorded, NetSound, FailsMidway, Authenticates;
    var last;
    s, last := AlmostDecided(w, p, b, quorum);
    var e, log := s.nodes[p].engine.value, s.nodes[p].log;
    LastOne(quorum, last);
    validator := Refusing(s.auth);
    event := VoteEvent(w, p, b, VoteKind.Precommit, last);
    RefusingAuthenticates(s.auth);
    LastPrecommitFails(w, p, b, p, quorum, quorum - {last}, last, e, s.auth);
    ReachableSound(w, s);
    NodeIsSound(w, s, p);
    FailureChangesEngineIff(w, s.auth, p, e, log, event, validator);
  }

  lemma NodeIsSound(w: World, s: Net, u: ValidatorId)
    requires |w.validators.validators| > 0 && NetSound(w, s) && u in s.nodes && s.nodes[u].engine.Some?
    ensures Sound(w, s.auth, u, s.nodes[u].engine.value, s.nodes[u].log)
  {
    assert NodeSound(w, s.auth, u, s.nodes[u]);
  }

  /** A fresh engine that hears the certificate of a decision before `Start` ends up finalized in the propose phase. */
  lemma LateStartHappens(w: World, p: ValidatorId, b: BlockId, quorum: set<ValidatorId>, u: ValidatorId)
    returns (s: Net, c: CommitCertificate)
    requires Setting(w, p, quorum)
    ensures |w.validators.validators| > 0 && Reachable(w, s)
    ensures var e := FreshEngine(u, w.validators, w.height, w.config);
      && var accepted := Step(e, Certificate(c), Accepting(s.auth)).engine;
      |accepted.validators.validators| > 0 && Split(Step(accepted, Start, Accepting(s.auth)).engine)
  {
    hide Step, Reachable, NetSound, CertificateValid, Accepting, Authenticates;
    s := QuorumCanDecide(w, p, b, quorum);
    var d :| d in s.decided && d.0 == p && d.1.blockId == b;
    c := d.1.certificate;
    ReachableSound(w, s);
    DecidedCertificate(w, s, d);
    var e := FreshEngine(u, w.validators, w.height, w.config);
    AcceptingAuthenticates(s.auth);
    AcceptingWilling(s.auth, c);
    CertificateAccepted(w, s.auth, e, c, Accepting(s.auth));
    LateStartSplits(e, c, Accepting(s.auth));
  }

  lemma AcceptingWilling(auth: Signatures, c: CommitCertificate)
    ensures Accepting(auth).validateCertificate(c).Accept?
  {
  }
}
