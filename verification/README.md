# A verified model of KCoin

KCoin is a small proof-of-authority chain. Validators agree on one block per height with a
Tendermint-style engine, the protocol crate executes blocks on a ledger with a fixed issuance
schedule, a node actor wires both to a mempool, a block synchronizer and a database, and the web
wallet writes addresses in Bech32m. This project models that logic in Dafny and proves what the
repository relies on: that honest nodes never finalize different blocks, that money is conserved,
that replicas are identical, and that what is encoded, stored or indexed can be read back exactly.

## How it is organised

Each core part exists twice: as a class or methods with the fields, loops and early returns of the
source, and as functions on values. The methods are proved equal to the functions; the theorems are
about the functions.

- Consensus. `ConsensusTypes.dfy`, `EngineSpec.dfy` (values), `Consensus.dfy` (the engine class),
  `VoteCounting.dfy`, `EngineInvariant.dfy` and `EngineSteps.dfy` (what every step keeps),
  `Protocol.dfy`, `Network.dfy` and `Recovery.dfy` (many validators, signatures, write-once stores,
  crashes and restarts), `Agreement.dfy`, `Durability.dfy`, `Unlocking.dfy`, `Progress.dfy`,
  `Rotation.dfy`, `Certificates.dfy`, `Transfer.dfy`, `Quorums.dfy`, `StepFailures.dfy` and `Phases.dfy`
  (when calls are not no-ops), `WitnessSteps.dfy` and `Witness.dfy` (runs that reach decisions).
- Ledger and blocks. `Merkle.dfy`, `LedgerSpec.dfy` (values), `LedgerState.dfy` (the class),
  `LedgerInvariant.dfy`, `Blocks.dfy`, and `Finality.dfy`, which carries consensus safety over to
  the ledgers of replicas.
- Node. `NodeSpec.dfy` (values), `NodeActor.dfy` (the class), `Mempool.dfy`, `NodeInvariant.dfy`,
  `NodeTheorems.dfy`, `Asking.dfy` (when the synchronizer stops), `Driver.dfy` (the work loop around the engine), `ExplorerSpec.dfy`,
  `Explorer.dfy` and `Store.dfy` (tables, projections, reindex).
- Addresses. `Radix.dfy`, `Regrouping.dfy`, `Checksum.dfy`, `Bech32.dfy`.

`Example.dfy` puts four validators, binding hashes and a certified block together, so that the
end-to-end theorems are not about nothing. `dafny verify dfyconfig.toml` checks all of it.

## What is assumed

- Signatures: a set of signed votes that exist. Anyone may add a signature of a Byzantine validator
  at any time; one of an honest validator exists only for a message in that validator's durable
  store. An engine's validator accepts exactly the existing signatures and judges proposals and
  certificates in any further way it likes.
- Hashes: identifiers are numbers. Where a theorem needs it, it asks for collision-free Merkle
  hashes and injective transaction and block ids by name (`CollisionFree`, `HashesBind`).
- Clocks, timers, message order, loss and duplication are arbitrary: a network step hands any event
  to any engine. Storage is one atomic update per SQL transaction; a crash may cut the writes of a
  step after any prefix.
- Rounds, heights and amounts are natural numbers, with the source's checked, saturating and
  wrapping operations written out. Identifiers are 32-byte strings read as big-endian numbers, so
  their order is the order of the source's maps.

## Where code and documents differ, and what is not true

- Algorithm 1 of arXiv:1807.04938 unlocks on valid_round >= locked_round; the engine compares
  strictly. The two are shown to decide alike on reachable states.
- `step` returning an error is not always a no-op. It changes the engine if and only if the call
  evaluates a round with a block precommit quorum whose certificate the application hook refuses;
  `StepFailures.dfy` proves this for every event, and `Witness.dfy` has a run in which it happens.
- "Finalized" and "in the finalized phase" come apart if and only if `Start` was called on an engine
  that had already accepted a certificate (`Phases.dfy`, with a run in `Witness.dfy`).
- `build_block` does not check the block size, `apply_block` does. The round trip holds if and only
  if the block fits; blocks of at most 1,000 accepted transactions always do, and 20,000 need not.
- `[a,b,c]` and `[a,b,c,c]` have one Merkle root. Binding holds for duplicate-free lists, which are
  the only ones `apply_block` accepts.
- `ValidatorSet::proposer` adds before it reduces, in 64 bits, block verification reduces first.
  They agree if and only if the sum fits or the number of validators divides 2^64.
- The synchronizer has a request on its way while it has a target, a connected peer and a running
  network, until one kind of step: an empty reply to the active request when the node's own height has
  already reached the target. `Asking.dfy` proves that this is the only one, for every command and
  every role, as long as 64 bits hold a next height to ask for. Only a standalone node gets its height
  there, by producing blocks while it synchronizes, and a run shows that it does.
- `reindex_store` restores the index from any corruption of the projections except one: a later
  row that carries the true hash of an earlier one makes the unique column refuse the repair.

## Model

| member | source | states |
|---|---|---|
| Agreement.AgreementHolds | crates/kcoin-consensus/src/engine.rs:470-506 | Agreement: in every run with at most floor((n-1)/3) Byzantine validators, arbitrary delivery and any number of crashes and restarts, all finalizations by honest validators, in any of their lives, by own quorum or by certificate, are for one block |
| Agreement.OneCommittedBlock | crates/kcoin-consensus/src/engine.rs:682-728 | In a reachable network state no two blocks have a precommit quorum at one height, in the same or different rounds |
| Agreement.CommitLocksPrevotes | crates/kcoin-consensus/src/engine.rs:730-743 | Lock induction: after a precommit quorum for a block in round r, every prevote quorum of a round from r on is for that block |
| Agreement.CommitHasPolka | crates/kcoin-consensus/src/engine.rs:702-707 | A precommit quorum for a block implies a prevote quorum for it in the same round |
| Agreement.OneValuePerSlot | crates/kcoin-consensus/src/engine.rs:981-993 | Two quorums for one round and kind are for one value (quorum overlap exceeds the fault bound) |
| Agreement.NoConflictingCommit | crates/kcoin-consensus/src/engine.rs:826-835 | Within the fault bound no event makes an engine report a conflicting commit |
| Recovery.RunSound | crates/kcoin-consensus/src/simulation.rs:274-345 | The network invariant (engine invariant of every live validator, log invariant of every store, signatures recorded, decisions committed) holds in every state of every run, for any number of Byzantine validators |
| EngineSteps.StepKeeps | crates/kcoin-consensus/src/engine.rs:470-506 | Every event, also one whose call fails, keeps the validator invariant: the lock is backed by a prevote quorum and covered by the valid value with its proof, decisions go to free slots, prevotes are justified by the lock rule |
| StepFailures.FailureChangesEngineIff | crates/kcoin-consensus/src/engine.rs:470-506 | A failing call changes a sound engine if and only if it evaluates a round with a block precommit quorum whose certificate the hook refuses; the condition is read off caches, event and hook, and the error is then the hook's |
| StepFailures.EvaluationFailsIff | crates/kcoin-consensus/src/engine.rs:711-727 | An evaluation before finalization fails if and only if the hook refuses the certificate of the round's precommit quorum |
| StepFailures.WillingHookFailsCleanly | crates/kcoin-consensus/src/engine.rs:470-506 | With a hook that refuses nothing every failing call is a no-op |
| StepFailures.ConflictNeedsCertificate | crates/kcoin-consensus/src/engine.rs:826-835 | Only a received certificate can contradict a finalization |
| Witness.QuorumCanStumble | crates/kcoin-consensus/src/engine.rs:711-725 | The failing call that changes the engine happens: in every world a run reaches a last precommit that is counted before the hook refuses |
| Phases.SplitIffLateStart | crates/kcoin-consensus/src/engine.rs:475-486 | Over a whole engine life, finalized and finalized phase come apart if and only if Start was called on an engine that had already accepted a certificate |
| Phases.SplitStepIff | crates/kcoin-consensus/src/engine.rs:508-518 | The step that takes them apart is exactly the Start of a finalized engine, and such an engine got there by an accepted certificate |
| Phases.FreshIsRegular | crates/kcoin-consensus/src/engine.rs:181-234 | A new engine begins such a life |
| Phases.RestoredIsRegular | crates/kcoin-consensus/src/engine.rs:244-272 | So does a restored one |
| Phases.FinalizedBeforeStart | crates/kcoin-consensus/src/engine.rs:483-486 | An engine that is finalized before Start accepted a verified certificate in that time |
| Witness.LateStartHappens | crates/kcoin-consensus/src/engine.rs:475-486 | In every world a run yields a certificate that a fresh engine accepts before Start, which then resets the phase |
| Durability.NoEquivocation | crates/kcoin-consensus/src/engine.rs:745-789 | Over all lives the store of an honest validator has at most one message per slot, and no two of its authentic votes differ for one round and kind, although caches are pruned and restarts forget them |
| Durability.StoreNeverRefuses | crates/kcoin-node/src/storage.rs:588-665 | Every write an engine step requests goes to a free slot of the signer store, so the store never has to refuse it |
| Durability.PrecommitStaysLocked | crates/kcoin-consensus/src/engine.rs:697-707 | After a signed block precommit the durable safety cell holds its lock or the lock of a later round with a prevote quorum |
| Durability.RestartAccepted | crates/kcoin-consensus/src/engine.rs:244-320 | Closure: in every reachable state recovery from the store succeeds if and only if the store is empty or round+1 of the last decision is below the limit; it restores lock, valid value and proof and reserves every stored decision |
| Recovery.RecoverSucceeds | crates/kcoin-node/src/runtime.rs:344-370 | Exactly when recovery of a validator's log succeeds, with which engine, and that the engine satisfies the invariant again |
| Recovery.SafetyStateAccepted | crates/kcoin-consensus/src/engine.rs:396-455 | Every safety state a sound validator emits passes the restore checks, including its authenticated quorum proof, unless the round limit is reached |
| Network.DeliverKeeps | crates/kcoin-node/src/runtime.rs:986-1015 | A delivered event with any prefix of its writes carried out, in effect order, keeps the network invariant |
| Unlocking.StrictRuleIsPaperRule | crates/kcoin-consensus/src/engine.rs:730-743 | On reachable engines and accepted proposals the strict rule valid_round > locked_round decides as Algorithm 1 of arXiv:1807.04938 does with >=; equality needs prevote-quorum uniqueness |
| Unlocking.ProofUnlocks | crates/kcoin-consensus/src/engine.rs:730-743 | A proposal with a valid-round proof of round vr is prevoted by every honest validator whose lock round is at most vr |
| Progress.TimeoutProgresses | crates/kcoin-consensus/src/engine.rs:791-824 | Before finalization a current timeout strictly raises (round, phase), also when the call fails, or reports the round limit and changes nothing |
| Progress.StepKeepsWindow | crates/kcoin-consensus/src/engine.rs:995-1020 | Every step keeps the cached proposals and votes of a started engine inside the round window |
| Progress.CachedRoundsBounded | crates/kcoin-consensus/src/engine.rs:457-463 | A started engine caches at most max_cached_rounds + max_round_ahead rounds |
| Rotation.RotationsAgreeIff | crates/kcoin-consensus/src/types.rs:163-167 | The engine's add-then-reduce rotation names the proposer that block verification expects if and only if the sum fits 64 bits or the set size divides 2^64 |
| Rotation.EveryValidatorOnce | crates/kcoin-protocol/src/commit.rs:189-201 | Any n consecutive rounds give each validator exactly one proposer slot, at every height |
| Rotation.HeaderSlot | crates/kcoin-node/src/runtime.rs:2345-2357 | Reducing height and round before adding selects the slot of their sum |
| Witness.QuorumCanDecide | crates/kcoin-consensus/src/simulation.rs:210-224 | Decisions are possible in every world: for every block and every quorum with the honest proposer of round zero, Byzantine members included and everyone else silent, a run finalizes the block |
| Example.FourDecide | crates/kcoin-consensus/src/simulation.rs:421-434 | Four validators, one Byzantine and voting, one honest and silent: a run decides any block |
| Example.GovernedHistoryExists | crates/kcoin-protocol/src/ledger.rs:541-551 | Certified histories and runs that govern them exist together |
| Example.HypothesesAreMet | crates/kcoin-protocol/src/ledger.rs:541-551 | All hypotheses of the end-to-end theorems hold at once for four validators, binding hashes and a certified block |
| VoteCounting.QuorumVotesAre | crates/kcoin-consensus/src/engine.rs:981-993 | What quorum_votes returns: the first value with a quorum, with all its voters' votes in validator order, or none exactly when no value has one |
| VoteCounting.QuorumValueUnique | crates/kcoin-consensus/src/engine.rs:640-666 | With one cached vote per validator at most one value has a quorum, so the value order cannot matter |
| VoteCounting.ProofFaultNone | crates/kcoin-consensus/src/engine.rs:893-914 | The quorum-proof loops report no fault if and only if all votes match, are authentic and have distinct signers |
| Quorums.QuorumSize | crates/kcoin-protocol/src/commit.rs:219-226 | quorum_size(n) = floor(2n/3)+1 for n > 0, and never more than n |
| Quorums.HonestOverlap | crates/kcoin-protocol/src/commit.rs:219-226 | Any two quorums share a validator that is not Byzantine |
| ConsensusTypes.ValidatorSet.Create | crates/kcoin-consensus/src/types.rs:121-133 | Accepts exactly the nonempty duplicate-free lists; the duplicate reported is the first one met |
| ConsensusEngine.Consensus.Step | crates/kcoin-consensus/src/engine.rs:470-506 | New fields and reply of every event equal the engine specification, the dropped effects of a failed call included |
| ConsensusEngine.Consensus.Create | crates/kcoin-consensus/src/engine.rs:181-234 | Construction checks in order, and the fresh engine |
| ConsensusEngine.Consensus.CreateWithSafetyState | crates/kcoin-consensus/src/engine.rs:244-272 | Resumes in the round after the safety state, or the exact error |
| ConsensusEngine.Consensus.RestoreLocalDecision | crates/kcoin-consensus/src/engine.rs:279-320 | Reserves a durable slot, or the exact error with the engine unchanged |
| ConsensusEngine.Consensus.CheckProof | crates/kcoin-consensus/src/engine.rs:893-914 | The loop with its growing signer set finds the first faulty vote of a quorum proof |
| ConsensusEngine.Consensus.QuorumOf | crates/kcoin-consensus/src/engine.rs:981-993 | Grouping the cached votes and taking the first group of quorum size is the specified quorum value with its votes |
| ConsensusEngine.Consensus.PruneCaches | crates/kcoin-consensus/src/engine.rs:1002-1020 | All five caches keep exactly the rounds inside the window |
| ConsensusEngine.Consensus.CastVote | crates/kcoin-consensus/src/engine.rs:745-770 | A vote is decided, requested to be persisted with the current safety state, and the phase moves on, unless its slot is taken |
| ConsensusEngine.Consensus.EvaluateRound | crates/kcoin-consensus/src/engine.rs:682-728 | Valid value, lock, precommit and certificate of one evaluation, in effect order |
| ConsensusEngine.Consensus.EnterRound | crates/kcoin-consensus/src/engine.rs:508-533 | Round entry: limit, pruning, timeout, cached proposal or proposal request |
| ConsensusEngine.Consensus.ProposalReady | crates/kcoin-consensus/src/engine.rs:535-572 | Reproposal carries the valid-round proof exactly when the block is the valid value of an earlier round |
| ConsensusEngine.Consensus.AcceptProposal | crates/kcoin-consensus/src/engine.rs:612-638 | First proposal per round is cached, a different one is reported as evidence |
| ConsensusEngine.Consensus.AcceptVote | crates/kcoin-consensus/src/engine.rs:640-666 | First vote per validator, round and kind is counted, a different one is reported as evidence |
| ConsensusEngine.Consensus.AcknowledgePersisted | crates/kcoin-consensus/src/engine.rs:583-599 | Only the pending message of a slot is acknowledged; it is broadcast before it is counted |
| ConsensusEngine.Consensus.HandleTimeout | crates/kcoin-consensus/src/engine.rs:791-824 | Stale timeouts are ignored; current ones vote nil or enter the next round |
| ConsensusEngine.Consensus.Finalize | crates/kcoin-consensus/src/engine.rs:826-845 | First certificate finalizes, the same block again is a no-op, another block is an error |
| ConsensusEngine.Consensus.ValidateProposalStructure | crates/kcoin-consensus/src/engine.rs:868-919 | The exact first fault of a proposal, its proof included |
| ConsensusEngine.Consensus.ValidateCertificate | crates/kcoin-consensus/src/engine.rs:933-963 | The exact first fault of a certificate |
| Driver.ProcessConsensusEvent | crates/kcoin-node/src/runtime.rs:969-1053 | The work loop terminates, signs at most three messages, and everything it broadcasts is in the signer store under the signature that is sent |
| Driver.SignAndPersist | crates/kcoin-node/src/runtime.rs:1089-1138 | The signature returned is the durable one of the slot |
| Driver.LockHasValidBlock | crates/kcoin-node/src/runtime.rs:993-1000 | valid_block.or(locked_block) is the valid block on every sound engine: a lock always has a valid block of its round or later |
| Driver.FollowUpAnswers | crates/kcoin-node/src/runtime.rs:976-1015 | An event that answers an effect stays in its round, asks for no proposal, sends only the acknowledged message and pays for every new decision with an open signer slot |
| Driver.FirstAnswers | crates/kcoin-node/src/runtime.rs:969-985 | A start, message or timeout asks for at most three decisions and only for a proposal of the round it leads to |
| Certificates.Verify | crates/kcoin-protocol/src/commit.rs:135-175 | verify accepts if and only if size, version, chain id, set, order, authorization, signatures and quorum are right; which quorum an insufficient certificate misses |
| Certificates.ValidTransfers | crates/kcoin-consensus/src/types.rs:337-366 | A certificate valid for the engine, with 64-byte signatures and within the size limit, converts to one that passes verify |
| Certificates.VerifiedTransfers | crates/kcoin-consensus/src/types.rs:370-393 | A verified protocol certificate of this height converts to one that every engine accepts |
| Transfer.DecisionsTransfer | crates/kcoin-consensus/src/engine.rs:714-725 | In every reachable state the certificate of any honest decision passes every live honest peer's checks and, with 64-byte signatures within the size limit, converts to one that passes verify |
| EngineSteps.CertificateAccepted | crates/kcoin-consensus/src/engine.rs:933-963 | An engine accepts exactly the certificates with a quorum of distinct authentic precommits that the hook accepts |
| Certificates.TransferRoundTrip | crates/kcoin-consensus/src/types.rs:337-393 | There and back the certificate is the same up to the order of its precommits |
| Certificates.SortDistinct | crates/kcoin-protocol/src/commit.rs:112-122 | Sorting distinct signers gives the strict canonical order of the same signatures |
| Merkle.ComputeMerkleRoot | crates/kcoin-protocol/src/block.rs:120-140 | The level-by-level loop computes the root of the binary tree |
| Merkle.FrontierPadsList | crates/kcoin-protocol/src/block.rs:120-140 | That tree is perfect: its frontier has power-of-two length, the list as a prefix, and only its members behind |
| Merkle.SameRootIffSameFrontier | crates/kcoin-protocol/src/block.rs:115-140 | With collision-free hashes two lists share a root if and only if padding makes them one list |
| Merkle.DistinctBinding | crates/kcoin-protocol/src/block.rs:115-140 | With collision-free hashes the root binds duplicate-free lists |
| Merkle.SameLengthBinding | crates/kcoin-protocol/src/block.rs:115-140 | Lists of equal length are bound by the root whatever repeats |
| Merkle.EmptyRootIsOwn | crates/kcoin-protocol/src/block.rs:115-124 | No nonempty list has the root of the empty one |
| Merkle.RepeatedTailCollides | crates/kcoin-protocol/src/block.rs:131-137 | [a,b,c] and [a,b,c,c] share a root, so distinctness is needed |
| LedgerMachine.LedgerState.ApplyTransaction | crates/kcoin-protocol/src/ledger.rs:318-400 | New fields, receipt or error as specified; any error leaves the ledger unchanged |
| LedgerMachine.LedgerState.ApplyFinal | crates/kcoin-protocol/src/ledger.rs:435-483 | Block application is all or nothing, with the exact error |
| LedgerMachine.LedgerState.Build | crates/kcoin-protocol/src/ledger.rs:404-432 | Building executes on a clone and leaves the ledger as it is |
| LedgerMachine.LedgerState.NormalizedProposalTimestamp | crates/kcoin-protocol/src/ledger.rs:485-496 | The clamped time is one that validators allow |
| LedgerMachine.LedgerState.ApplyFinalizedBlock | crates/kcoin-protocol/src/ledger.rs:499-507 | Succeeds exactly when the certificate is for the block and the block applies; otherwise nothing changes |
| LedgerMachine.VerifyForBlock | crates/kcoin-protocol/src/commit.rs:177-203 | Accepts exactly the certificates of this block by the expected header proposer |
| LedgerMachine.ReplayBlocks | crates/kcoin-protocol/src/ledger.rs:532-538 | The replay loop is the fold of block application |
| LedgerMachine.ReplayFinalizedBlocks | crates/kcoin-protocol/src/ledger.rs:541-551 | Succeeds exactly on certified histories that replay, with the ledger of the blocks alone |
| LedgerInvariant.ApplyKeepsSound | crates/kcoin-protocol/src/ledger.rs:318-400 | Conservation: balances sum to the supply, the supply is the closed form of the challenge id, nonces sum to the number of applied ids |
| LedgerInvariant.RewardFollowsSchedule | crates/kcoin-protocol/src/ledger.rs:510-529 | Issuance in closed form (100/50/25/10/5 KCoin in bands of 20,000): the cap is reached at exactly 7,400 claims and the final clamp never changes a reward |
| LedgerInvariant.ValidateIffApply | crates/kcoin-protocol/src/ledger.rs:237-400 | On every sound ledger validation passes if and only if application does, with the same error |
| LedgerInvariant.ApplyMovesValue | crates/kcoin-protocol/src/ledger.rs:334-390 | Balance, nonce and name of every account after a transaction; self-transfers included, nobody else touched |
| LedgerInvariant.ApplyAllKeepsSound | crates/kcoin-protocol/src/ledger.rs:470-474 | A list that applies is duplicate-free and new, and its ids are exactly what is added |
| LedgerInvariant.NoncesCountTransactions | crates/kcoin-protocol/src/ledger.rs:260-272 | A sender's nonces are consecutive: the next nonce counts the transactions sent |
| Blocks.BuiltBlockApplies | crates/kcoin-protocol/src/ledger.rs:404-483 | Proposer/validator round trip: for any clock and sequentially valid transactions the built block is accepted on the same ledger if and only if it fits the size limit, and yields the committed state root |
| Blocks.OversizedBlockIsBuilt | crates/kcoin-protocol/src/ledger.rs:404-437 | The failing side of the round trip happens: 20,000 valid transactions of one wallet make a block that is built and refused as too large |
| Blocks.ClampIsAllowed | crates/kcoin-protocol/src/ledger.rs:485-496 | The clamp always lands in the range validators allow and moves a time if and only if it was not allowed, so no past timestamp can block production |
| Blocks.NodeProposalsFit | crates/kcoin-protocol/src/block.rs:83-86 | Blocks of at most 1,000 accepted transactions always fit, so the check missing in build_block is harmless to a node |
| Blocks.ApplyBlockKeepsSound | crates/kcoin-protocol/src/ledger.rs:435-483 | An accepted block links to the tip, raises the height by one, commits to the state it produces and lists distinct new ids |
| Blocks.BlockIdBindsBlock | crates/kcoin-protocol/src/block.rs:66-81 | Two accepted blocks with one id are the same block, transactions included |
| Blocks.ReplayKeepsSound | crates/kcoin-protocol/src/ledger.rs:532-538 | Every ledger replayed from genesis satisfies the conservation invariant, is one higher per block, ends on the last block's id and forgets no applied id |
| Blocks.ReplaySplits | crates/kcoin-protocol/src/ledger.rs:532-551 | Batch replay equals incremental application for every split, errors included |
| Blocks.TipDeterminesHistory | crates/kcoin-protocol/src/ledger.rs:457-459 | Chain determinism: a tip id determines the whole history behind it |
| Blocks.SameIdSameLedger | crates/kcoin-protocol/src/ledger.rs:541-551 | Replicas with certificates for the same tip, from whatever rounds, hold the same history and ledger |
| Finality.VerifiedCertificatesAgree | crates/kcoin-protocol/src/commit.rs:135-175 | Within the fault bound all certificates of one height that pass verify are for one block |
| Finality.ReplicasAgree | crates/kcoin-protocol/src/ledger.rs:541-551 | End to end: two replicas that verified certified histories hold the same blocks and ledger up to the lower height, given a consensus run within the fault bound there |
| NodeMachine.NodeActor.Execute | crates/kcoin-node/src/runtime.rs:633-750 | One command changes the actor as specified, failed requests and retries included |
| NodeMachine.NodeActor.AcceptTransaction | crates/kcoin-node/src/runtime.rs:768-812 | Submission against the pending transactions, with the exact refusal |
| NodeMachine.NodeActor.RevalidateMempool | crates/kcoin-node/src/runtime.rs:1301-1317 | After a block exactly the transactions that still apply in order remain |
| NodeMachine.NodeActor.BuildConsensusProposal | crates/kcoin-node/src/runtime.rs:1055-1087 | The stored valid block is proposed unchanged, otherwise the filtering loop proposes the survivors of the first thousand |
| NodeMachine.NodeActor.ImportFinalized | crates/kcoin-node/src/runtime.rs:1187-1244 | Verification, conflict halt, gap sync or commit of a certified block |
| NodeMachine.NodeActor.CommitFinalized | crates/kcoin-node/src/runtime.rs:1246-1261 | Certificate and block are checked on a copy before ledger, history and mempool change |
| NodeMachine.NodeActor.HandleSyncResponse | crates/kcoin-node/src/runtime.rs:1436-1540 | What each reply does to target, request and ledger, partial batches included |
| NodeMachine.NodeActor.RetrySyncAfterFailure | crates/kcoin-node/src/runtime.rs:1542-1575 | A failed active request moves to the retry peer; any other failure is ignored |
| NodeMachine.NodeActor.ChooseRetryPeer | crates/kcoin-node/src/runtime.rs:2246-2253 | The smallest other peer, else the failed one if still connected |
| NodeMachine.NodeActor.ValidateIntent | crates/kcoin-node/src/runtime.rs:2255-2315 | Which replies match the intent they answer and the active request |
| Mempool.AcceptIffFits | crates/kcoin-node/src/runtime.rs:768-793 | With a sound mempool a transaction is accepted if and only if it applies behind the pending ones and the node is neither halted nor syncing |
| Mempool.SurvivorsMaximal | crates/kcoin-node/src/runtime.rs:1301-1317 | Revalidation keeps a transaction whenever it applies where it stands |
| Mempool.ProducersSucceed | crates/kcoin-node/src/runtime.rs:837-851 | With a sound mempool both producers get a block, drop none of the first thousand transactions, and the block is accepted on the same ledger |
| Mempool.StandaloneProposer | crates/kcoin-node/src/runtime.rs:837-840 | The standalone proposer index is the one verification expects |
| NodeInvariant.HandleKeeps | crates/kcoin-node/src/runtime.rs:633-750 | Every command keeps mempool, chain and sync invariants; a node that is syncing or halted signs nothing, and a halted one changes no chain and no mempool |
| NodeInvariant.AcceptedBatchAdvances | crates/kcoin-node/src/runtime.rs:1493-1530 | Each accepted batch raises the height by its length and appends exactly its records |
| NodeInvariant.RequestBlocksKeeps | crates/kcoin-node/src/runtime.rs:1352-1371 | A new request has target, peer and deadline, and while the network runs a set target with a connected peer has a request |
| NodeTheorems.NodeRunSound | crates/kcoin-node/src/runtime.rs:633-750 | The invariant holds in every state a node can reach |
| NodeTheorems.HaltIsForever | crates/kcoin-node/src/runtime.rs:1596-1603 | A halt is permanent; from then on no signature, block or transaction is added |
| NodeTheorems.VotesOnlyInTurn | crates/kcoin-node/src/runtime.rs:969-972 | Whenever a node's signatures grow it is a validator that is neither synchronizing nor halted |
| NodeTheorems.SuccessorSurvives | crates/kcoin-node/src/runtime.rs:1542-1552 | Replies and failures of an earlier request never cancel the one that replaced it |
| NodeTheorems.LateWatchdogRotates | crates/kcoin-node/src/runtime.rs:1577-1594 | Past the deadline the request is replaced under a new id, to another peer if there is one |
| NodeTheorems.EarlyWatchdogIsIdle | crates/kcoin-node/src/runtime.rs:1577-1590 | Before the deadline a watchdog tick changes nothing |
| NodeTheorems.StandaloneKeepsTarget | crates/kcoin-node/src/runtime.rs:837-865 | Producing a block of its own raises a standalone node's height and leaves target and request as they are |
| NodeTheorems.TargetNeedsProof | crates/kcoin-node/src/runtime.rs:1319-1326 | A new sync target is always the height of a certified block that was verified |
| Asking.AskingLostIff | crates/kcoin-node/src/runtime.rs:1492-1505 | In every role, a command makes a node with a target and a connected peer stop asking if and only if it is an empty reply to the active request when the node's own height has reached the target, or would ask for a height beyond 64 bits |
| Asking.AheadLostIff | crates/kcoin-node/src/runtime.rs:814-835 | In every role, a command brings the ledger up to a target that stays set if and only if it is a tick in which a standalone node produces the block one below it |
| Asking.AskingUntilStall | crates/kcoin-node/src/runtime.rs:633-750 | In a run of any role asking holds as long as no step is one of these two |
| Asking.AheadNeverStalls | crates/kcoin-node/src/runtime.rs:1492-1505 | While the target is ahead of the ledger neither exception can occur, so validators and observers never stop asking |
| Asking.StandaloneStalls | crates/kcoin-node/src/runtime.rs:837-865 | The exception is reachable: a run of a standalone node from its start to the stall, with a certified tip, its own block, a failed request and an empty reply |
| Asking.ThreeOfFourCertify | crates/kcoin-node/src/runtime.rs:852-863 | The certificate a standalone node signs with three of its four keys passes verification for every block of its rotation |
| NodeTheorems.StandaloneCanStall | crates/kcoin-node/src/runtime.rs:1492-1505 | An empty reply to any active request of a node that has reached its target drops the request and keeps the target |
| NodeTheorems.ImportHaltsIff | crates/kcoin-node/src/runtime.rs:1208-1233 | An import halts the node if and only if the record is verified, of a stored height, and for another block |
| NodeTheorems.HaltNeedsConflict | crates/kcoin-node/src/runtime.rs:1208-1233 | A node halts only on a verified certificate for another block than its own at that height |
| NodeTheorems.NeverHalts | crates/kcoin-node/src/runtime.rs:1208-1233 | Within the fault bound no command makes a node halt |
| NodeTheorems.RunNeverHalts | crates/kcoin-node/src/runtime.rs:633-750 | In a whole run no node halts over a conflict, if the fault bound holds at each height it is shown a certificate for |
| NodeTheorems.NodesAgree | crates/kcoin-node/src/runtime.rs:1246-1261 | Nodes of one network hold prefixes of one chain, and equal ledgers at equal heights |
| Storage.Store.PersistConsensusDecision | crates/kcoin-node/src/storage.rs:588-665 | The signer table of each height behaves as the write-once log of the protocol proofs; an occupied slot returns its first signature; the safety cell is that of the latest decision |
| Storage.Store.PersistFinalized | crates/kcoin-node/src/storage.rs:196-310 | A block row is written once; index rows are replaced; the safety cell of that height is dropped in the same step |
| Storage.Store.RefreshBlockProjection | crates/kcoin-node/src/storage.rs:318-348 | Rewrites the derived columns of the row with exactly these bytes, unless another row holds the hash |
| Storage.Store.VerifyStore | crates/kcoin-node/src/runtime.rs:1815-1866 | Accepts exactly certified histories that replay and whose columns match their bytes |
| Storage.Store.Reindex | crates/kcoin-node/src/runtime.rs:1870-1888 | From any index tables and derived columns the rebuild restores agreement with the history; it succeeds if and only if the history is valid and no later row carries the true hash of an earlier one; signer rows and the safety cell in use are left alone |
| Explorer.ProjectionAgrees | crates/kcoin-node/src/runtime.rs:1892-1998 | One finalized block keeps the index equal to what the history says: accounts with transaction counts, transactions with rewards from the schedule, tip and challenge with its issue height |
| Explorer.LiveIndexAgrees | crates/kcoin-node/src/storage.rs:196-310 | After any finalized history the live index agrees with it |
| Explorer.AgreeingIndexIsUnique | crates/kcoin-node/src/runtime.rs:1892-1998 | The history determines the index row for row, so live and rebuilt index are equal |
| Explorer.TouchedHaveAccounts | crates/kcoin-node/src/runtime.rs:1935-1965 | Whoever a transaction touches has an account row, so no activity is lost |
| Bech32.DecodeIffEncode | web/src/lib/bech32.ts:57-78 | Decoding is the exact inverse of encoding for every nonempty lower-case prefix: a text decodes to bytes if and only if it is the encoding of those bytes |
| Bech32.DecodeOfEncode | web/src/lib/bech32.ts:57-78 | decode(encode(b)) = b for every byte string |
| Bech32.EncodeOfDecode | web/src/lib/bech32.ts:57-78 | Re-encoding whatever decodes gives the same text |
| Bech32.EncodeText | web/src/lib/bech32.ts:57-63 | The encoder with its loops is the specified encoding |
| Bech32.DecodeText | web/src/lib/bech32.ts:65-78 | The decoder with its loops is the specified decoding, errors in order |
| Bech32.BytesOfWords | web/src/lib/bech32.ts:21-55 | Regrouping bytes to words and back gives the bytes |
| Bech32.WordsOfDecoded | web/src/lib/bech32.ts:21-55 | Words that regroup to bytes are the words of those bytes |
| Regrouping.ConvertBits | web/src/lib/bech32.ts:21-36 | The loop over an unmasked 32-bit accumulator produces the digits of the same number, zero bits appended |
| Regrouping.ConvertWords | web/src/lib/bech32.ts:38-55 | The unpadded loop accepts exactly words in range whose spare bits are too few for a word and zero |
| Checksum.Polymod | web/src/lib/bech32.ts:4-14 | The nested loops compute the register of the code |
| Checksum.LastSixAreLinear | web/src/lib/bech32.ts:4-14 | The last six symbols enter the checksum by exclusive or |
| Checksum.ChecksumIsUnique | web/src/lib/bech32.ts:57-62 | A list passes the check if and only if it ends in the six symbols that the encoder computes |

## Left out

- Transport, gossip, bootstrap redialling, the HTTP API, metrics, CLI, configuration and the React
  application: plumbing around the modelled state machines.
- Ed25519, BLAKE3, Borsh and JSON: parameters and injective functions, as said above. Encoded sizes
  of transactions, blocks and certificates are computed.
- Liveness under partial synchrony: only the progress measure of timeouts, the rotation and the
  unlocking rule are proved, no delay bounds.
- Several heights in one network run: a run is one height; `ReplicasAgree` and `NodesAgree` need the
  fault bound at the last common height only, because block ids chain the rest.
- The table of proposal bytes (`consensus_proposals`), evidence and write-ahead rows: they carry
  bytes for reproposal and audit; recovery of the engine is modelled from decisions and safety state.
- Schema migrations: rows are written complete.
- Challenge arithmetic and the trimming and control-character rules of display names: parameters;
  the length limits of names are modelled.
- Telemetry, snapshots, events, serving of sync requests and the announcement sleeps: no effect on
  the modelled state.
- Restart of the node actor: it starts from genesis; a restart from a stored history is
  `LedgerMachine.ReplayFinalizedBlocks`, and that of the engine is `Recovery.RecoverSucceeds`.
- NodeMachine.NodeActor.Execute: consensus enters as the list of decisions and commits its effects
  ask for, for every possible engine; `Driver.ProcessConsensusEvent` models the loop that produces
  them. Failing disk writes are not modelled.
- Driver.ProcessConsensusEvent: commits, proposal bytes, timers and gossip are dropped; a signature
  that does not reach the wire is lost with the call, as in the source.
- Storage.Store.PersistFinalized: the blocks table is a list in height order, so it asks for a height
  at most one above the last row; both callers provide that.
- Bech32.DecodeText: which characters `toLowerCase` changes is a parameter that is fixed on ASCII only;
  characters are Unicode scalars, so a prefix outside the basic plane is not split in two units.
- Recovery.RecoverSucceeds: recovery from decisions and safety state; the failures of
  `initialize_consensus_recovery` over missing or inconsistent proposal bytes are not modelled.
- Storage.Store.PersistConsensusDecision: the `signed_message` column, its late fill-in and its conflict
  check; the node signs deterministically, so the column is a function of message and signature.
- NodeTheorems.HaltNeedsConflict: the second way to halt, a failed `resume_interrupted_consensus` when
  the actor starts, is not part of the command loop that is modelled; RunNeverHalts is about conflicts.
- The commands `Shutdown`, `SyncRequest` and `ValidatorStatus`: they end the loop, serve stored blocks
  and record telemetry, and change none of the modelled fields.
