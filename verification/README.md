# Angstrom node: a verified model of its stateful cores

The Angstrom node keeps a validator set in step with a chain. This project models four of its parts,
each as it is written: objects with fields that are changed in place, proved against specification
functions, and theorems about those functions over whole runs.

**Leader election** (`LeaderSelection`, `LeaderFairness`, `LeaderBounds`, `LeaderRotation`,
`LeaderRuns`, `WeightedRoundRobin`). Weighted round robin with truncating 64-bit arithmetic: centre,
rescale, add powers, elect the maximum, charge it the total, once per missed block. It follows the
proposer selection procedure of Tendermint. Powers `w` and priorities `p` are maps from addresses; the
hash set is visited in an arbitrary order everywhere.

**Global block sync** (`BlockSync`, `BlockSyncCalls`, `BlockSyncThreads`). Proposals queue up, every module
signs off, and the front one completes with the last signature; with atomic calls in the promised order, with
any calls whatsoever, and with the calls of concurrent threads interleaved step by step.

**Consensus rounds** (`Quorum`, `ConsensusRound`, `ConsensusManager`, `ConsensusNetwork`,
`ConsensusProposals`, `ConsensusProgress`, `PeerCache`). One node's round, its manager over many heights, n
nodes flooding messages over an unreliable network, the quorum filter and what reaches the solver in a run,
what a round can still come to, and the cache that keeps gossip from repeating itself.

**Order pool** (`Orders`, `OrderStorage`, `FinalizationPool`, `OrderValidator`, `OrderPool`,
`OrderReplies`, `OrderBlocks`, `OrderCancels`, `OrderSteps`, `OrderExamples`, `OrderIndexer`). The indexer with
its store, its indexes, its reply channels, the validator's four states and the finalization pool. An order
stands for its own hash: hashing is ideal.

`FiniteSums`, `Sequences` and `Options` are shared helpers.

## What fails, and exactly when

Properties one would expect that do not hold of the code as it is, each with a run or input that shows it
and the exact condition.

- A pending pool keeps one entry per level: side, price, volume and the gas and gas units that validation
  charged. Two pending orders at the same level share it, and the second removal reports nothing, so when
  their address changes one of them is neither stored nor validated again (`BlockLosesAnOrder`). Which orders
  a block passes on and which it loses is exact in every state (`PassedOnIff`, `LostIff`). In a tidy indexer
  (no order both pending and parked, the indexes cover the store, nothing stored awaits finalization) it loses
  nothing if and only if the pending orders it moves have levels of their own (`BlockLosesNothingIff`);
  elsewhere a parked copy can make up for a shared level (`ParkedCopySaves`).
- An order that is accepted again while it awaits finalization and is then cancelled loses its hash
  index entry but stays stored, so a later block does not see that it expired (`BlockKeepsExpired`,
  exactly when: `NoExpiredLeftIff`).
- An order validated twice at once can be both pending and parked, and a change of its address then
  removes one copy only (`BlockKeepsChangedAddress`, exactly when: `NoChangedLeftIff`).
- An order of a changed address that has expired is both validated again and reported as expired
  (`BlockSortsOrders`).
- A cancel does not always hold (`CancelGoneIff`): one that arrives while the order is being validated is
  only registered, and the order is stored if the client still accepts it (`CancelLosesRace`); one that
  comes after a stranger's cancel for the same hash does nothing and reports success
  (`StrangerBlocksCancel`); one for an order that is both pending and parked takes the pending copy out only:
  if the owner asks, the parked copy goes back to validation and can be stored again, and if a stranger asks
  it stays stored (`CancelMissesCopy`). Who asks is never compared with the owner (`StrangerTakesOut`) and
  matters in that last case only, where the parked copy leaves with the requester's own ids
  (`CancelTakesOutIff`).
- The cancel of an order without a deadline is kept only to the moment of the request, as the source intends:
  the first block whose cutoff reaches that moment forgets it, and the order can be handed in again
  (`TakenOutUntil`, `FinishGoneIff`).
- Sign-offs are compared by kind only: a module that signs one proposal twice has signed the next one too
  (`DoubleSignSkipsBarrier`), and two modules that sign different kinds in the same place stop the sync for
  good (`JammedForEver`). Whatever is called, what completes is the longest common prefix of the kinds signed
  (`CommonPrefixTheorem`), and it keeps pace with the slowest module if and only if there is no place in which
  every module has signed and not all signed the same kind (`KeepsPaceIff`); a difference between two modules
  does not show while a third has not signed there.
- With a second proposal outstanding, concurrent sign-offs can pop it unsigned
  (`SecondProposalUnsigned`); the producer is safe if and only if at most one thread has popped or can
  still pop (`SafeIff`).
- An order that one validator alone proposed can reach the solver: the filter counts a pre-proposal once for
  every aggregation that contains it, so a quorum of aggregations of the same list is enough
  (`OneProposerIsEnough`). The exact count is in `ReachesSolverIff`.
- The check of a received proposal stops at the shorter list of solutions, so proposals with fewer or more
  solutions than were computed can pass (`ShorterPassesIff`, `LongerPassesIff`).
- A node whose first height is the start block runs one extra selection and stays one round ahead
  (`StartHeightRunsAhead`, `AheadIsVisible`), so the agreement theorem is for heights above it.

`StepTidyIff` and `AcceptSoundIff` give the guards on acceptance that are necessary and sufficient, step
by step, for the invariants behind the block theorems.

The comment in `leader_selection.rs` at line 81 says that ties favour lower ids; the code favours the
higher address, and the model follows the code.

## Assumptions

- The validator set is fixed, has some power, and is small enough for 64-bit arithmetic
  (4·T·max(n, 1000) below 2^63). A height that goes back counts as a panic, as with checked arithmetic.
- Signatures are booleans: honest nodes sign what they build themselves, with their own key.
- In the barrier theorem each module signs each queued proposal once, in queue order.
- The validation client starts at the indexer's block and moves at some moment between being told
  about a block and answering; a result is stamped with a block at which the client was meanwhile.
- In the theorems about runs and about whole blocks, a block with fills is entered into the finalization pool
  once. The source asserts this; the methods model the panic of a second entry.
- Hash maps and hash sets may be walked in any order; clocks, solver answers, validation verdicts and
  the network are inputs.

## Model

| member | source | states |
|---|---|---|
| `LeaderFairness.Fairness` | angstrom-main/crates/consensus/src/leader_selection.rs:50-158 | before the first rescale, after r rounds every validator has received less than one slot more than its exact share r·w/T and at most 1/2+…+1/n slots fewer, and the spread of the priorities is at most T·H(n−1) |
| `LeaderFairness.FourNeverRescale` | angstrom-main/crates/consensus/src/leader_selection.rs:103-132 | with at most four validators no run of any length ever rescales, so the fairness bounds hold for ever |
| `LeaderFairness.PriorityIsDebt` | angstrom-main/crates/consensus/src/leader_selection.rs:50-132 | before the first rescale a priority is exactly share minus slots, and the average of the k largest priorities obeys the harmonic ceiling for every k |
| `LeaderFairness.SelectKeepsBounded` | angstrom-main/crates/consensus/src/leader_selection.rs:50-76 | electing the maximum and charging it the total keeps every group of validators below its harmonic ceiling |
| `LeaderSelection.TruncDivIff` | angstrom-main/crates/consensus/src/leader_selection.rs:89-132 | which quotient the machine division gives: the one whose remainder is smaller than the divisor and never of the opposite sign of the dividend |
| `LeaderBounds.RunsAreTame` | angstrom-main/crates/consensus/src/leader_selection.rs:89-158 | in every run, rescales included, the spread between rounds stays below 3T + T/500 + 1 and the priority sum below 2n in absolute value |
| `LeaderBounds.RoundTame` | angstrom-main/crates/consensus/src/leader_selection.rs:150-155 | one round brings any priorities whatever inside those bounds |
| `LeaderBounds.PreparedFacts` | angstrom-main/crates/consensus/src/leader_selection.rs:89-132 | centring and truncating rescale leave a spread below 2T + T/500 + 1 and a sum below 2n |
| `LeaderBounds.ScaleKeepsOrder` | angstrom-main/crates/consensus/src/leader_selection.rs:119-131 | a rescale never swaps two validators |
| `LeaderBounds.SelectFacts` | angstrom-main/crates/consensus/src/leader_selection.rs:50-76 | a selection widens the spread by at most T and conserves the priority sum |
| `LeaderBounds.PartialSumInRange` | angstrom-main/crates/consensus/src/leader_selection.rs:90-91 | the running sum of the priorities stays in the 64-bit range in whatever order the hash set is visited |
| `LeaderBounds.SelectInRange` | angstrom-main/crates/consensus/src/leader_selection.rs:58-70 | adding the power and charging the total stay in the 64-bit range |
| `LeaderBounds.CenterInRange` | angstrom-main/crates/consensus/src/leader_selection.rs:89-132 | centring and the thousandfold products of the rescale stay in the 64-bit range |
| `LeaderRotation.RotationOrder` | angstrom-main/crates/consensus/src/leader_selection.rs:50-158 | with equal powers the k-th leader is the ((k−1) mod n)-th validator in descending address order for all k, centring and rescaling being no-ops |
| `LeaderRotation.RunTurn` | angstrom-main/crates/consensus/src/leader_selection.rs:50-158 | with equal powers, which validators already had their turn after k rounds, and that no rescale happens |
| `LeaderRuns.RunSettles` | angstrom-main/crates/consensus/src/leader_selection.rs:134-158 | after any non-decreasing heights that begin above the start block, priorities and leader depend on the last height only |
| `LeaderRuns.Agreement` | angstrom-main/crates/consensus/src/leader_selection.rs:134-158 | two nodes that saw different heights, gaps and repeats allowed, and are both at h hold the same priorities and the same leader |
| `LeaderRuns.StartHeightRunsAhead` | angstrom-main/crates/consensus/src/leader_selection.rs:140-146 | a node whose first height is the start block is exactly one round ahead of all the others for ever |
| `LeaderRuns.AheadIsVisible` | angstrom-main/crates/consensus/src/leader_selection.rs:140-146 | for every validator set that can be configured, validators without power included, and every height of every run, rescales included: being one round ahead leaves equal priorities if and only if one validator holds all the power |
| `LeaderRuns.RoundsMove` | angstrom-main/crates/consensus/src/leader_selection.rs:150-155 | unless one validator holds all the power no reachable priorities are a fixed point of a round, whether it rescales or not |
| `LeaderRuns.StartHeightDisagrees` | angstrom-main/crates/consensus/src/leader_selection.rs:140-146 | with equal powers and two validators or more such a node and one that began above the start block name different leaders whenever both are at the same height |
| `WeightedRoundRobinModel.MaxByPriority` | angstrom-main/crates/consensus/src/leader_selection.rs:63-87 | the maximum by priority, ties to the higher address, is the same validator in every visiting order |
| `WeightedRoundRobinModel.TotalVotingPower` | angstrom-main/crates/consensus/src/leader_selection.rs:51 | the total power in any visiting order |
| `WeightedRoundRobinModel.PrioritySum` | angstrom-main/crates/consensus/src/leader_selection.rs:90-91 | the priority sum in any visiting order, every partial sum in the 64-bit range |
| `WeightedRoundRobinModel.PriorityRange` | angstrom-main/crates/consensus/src/leader_selection.rs:104-113 | highest and lowest priority from the folds that start at the 64-bit limits |
| `WeightedRoundRobinModel.Elect` | angstrom-main/crates/consensus/src/leader_selection.rs:50-76 | the in-place selection refines electing the top validator after adding powers and charging it the total, with no overflow |
| `WeightedRoundRobinModel.Centered` | angstrom-main/crates/consensus/src/leader_selection.rs:89-101 | subtracting the truncated average, with no overflow |
| `WeightedRoundRobinModel.Rescaled` | angstrom-main/crates/consensus/src/leader_selection.rs:103-132 | dividing by the spread ratio in thousandths exactly when the spread exceeds 2T, with no overflow |
| `WeightedRoundRobinModel.NewValidatorIff` | angstrom-main/crates/consensus/src/leader_selection.rs:18-26 | a new validator has its power in thousandths and priority zero |
| `WeightedRoundRobinModel.Collect` | angstrom-main/crates/consensus/src/leader_selection.rs:37-44 | of validators listed twice under one address the first entry is kept |
| `WeightedRoundRobinModel.WeightedRoundRobin.ChooseProposer` | angstrom-main/crates/consensus/src/leader_selection.rs:134-158 | answer and new state for a repeated height, a first call and any number of missed blocks, and no answer where the unsigned subtraction underflows; the bounds that exclude overflow are kept for the next call |
| `BlockSync.BarrierTheorem` | angstrom-main/crates/types/src/block_sync.rs:93-222 | for every set of modules registered up front and every run in which each module signs each proposal once in queue order: no call panics, the completed proposals are the first min-over-modules-of-signed-count of those announced, the rest are pending in order, the block number is the last completed progression, and the node may operate if and only if every module has signed everything |
| `BlockSync.CatchesUp` | angstrom-main/crates/types/src/block_sync.rs:93-217 | no announcement is lost: from every reachable state the modules can sign all that is left, and whenever the node may operate its block is the one announced last |
| `BlockSync.AnnouncementIsPending` | angstrom-main/crates/types/src/block_sync.rs:93-104 | an announced block is the last one pending, nothing pending before is lost or moved, and the queue grows if and only if the block was not the last one already |
| `BlockSync.RegistrationStarts` | angstrom-main/crates/types/src/block_sync.rs:239-255 | registering modules in any order and then closing the list gives the state every run starts from; it panics if and only if a module registers twice, and later ones are not added |
| `BlockSyncCalls.CommonPrefixTheorem` | angstrom-main/crates/types/src/block_sync.rs:93-222 | for every sequence of calls whatsoever, sign-offs repeated, out of order, by strangers or for proposals that are not pending included: the completed proposals are the first of those announced, as many as the longest common prefix of the kinds the modules signed is long, the others are pending in order, and the block number is that of the last one which was and was signed as a progression |
| `BlockSyncCalls.PanicsIff` | angstrom-main/crates/types/src/block_sync.rs:166-182 | under any calls a sign-off panics if and only if its proposal is not among those announced and not completed, and then it changes nothing |
| `BlockSyncCalls.KeepsPaceIff` | angstrom-main/crates/types/src/block_sync.rs:191-202 | under any calls the completed proposals keep pace with the slowest module if and only if there is no place in which every module has signed and not all signed the same kind |
| `BlockSyncCalls.JammedForEver` | angstrom-main/crates/types/src/block_sync.rs:286-294 | once two modules have signed different kinds for the next proposal nothing completes any more, whatever is called |
| `BlockSync.NoModulesMeansNoBarrier` | angstrom-main/crates/types/src/block_sync.rs:191-199 | with no module registered any sign-off completes the front proposal |
| `BlockSync.DoubleSignSkipsBarrier` | angstrom-main/crates/types/src/block_sync.rs:286-294 | sign-offs are compared by kind only: a module that signs one proposal twice lets the next one complete without its signature |
| `BlockSync.Scan` | angstrom-main/crates/types/src/block_sync.rs:191-194 | the fold over the modules, in any order, says whether every queue starts with this kind |
| `BlockSync.Reset` | angstrom-main/crates/types/src/block_sync.rs:211-215 | every queue loses its head and no unwrap fails |
| `BlockSync.GlobalBlockSync.SignOffOnBlock` | angstrom-main/crates/types/src/block_sync.rs:166-217 | both panics, the push, the transition test, the pop, the block number and the reset |
| `BlockSync.GlobalBlockSync.SignOffReorg` | angstrom-main/crates/types/src/block_sync.rs:119-164 | the same for reorgs, which leave the block number alone |
| `BlockSyncThreads.ThreadsTheorem` | angstrom-main/crates/types/src/block_sync.rs:93-217 | any number of modules sign one proposal concurrently, with each check, push, scan step, pop, store and reset step interleaved at will, while the producer queues further proposals whenever at most one thread has popped or can still pop: at most n(2n+7) thread steps, no panic and no unwrap of an empty queue, and in the end exactly one pop, the right block number, the later proposals pending in order and all queues empty |
| `BlockSyncThreads.SafeIff` | angstrom-main/crates/types/src/block_sync.rs:191-202 | that condition on the producer is exact: in a reachable state a queued proposal can never be popped unsigned if and only if at most one thread has popped or can still pop |
| `BlockSyncThreads.SecondProposalUnsigned` | angstrom-main/crates/types/src/block_sync.rs:191-202 | with two modules or more and a second proposal queued from the start, some interleaving pops the second although nobody signed it |
| `BlockSyncThreads.UninterruptedIsAtomic` | angstrom-main/crates/types/src/block_sync.rs:119-217 | a call that no other thread interrupts comes to the state of the atomic call, in whatever order its scan and reset visit the modules, and panics if and only if that one does |
| `BlockSyncThreads.ProducesAlike` | angstrom-main/crates/types/src/block_sync.rs:93-111 | the producer among threads queues what the atomic producer queues |
| `ConsensusManagers.BuilderIsLeader` | angstrom-main/crates/consensus/src/rounds/pre_proposal_aggregation.rs:109-126 | after any history of blocks, messages and polls, a node has built a proposal only for heights whose elected leader it is |
| `ConsensusManagers.OneBuilderPerHeight` | angstrom-main/crates/consensus/src/rounds/pre_proposal_aggregation.rs:109-126 | of all honest nodes sharing validators and deploy block at most one ever builds a proposal for a given height |
| `ConsensusManagers.OnlyTheLeaderIsHeard` | angstrom-main/crates/consensus/src/rounds/mod.rs:286-300 | in every reachable state the round follows the elected leader of its height, and a proposal from anybody else changes nothing: it is neither accepted nor forwarded |
| `ConsensusManagers.HearsExactly` | angstrom-main/crates/consensus/src/manager.rs:162-186 | in every reachable state: a pre-proposal or aggregation is queued once and collected, and a proposal queued and followed, if and only if the node is still collecting that kind, it is signed and of the node's own height, it is new and from a listed validator or, for a proposal, from the elected leader, and every aggregation in question has two thirds of the validators' pre-proposals, all signed and of that height; any other event changes nothing |
| `ConsensusManagers.OneRoundPerBlock` | angstrom-main/crates/consensus/src/manager.rs:112-186 | from one new tip to the next, after any history, the manager runs exactly one round for that height and its elected leader, on exactly the events of that height and the polls, behind the messages still queued, and it counts as a builder of the height if and only if that round built a proposal |
| `ConsensusManagers.ConsensusManager.OnBlockchainState` | angstrom-main/crates/consensus/src/manager.rs:112-125 | a new tip elects that height's leader and resets the round; a tip below the last one panics |
| `ConsensusRound.RoundTheorem` | angstrom-main/crates/consensus/src/rounds/mod.rs:271-343 | within a round the phase only moves forward, a node signs at most one pre-proposal and one aggregation, builds at most one proposal and only as leader, and queues each distinct pre-proposal and aggregation at most once across all state changes |
| `ConsensusRound.SigningTheorem` | angstrom-main/crates/consensus/src/rounds/pre_proposal.rs:34-67 | after any run of a round, a poll signs a pre-proposal if and only if bids are collected and the timer fired, and it carries the node's own limit and searcher orders; it signs an aggregation if and only if two thirds of the validators' pre-proposals are there, and it lists exactly those collected, the node's own among them; each is queued at once |
| `ConsensusRound.TurningTheorem` | angstrom-main/crates/consensus/src/rounds/pre_proposal_aggregation.rs:95-130 | after any run, a node goes on to check if and only if it follows a proposal, and to propose if and only if it is the leader, follows none and holds the aggregations of two thirds of the validators |
| `ConsensusRound.BuildingTheorem` | angstrom-main/crates/consensus/src/rounds/proposal.rs:68-167 | after any run, a proposal is built in the poll in which the solver answers, from exactly the aggregations held, the leader's own among them, with the solver's solutions, so that whoever computes the same ones accepts it; the empty-block attestation for the next block is queued if and only if there is no bundle |
| `ConsensusRound.EndingTheorem` | angstrom-main/crates/consensus/src/rounds/proposal.rs:178-211 | after any run, the proposal goes out when its transaction has landed and not if that failed, and a check is complete when the verification is done |
| `ConsensusRound.EchoQueuesTwice` | angstrom-main/crates/consensus/src/rounds/pre_proposal.rs:34-67 | the freshness condition is exact: a signing step keeps every message queued once if and only if its own message was not collected before |
| `ConsensusRound.RoundStateMachine.HandleMessage` | angstrom-main/crates/consensus/src/rounds/mod.rs:271-343 | unknown senders, invalid messages, duplicates and wrong leaders are dropped; the rest is collected and queued for broadcast; nothing happens once proposing or finalizing |
| `ConsensusRound.RoundStateMachine.PollTransition` | angstrom-main/crates/consensus/src/rounds/bid_aggregation.rs:89-121 | every transition of the five states; a node signs its own orders, then exactly the pre-proposals it collected |
| `ConsensusRound.RoundStateMachine.TryBuildProposal` | angstrom-main/crates/consensus/src/rounds/proposal.rs:68-167 | the solver's answer is taken once, the proposal lists exactly the aggregations held, and without a bundle an attestation is queued |
| `ConsensusNetwork.FloodingTheorem` | angstrom-main/crates/consensus/src/rounds/mod.rs:316-343 | n honest nodes over a network that may delay, reorder, repeat and lose packets: each node broadcasts at most 2n pre-proposals and aggregations in any run, at most 2n² altogether, so flooding stops |
| `ConsensusProposals.ProposalsTheorem` | angstrom-main/crates/consensus/src/rounds/mod.rs:286-300 | if no packet reaches the same node twice, each node also broadcasts at most one proposal in any run |
| `ConsensusProposals.RepeatIsForwardedAgain` | angstrom-main/crates/consensus/src/rounds/mod.rs:286-300 | the condition matters: a node still collecting forwards a repeated proposal again |
| `ConsensusProposals.SolverTheorem` | angstrom-main/crates/consensus/src/rounds/pre_proposal_aggregation.rs:109-126 | over every run of the network: when a node has started to propose, every order that fewer than a quorum of the signed pre-proposals omit, limit or searcher, is given to its solver exactly once |
| `ConsensusProposals.CheckedTheorem` | angstrom-main/crates/consensus/src/rounds/finalization.rs:37-45 | over every run: a node that checks a proposal checks the one its leader built, whose aggregations are exactly those the leader handed to its own solver, a quorum of sound ones |
| `ConsensusProgress.CanCheckIff` | angstrom-main/crates/consensus/src/rounds/mod.rs:130-149 | in every reachable state of a network of any size, if from now on only some two thirds of the validators with the leader among them do anything, each of these can still come to check a proposal if and only if neither the leader's solver nor its submission has failed: as long as packets can still be delivered, nothing else that happens and no silence of the others brings a round to a standstill |
| `ConsensusProgress.CanBuildIff` | angstrom-main/crates/consensus/src/rounds/proposal.rs:68-190 | in the same way the leader has built its proposal or can still come to, if and only if its solver has not failed |
| `ConsensusProgress.TwoThirdsAreNeeded` | angstrom-main/crates/consensus/src/rounds/mod.rs:208-210 | from the start of a round the leader and the nodes that go on with it can come to build a proposal if and only if they are two thirds of the validators |
| `ConsensusNetwork.OwnIsUnseen` | angstrom-main/crates/consensus/src/rounds/pre_proposal.rs:34-67 | among honest nodes nobody receives its own message before signing it, so the round theorem's condition always holds |
| `Quorum.QuorumIff` | angstrom-main/crates/consensus/src/rounds/mod.rs:208-210 | the quorum size is the least number that is two thirds of the validators |
| `Quorum.QuorumSurvives` | angstrom-main/crates/consensus/src/rounds/mod.rs:208-210 | the validators that speak form a quorum if and only if the silent ones are a third at most |
| `Quorum.FilterQuorumOrders` | angstrom-main/crates/consensus/src/rounds/mod.rs:254-269 | exactly the orders counted often enough, each once, in any hash order |
| `Quorum.MatchingEngineInput` | angstrom-main/crates/consensus/src/rounds/mod.rs:230-252 | the solver gets, exactly once and whatever the visiting order, each order that occurs often enough, a pre-proposal being counted once for every aggregation that contains it |
| `Quorum.ReachesSolverIff` | angstrom-main/crates/consensus/src/rounds/mod.rs:230-269 | where nobody lists anything twice, an order reaches the solver if and only if there are a quorum of pairs of an aggregation and a pre-proposal in it that lists the order |
| `Quorum.OneProposerIsEnough` | angstrom-main/crates/consensus/src/rounds/mod.rs:230-269 | a quorum of valid aggregations of the same distinct pre-proposals, one of which lists an order: the order reaches the solver |
| `Quorum.OrderReachesSolver` | angstrom-main/crates/consensus/src/rounds/mod.rs:208-269 | a quorum of aggregations of a quorum of distinct pre-proposals each, fewer than a quorum of which omit an order, limit or searcher: the solver's input lists the order exactly once |
| `Quorum.SameInput` | angstrom-main/crates/consensus/src/rounds/mod.rs:230-269 | two nodes with the same aggregations hand their solvers the same orders |
| `Quorum.QuorumsIntersect` | angstrom-main/crates/consensus/src/rounds/mod.rs:208-210 | two quorum aggregations over at most n pre-proposals share at least ceil(n/3) of them |
| `Quorum.ValidityCountsRepeats` | angstrom-main/crates/types/src/consensus/pre_propose_agg.rs:58-79 | validity counts list entries: one pre-proposal repeated often enough is a valid aggregation |
| `Quorum.VerifySolutions` | angstrom-main/crates/consensus/src/rounds/finalization.rs:47-66 | sorts both lists and compares them pairwise up to the shorter length |
| `Quorum.VerifiedIffSame` | angstrom-main/crates/consensus/src/rounds/finalization.rs:47-66 | given equal lengths and one computed solution per pool, the check passes if and only if the solutions are the same in some order |
| `Quorum.ShorterPassesIff` | angstrom-main/crates/consensus/src/rounds/finalization.rs:53-57 | a proposal with fewer solutions than were computed passes if and only if it consists of the computed ones with the lowest pool ids, so an empty one always passes |
| `Quorum.LongerPassesIff` | angstrom-main/crates/consensus/src/rounds/finalization.rs:53-57 | a proposal with more solutions passes if and only if the computed ones are its own with the lowest pool ids, whatever the others are |
| `Quorum.ExtraSolutionPasses` | angstrom-main/crates/consensus/src/rounds/finalization.rs:53-57 | a solution for a pool above all the computed ones can be added to a proposal that passes |
| `PeerCache.CacheIsRecent` | angstrom-main/crates/angstrom-net/src/cache.rs:30-47 | the cache is always the last L−1 entries of the list of distinct entries by recency, so it never holds L |
| `PeerCache.ForgottenLate` | angstrom-main/crates/angstrom-net/src/cache.rs:30-47 | an entry drops out only after L−1 other distinct ones were recorded |
| `PeerCache.NoEarlyResend` | angstrom-main/crates/angstrom-net/src/pool_manager.rs:436-449 | within a session an order sent to a peer, or received from it, is sent to it again only after 10239 other distinct hashes were recorded for it |
| `PeerCache.BroadcastSends` | angstrom-main/crates/angstrom-net/src/pool_manager.rs:436-449 | a broadcast of distinct orders sends a peer each at most once and each it has no record of exactly once; if its cache has room for all of them, exactly these and in order |
| `PeerCache.BroadcastReaches` | angstrom-main/crates/angstrom-net/src/pool_manager.rs:436-449 | a broadcast adds only orders sent to a peer's traffic, all of them of the broadcast, and afterwards every order of the broadcast has been sent to or received from the peer in this session |
| `PeerCache.NoEcho` | angstrom-main/crates/angstrom-net/src/pool_manager.rs:345-367 | an order that came from a peer is recorded, and a broadcast of it sends that peer nothing |
| `PeerCache.PeerTable.BroadcastOrders` | angstrom-main/crates/angstrom-net/src/pool_manager.rs:436-449 | every peer is sent exactly the orders it has no record of, in any peer order, and they are recorded |
| `FinalizationPools.FinalizationTheorem` | angstrom-main/crates/order-pool/src/finalization_pool.rs:29-76 | from the empty pool, after any run with fresh block numbers, every order has left as often as it came in while not held, up to one pending visit; finalizing the tracked blocks in any sequence empties the pool and ends every visit exactly once |
| `FinalizationPools.RunKeeps` | angstrom-main/crates/order-pool/src/finalization_pool.rs:29-76 | every held order is on the list of a tracked block in every run, and arrivals balance departures |
| `FinalizationPools.LeavesIff` | angstrom-main/crates/order-pool/src/finalization_pool.rs:51-76 | exactly which held orders leave, each handed back once: those a reorg names, and those on the list of a block that is finalized |
| `FinalizationPools.FinalizationPool.NewOrders` | angstrom-main/crates/order-pool/src/finalization_pool.rs:29-45 | orders are held and listed under the block, and the call panics if and only if the block was entered before |
| `FinalizationPools.FinalizationPool.RemoveAll` | angstrom-main/crates/order-pool/src/finalization_pool.rs:51-76 | the named orders that are held are handed back once each |
| `OrderValidators.ValidatorTheorem` | angstrom-main/crates/order-pool/src/validator.rs:71-231 | over every run: per block the remaining results, then one clean-up request for that very block, then one completion with no result between; submitted = answered + in flight + held back as multisets; orders reach the client in arrival order; all work in flight began at the client's block |
| `OrderValidators.BarrierIsExact` | angstrom-main/crates/order-pool/src/validator.rs:187-211 | whenever clean-up is requested the orders answered so far are exactly those that arrived before the block was announced |
| `OrderValidators.EverythingAnswered` | angstrom-main/crates/order-pool/src/validator.rs:97-231 | from every reachable state, whatever transition is under way, answers of the client and the pool's clean-up alone can bring it about that every order that arrived is answered exactly once |
| `OrderValidators.OrderValidator.HandleInform` | angstrom-main/crates/order-pool/src/validator.rs:146-167 | releases the held orders first in first out |
| `OrderValidators.OrderValidator.PollNext` | angstrom-main/crates/order-pool/src/validator.rs:176-231 | what each state says and becomes when polled |
| `OrderStores.NothingLostIff` | angstrom-main/crates/order-pool/src/limit/pending.rs:42-53 | in a store in which no order is both pending and parked, removing stored orders in turn reports all of them if and only if the pending ones have an entry for their level (pool, side, price, volume, gas and gas units) and no two share it |
| `OrderStores.AllReportedIff` | angstrom-main/crates/order-pool/src/limit/pending.rs:42-53 | the same for any list of ids, stale and repeated ones included |
| `OrderStores.ReportedIff` | angstrom-main/crates/order-pool/src/limit/standard.rs:106-124 | in any store, removing any list reports an order of the list if and only if it is parked or its pending entry is left when its turn comes |
| `OrderStores.ParkedCopySaves` | angstrom-main/crates/order-pool/src/limit/standard.rs:106-124 | two pending orders sharing an entry are both reported if the second is parked too |
| `OrderStores.SharedLevelLoses` | angstrom-main/crates/order-pool/src/limit/pending.rs:32-53 | two pending orders with the same quote: removing both reports both if validation charged them differently and only the first if it charged them the same |
| `OrderStores.StaysIff` | angstrom-main/crates/order-pool/src/limit/standard.rs:106-124 | exactly when an order is still stored after removing any list of ids from any store |
| `OrderStores.RemoveEachSound` | angstrom-main/crates/order-pool/src/limit/standard.rs:106-124 | with levels of their own, removing a list reports exactly the stored ones, once each, and leaves the others |
| `OrderStores.ParkedIff` | angstrom-main/crates/order-pool/src/limit/standard.rs:132-138 | in any store, exactly which orders are parked after parking any list: those that were, and the indexed standard orders of the list whose entry was left when their turn came |
| `OrderStores.SoundParking` | angstrom-main/crates/order-pool/src/limit/standard.rs:132-138 | with levels of their own, all indexed standard orders of the list that were pending are parked and none is lost |
| `OrderStores.RemoveParkedEachSound` | angstrom-main/crates/order-pool/src/limit/standard.rs:95-104 | with levels of their own, revalidating parked orders takes out and reports exactly the parked ones of the list and the composable ones that are pending |
| `OrderStores.AddDisjointIff` | angstrom-main/crates/order-pool/src/limit/standard.rs:71-93 | adding keeps pending and parked disjoint if and only if the order is not in the other half already |
| `OrderStores.AddSoundIff` | angstrom-main/crates/order-pool/src/limit/standard.rs:71-93 | and keeps levels unshared if and only if no other pending order is on the level it gets, gas included |
| `OrderReplies.RepliesTheorem` | angstrom-main/crates/order-pool/src/order_indexer.rs:159-204 | over every run: no reply channel is answered twice or about another order, an unanswered one waits for an order still being validated or held back, and once none is outstanding every channel was answered exactly once |
| `OrderReplies.BlockTheorem` | angstrom-main/crates/order-pool/src/order_indexer.rs:268-280 | in every reachable state a validation that resolves began at and is stamped with the indexer's own block, so the wrong-block branch is never taken |
| `OrderReplies.NotifyChannels` | angstrom-main/crates/order-pool/src/order_subscribers.rs:64-72 | answering a hash moves all its channels from listening to answered, once each |
| `OrderReplies.SubscribeChannels` | angstrom-main/crates/order-pool/src/order_subscribers.rs:28-37 | a new channel starts listening for its hash and for no other |
| `OrderReplies.AnswersMean` | angstrom-main/crates/order-pool/src/order_indexer.rs:173-321 | every message sent is justified: cancelled by the owner or a duplicate before the step; accepted if and only if the client called the order executable, and then indexed and, if there is room, pending at the level of the gas charged; not executable if and only if the client called it so, and then indexed and, if there is room, parked if it is a standard order; marked invalid and not stored after a rejection |
| `OrderCancels.CancelSticks` | angstrom-main/crates/order-pool/src/order_indexer.rs:171-183 | over every run, until a block's cutoff reaches the cancel's deadline, a cancelled order that is gone is not validated, stored or finalized again, and whoever hands it in is told at once |
| `OrderCancels.CancelGoneIff` | angstrom-main/crates/order-pool/src/order_indexer.rs:111-157 | in every state, exactly when an order is gone after a request to cancel it: nothing changes if the request is unsigned or the order was found invalid or has a cancel registered by anybody; otherwise no validation of it may be under way, it may not await finalization, it is found or its owner asks, it is not left stored for want of an index entry, and it is not indexed with a parked copy beside its pending one |
| `OrderCancels.CancelTakesOutIff` | angstrom-main/crates/order-pool/src/order_tracker.rs:203-226 | in every state, a request takes a stored order out if and only if it acts, the order is indexed and does not await finalization, and a parked copy beside the pending one is among the requester's own ids |
| `OrderCancels.FinishGoneIff` | angstrom-main/crates/order-pool/src/order_tracker.rs:106-108 | a cancelled order that is gone stays so over a block if and only if the block's cutoff is below the cancel's deadline |
| `OrderCancels.TakenOutUntil` | angstrom-main/crates/order-pool/src/order_tracker.rs:181-217 | after a cancel that finds the order, a block still knows of it if and only if its cutoff is below the order's deadline, or below the moment of the request if the order has none |
| `OrderSteps.IncomingExactly` | angstrom-main/crates/order-pool/src/order_indexer.rs:159-204 | in every state, an incoming order goes to validation, once, if and only if its owner has not cancelled it and it is neither indexed nor found invalid nor being validated; those waiting for it, the new caller included, are told if and only if it is cancelled or a duplicate, and go on waiting otherwise; nothing else changes |
| `OrderSteps.ResultFrame` | angstrom-main/crates/order-pool/src/order_indexer.rs:259-323 | a rejection marks the order invalid and takes it out of both halves of the store, an acceptance puts it into both indexes, and nothing else but messages and the store changes |
| `OrderSteps.DisplacedIff` | angstrom-main/crates/order-pool/src/order_tracker.rs:155-161 | in every state, exactly which other orders an acceptance parks, takes out of the pending pools or leaves |
| `OrderSteps.CancelSaysIff` | angstrom-main/crates/order-pool/src/order_indexer.rs:111-157 | a cancel reports success if and only if it is signed and the order was dealt with before or is found now |
| `OrderSteps.CancelRevalidatesIff` | angstrom-main/crates/order-pool/src/order_tracker.rs:228-246 | in every state, a parked order of the requester leaves the store and is validated again, once, if and only if the request acts and finds its order |
| `OrderSteps.CancelRevalidatesSound` | angstrom-main/crates/order-pool/src/order_tracker.rs:228-246 | with levels of their own, exactly the requester's parked and composable orders are validated again |
| `OrderSteps.MissedUntil` | angstrom-main/crates/order-pool/src/order_tracker.rs:171-178 | a cancel that does not find the order is kept until a block whose cutoff reaches the moment of the request plus 84000 seconds |
| `OrderSteps.ReorgExactly` | angstrom-main/crates/order-pool/src/order_indexer.rs:223-233 | a reorg sends exactly the orders it names that await finalization back to validation, once each, and changes nothing else |
| `OrderSteps.FinalizedExactly` | angstrom-main/crates/order-pool/src/order_indexer.rs:219-221 | a finalized block lets go of exactly the orders on its list |
| `OrderSteps.IndexesAfterBlock` | angstrom-main/crates/order-pool/src/order_tracker.rs:98-139 | in every state, exactly which orders a block leaves in the hash index and in the address index, and that every order found invalid may be handed in again |
| `OrderExamples.CancelLosesRace` | angstrom-main/crates/order-pool/src/order_indexer.rs:263-310 | a whole run: an order cancelled by its owner while its validation is under way is stored all the same if the client accepts it |
| `OrderExamples.StrangerBlocksCancel` | angstrom-main/crates/order-pool/src/order_tracker.rs:219-225 | a whole run: a stranger's cancel for an order not known yet makes the owner's own cancel report success and do nothing, the order staying stored |
| `OrderExamples.StrangerTakesOut` | angstrom-main/crates/order-pool/src/order_tracker.rs:203-226 | a whole run: a stranger's signed request takes a stored order out |
| `OrderExamples.CancelMissesCopy` | angstrom-main/crates/order-pool/src/order_indexer.rs:125-150 | a whole run: an order both pending and parked, nothing of it being validated; its owner's cancel reports success and the parked copy is validated and stored again, a stranger's cancel leaves that copy stored |
| `OrderBlocks.KeptIff` | angstrom-main/crates/order-pool/src/order_indexer.rs:363-389 | exactly which orders a block leaves in the store, in every state |
| `OrderBlocks.NoExpiredLeftIff` | angstrom-main/crates/order-pool/src/order_tracker.rs:98-139 | in every state a block leaves no expired order stored if and only if none survives it; for a store in which no order is both pending and parked, if and only if every stored expired order is in the hash index or listed under a changed address |
| `OrderBlocks.NoChangedLeftIff` | angstrom-main/crates/order-pool/src/order_tracker.rs:248-262 | in every state a block leaves no order of a changed address stored if and only if none survives it; for such a store, if and only if each is listed under a changed address, or is indexed and filled or expired |
| `OrderBlocks.CleanAfterBlock` | angstrom-main/crates/order-pool/src/order_tracker.rs:98-169 | after a block, at the end of any run whose acceptances are guarded, no stored order belongs to a changed address, is past the cutoff, or has a flash block other than the next block |
| `OrderBlocks.BlockSortsOrders` | angstrom-main/crates/order-pool/src/order_indexer.rs:363-389 | a block neither loses nor doubles orders: each stored one is afterwards in exactly one place, back in validation (its address changed), in the finalization pool under this block (filled), gone (expired) or still stored; the expired list names exactly the indexed orders that expired and were not filled, so one that went back to validation is on it too if and only if it expired and was not filled |
| `OrderBlocks.BlockLosesNothingIff` | angstrom-main/crates/order-pool/src/order_indexer.rs:206-255 | in a tidy indexer, exact for the whole block: every stored order of a changed address goes back to validation and every other filled one into the finalization pool if and only if the pending ones among all of them have levels of their own |
| `OrderBlocks.PassedOnIff` | angstrom-main/crates/order-pool/src/order_indexer.rs:206-255 | in every state, exactly which orders a block sends back to validation (listed under a changed address, and parked or with their entry left when their turn comes) and which it puts into the finalization pool (indexed, filled and still found) |
| `OrderBlocks.LostIff` | angstrom-main/crates/order-pool/src/order_indexer.rs:363-389 | in every state, exactly which stored orders are nowhere after a block: pending ones without a parked copy, moved by the block, whose entry went with an earlier order, unless they are on the expired list |
| `OrderBlocks.StepTidyIff` | angstrom-main/crates/order-pool/src/order_indexer.rs:111-389 | exact for every step: indexes keep covering the store and no stored order awaits finalization if and only if no order is accepted that awaits finalization or sits in the other half of the store |
| `OrderBlocks.AcceptTidyIff` | angstrom-main/crates/order-pool/src/order_indexer.rs:285-312 | acceptance keeps the indexes covering if and only if its guard holds |
| `OrderBlocks.AcceptSoundIff` | angstrom-main/crates/order-pool/src/order_indexer.rs:302-310 | acceptance keeps levels unshared if and only if no other pending order is on the level the verdict gives |
| `OrderBlocks.NoneMissingIff` | angstrom-main/crates/order-pool/src/order_indexer.rs:206-217 | in a tidy indexer no order of a changed address goes missing if and only if the pending ones among them have levels of their own |
| `OrderBlocks.FinishTidy` | angstrom-main/crates/order-pool/src/order_indexer.rs:363-389 | exactly which orders a block leaves in the store |
| `OrderBlocks.CancelTidy` | angstrom-main/crates/order-pool/src/order_tracker.rs:203-226 | cancelling never leaves a stored order out of the indexes of a tidy indexer |
| `OrderExamples.BlockLosesAnOrder` | angstrom-main/crates/order-pool/src/order_indexer.rs:206-217 | a whole run: two orders of one address with one quote are charged the same gas, the address changes, and one of them is nowhere any more |
| `OrderExamples.BlockKeepsExpired` | angstrom-main/crates/order-pool/src/order_storage.rs:163-171 | a whole run: filled, accepted again while awaiting finalization, cancelled, and still stored after a block past its deadline |
| `OrderExamples.BlockKeepsChangedAddress` | angstrom-main/crates/order-pool/src/limit/standard.rs:106-124 | a whole run: an order accepted twice with different outcomes stays stored after its address changed |
| `OrderIndexers.OrderIndexer.NotifyValidationSubscribers` | angstrom-main/crates/order-pool/src/order_subscribers.rs:64-72 | every waiting channel of the hash gets the message |
| `OrderIndexers.OrderIndexer.IncomingOrder` | angstrom-main/crates/order-pool/src/order_indexer.rs:159-204 | subscribe first; cancelled by its owner, duplicate, already validating, or submitted |
| `OrderIndexers.OrderIndexer.ParkOrders` | angstrom-main/crates/order-pool/src/order_tracker.rs:155-161 | the indexed ones among the displaced orders are parked |
| `OrderIndexers.OrderIndexer.HandleValidatedOrder` | angstrom-main/crates/order-pool/src/order_indexer.rs:259-323 | rejected, of another block, or accepted |
| `OrderIndexers.OrderIndexer.RevalidateParked` | angstrom-main/crates/order-pool/src/order_tracker.rs:228-246 | the user's parked orders leave the store and are validated again |
| `OrderIndexers.OrderIndexer.RevalidateStored` | angstrom-main/crates/order-pool/src/order_indexer.rs:206-217 | the stored ones among the ids leave the store and those reported are validated again |
| `OrderIndexers.OrderIndexer.TakeOut` | angstrom-main/crates/order-pool/src/order_tracker.rs:146-152 | the ids leave the store in turn; those reported are returned |
| `OrderIndexers.OrderIndexer.CancelOrder` | angstrom-main/crates/order-pool/src/order_indexer.rs:111-157 | unsigned, already dealt with, stored, or unknown; an order awaiting finalization is not taken out |
| `OrderIndexers.OrderIndexer.EoaStateChange` | angstrom-main/crates/order-pool/src/order_tracker.rs:248-262 | the ids of all changed addresses are walked once, whatever the addresses repeat, and their stored orders submitted again |
| `OrderIndexers.OrderIndexer.Unindex` | angstrom-main/crates/order-pool/src/order_tracker.rs:141-148 | completed hashes leave the hash index; the indexed ones are returned once each |
| `OrderIndexers.OrderIndexer.RemoveExpiredOrders` | angstrom-main/crates/order-pool/src/order_tracker.rs:98-139 | expired hashes leave both indexes and the store and are returned once each; old cancels are dropped |
| `OrderIndexers.OrderIndexer.FinishNewBlockProcessing` | angstrom-main/crates/order-pool/src/order_indexer.rs:363-389 | changed addresses first, then fills, then expiry, then the validator is told; it panics after the fills if and only if there are any and the block was entered before |
| `OrderIndexers.OrderIndexer.Reorg` | angstrom-main/crates/order-pool/src/order_indexer.rs:223-233 | reorged orders that were held are validated again |
| `OrderIndexers.OrderIndexer.PollNext` | angstrom-main/crates/order-pool/src/order_indexer.rs:398-421 | one turn of the polling loop, the panic of a second entry included |

## Left out

- ConsensusNetwork.FloodingTheorem: counts pre-proposals and aggregations; forwarded proposals are bounded by ConsensusProposals.ProposalsTheorem for networks that do not deliver a packet twice to one node.
- OrderReplies.RepliesTheorem: says that every channel is answered once validation has answered; that validation answers at all is up to the client, and OrderValidators.EverythingAnswered says that nothing else stands in the way.
- OrderIndexers.OrderIndexer.CancelOrder: does not model the messages that tell the validation client of a cancel; the client may still accept the order.
- A validator set that is empty or whose powers are all zero, and a current height below the start block when the manager is made; the source panics for an empty set and for such a height.
- `add_validator`, `remove_validator` and the joiner penalty: not called by the node.
- `clear` and `set_block` of the block sync, and wakers.
- The matching solver, pool arithmetic and bundle building: the solver's answer is an input.
- The wait trigger's timing: the timeout is an input.
- Cryptography, hashing and wire encoding.
- The events by which the indexer tells the pool manager which orders to gossip and which peers sent bad ones.
- Attestations on the subscriber channels, broadcast order notifications and their tracker, metrics, peer reputation, order origin and the peers an order came from.
- The size limit of the pools: whether an order fits is an input. Pools added or removed while running are not modelled.
- The cache of cancellations per peer: it works as the cache of orders does.
- Parked orders' error texts: only whether an order is executable is kept.
