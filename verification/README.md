# s2PAC in Dafny

A model of the s2PAC consensus engine (`core/`) and of the transaction queue that feeds it (`pool/`), with
proofs about every run of the protocol. `dafny verify dfyconfig.toml` checks the whole project.

## What is modelled

The engine has three protocol variants that share most of their parts.

- **DAG** (`DAGBigCore`, `DAGBigSPB`, `DAGCommitor`). Nodes build a layered DAG: height 1 of a view, height 2 of
  that view, height 1 of the next view. A coin elects a leader of each view; its height-2 block commits on a
  speed certificate, otherwise its height-1 block commits on f+1 weak votes. Modules `DagNode` (one node and its
  handlers), `DagSystem` (n nodes and the network), `DagInvariant` and the modules that prove it
  (`DagFrame`, `DagSteps`, `DagCounters`, `DagEvents`, `DagProposals`, `DagRuns`), then the theorems
  (`DagSafety`, `DagSpeed`, `DagTheorems`, `DagBatches`, `CommonCore`, `DagDecisions`, `DagCommitSafety`,
  `DagTurnout`); `DagSchedules`, `DagLayers`, `DagTurns` and `DagLostSpeed` build the runs for `DagSpeedIff`.
- **Lean** (`Core`, `SPB`, `Commitor`). Nodes build chains of certificates; a view ends with reports on the elected
  leader. Modules `LeanSpb`, `LeanConservation`, `LeanConfluence` (the broadcast instance), `LeanNode`,
  `LeanSystem`, `LeanInvariant`, `LeanSteps`, `LeanEvents`, `LeanRuns` (the system and its invariant), then
  `LeanTheorems`, `LeanSafety`, `LeanRestarts`, `LeanTurnout`, `LeanDecisions`, `LeanCommitSafety`; `LeanSchedules`,
  `LeanViews`, `LeanReports` and `LeanPasses` build runs, and `LeanLateVotes` and `LeanAgreement` say with them where
  the properties end.
- **Big** (`BigCore`, `BigSPB`, `Commitor`). Its broadcast instance is the other variant of `Spb`, its report
  counting the unfiltered case of `ViewChange`. Modules `BigNode`, `BigSystem`, `BigInvariant`, `BigSteps`,
  `BigEvents`, `BigRuns`, `BigTheorems`, `BigSpeed`.
- Shared parts: `Blocks` and `BlockHash` (blocks and hash preimages), `Quorum` (thresholds), `Elector` (leader
  election), `Spb`, `SpbInvariant`, `SpbOrder`, `SpbGrowth` (broadcast instances), `ViewChange` (reports),
  `CommitLog`, `DagCommit`, `ChainCommit` (the commit loops), `TxQueue` (ring buffer).

The protocol theorems quantify over runs of a transition system whose steps are functions on values. The objects
of the source are classes whose methods update their fields in place (`SpbObject.SpbInstance`, `LeanObject.Spb`,
`DagObject.DagCore`, `LeanObject.LeanCore`, `ViewChange.ReportCounter`, `Elector.LeaderElector`,
`CommitLog.Gatekeeper`, `DagCommit.Committer`, `ChainCommit.Committer`, `TxQueue.TxQueue`); each method is proved
to be the step of the same name. The two cores own their instances, elector, commitor gate and report counters.

## How it is modelled

- A goroutine is a pending task. Each section under a mutex and each atomic operation is one step, and steps of
  all goroutines interleave freely. `getReference` reads one instance per step and `processCoin` asks the leader's
  instance one question per step (`SpeedCert`, `DecCert`, `BlockHash`, `QCLEvel`), so sections of the instances may
  run between two reads.
- The network is a multiset of packets that may be delayed, reordered or dropped and is delivered at most once; a
  message that a node sent once is handled at most once by each addressee. Nodes with an identifier below `Faults`
  stay silent, all others follow the handlers.
- The commit loops run over a store that grows between any two lookups, also between two references of one block.
- SHA-256 is taken to be injective, so a digest is its preimage; the zero digest is the empty string, which no
  block hashes to. The preimage itself is not injective on blocks (`BlockHash.HashesCollide`), so the theorems that
  look blocks up by hash carry the hypothesis `Collisionless`: no two blocks of the run collide.
- The combined threshold signature is a function of the view (`Elector.Coin`), `None` when combining fails.
- The clock, the pool's readiness and the transactions are parameters. A batch is represented by its identifier
  wherever the protocol does not look inside it. Counters are unbounded where the source has `int32` and `int`.
- The store is a map from digests to blocks; reading a missing key is the error the source returns.

## Where properties have an exact condition

- Two 2f+1 quorums share f+1 nodes only for n = 3f+1, and share any node except for n in {2, 3, 6}.
- Hashes separate the authors of a committee only up to two nodes; one author's own blocks never collide.
- `DAGCommitor` skips references that are not stored. Draining commits exactly the causal history if and only if
  the committed set is closed under stored references; a reference that arrives late is lost. A set whose every
  reference is stored and committed (`Complete`) stays so whatever arrives later.
- `Commitor` asks for a missing parent without end: a walk ends if and only if every parent it asks for arrives
  (`ChainCommit.Committer.Walk`), and until then nothing behind it in the channel is committed.
- A height-1 block of the DAG references a proposer if and only if that proposer's height-2 certificate was stored
  when the scan read it (`DagSpeed.ReadDecides`); a speed-committed block is covered by later blocks when f+1 speed
  voters voted before that read. Over all runs, speed-committed blocks are covered by the blocks from the next view's
  height 2 on if and only if no more than 2f+1 nodes run (`DagSpeedIff.SpeedCommitsCoveredIff`): then every block
  covers all earlier ones, and otherwise there is a run in which view 1 leaves out the block that the leader of
  view 0 commits by its speed certificate (`DagSpeedIff.SpeedCommitIsLost`).
- In the lean protocol a node may vote for a leader's block after it has reported on the view. So a leader's height-2
  certificate excludes a quorum of LEVEL_0 reports in every run if and only if no more than 2f+1 nodes run
  (`LeanLateVotes.CertificatesExcludeIff`, with a run for every larger number), and a leader's speed certificate
  excludes a quorum of LEVEL_1 reports only where fewer than 2f+1 nodes run and there are no certificates
  (`LeanLateVotes.SpeedCertificatesExcludeIff`). In a given run it is enough that few of the voters voted late
  (`LeanSafety.CertificateExcludesLowLevel`).
- When no more than 2f+1 nodes run, as with f silent nodes out of 3f+1, the coin alone decides: a view is reported at
  LEVEL_0 if and only if its leader is silent, and the blocks after a certified leader all extend it if and only if
  none of them follows a view with a silent leader (`LeanTurnout.CertificateExtendsIffHeard`).
- A lean report of the lowest level may carry no certificate. When enough nodes voted before reporting, all blocks
  of all later views extend the leader's block if and only if no node has changed its view on a report without a
  certificate (`LeanRestarts.LaterViewsExtendLeaderIff`). Such a report needs a quorum of LEVEL_0 reports on its
  view, and a view whose coin elects a silent node forces it: every report on that view is LEVEL_0 without a
  certificate, every height-1 block of the next view starts a new chain, and no later block extends anything from
  before (`LeanRestarts.SilentLeaderBreaksChain`; `LeanAgreement.ChainRestarts` is a run in which this happens).
- The height-1 decisions of every run of the lean protocol agree if and only if fewer than 2f+1 nodes run, so that
  nothing is decided, or no two views can be split (`LeanAgreement.AgreementIff`). Two views with running leaders that
  the coins let the nodes reach are split when more than 2f+1 nodes run, because a leader can commit its block
  although everyone goes on without it (`LeanAgreement.Fork`, `LeanAgreement.ForkAtOnce`), and when the coin elects a
  silent node between them (`LeanAgreement.Restart`).
- The Big core sends a speed vote to the instance of its author, and the instance drops votes for other proposers:
  its speed flag can be raised if and only if the committee has at most three nodes and one of them runs
  (`BigSpeed.FlagIff`).
- The ring buffer is a FIFO if and only if the batch size is positive and smaller than the buffer.
- The comments in `core/config.go` call the thresholds 2f+1 and f+1; the intersection facts these names suggest
  hold for exactly the committee sizes above.

## Model

| member | source | states |
|---|---|---|
| `Quorum.QuorumsShareCorrectNode` | core/config.go:82-92 | two HightThreshold sets always share LowThreshold members if and only if n mod 3 = 1, over all pairs of sets |
| `Quorum.QuorumsIntersect` | core/config.go:82-86 | two HightThreshold sets always intersect if and only if n is not 2, 3 or 6 |
| `Quorum.QuorumMeetsWeakQuorum` | core/config.go:82-92 | a HightThreshold set always meets a LowThreshold set if and only if n mod 3 = 1 |
| `Blocks.Hash` | core/message.go:42-49 | no block has the zero digest that marks an unset field |
| `BlockHash.HashesDiffer` | core/message.go:42-49 | one author's blocks at increasing positions with increasing batch identifiers have different preimages although nothing separates the fields |
| `BlockHash.HashesCollide` | core/message.go:42-49 | two concrete pairs of blocks of different authors with one preimage |
| `BlockHash.EqualLengthAuthors` | core/message.go:42-49 | authors whose encodings have the same length never collide |
| `BlockHash.CollisionFreeCommittees` | core/message.go:42-49 | hashes separate the authors of a committee of n nodes if and only if n is at most 2 |
| `Elector.AfterAll` | core/elector.go:12-66 | after any sequence of elect messages each aggregator holds each author heard exactly once and a leader is recorded exactly when a quorum was heard and combining succeeds |
| `Elector.LeaderOnQuorum` | core/elector.go:12-35 | a leader is announced exactly by the share of a new author that completes the quorum, it lies in [0, n), and a repeated author changes nothing |
| `Elector.OneLeaderPerView` | core/elector.go:53-66 | no sequence of messages announces the leader of a view twice |
| `Elector.LeadersAgree` | core/elector.go:27-31 | nodes that heard different authors in different orders record the same leader |
| `Elector.AddElectSound` | core/elector.go:53-66 | every step keeps the shares of a view from distinct authors and a recorded leader backed by a quorum of them; a leader is announced only for a view that has none, and is the one the coin elects |
| `Elector.LeaderElector.Add` | core/elector.go:53-66 | updates aggregators and leaders as the election step does, with the verdict it returns |
| `Elector.LeaderElector.FoldBytes` | core/elector.go:27-31 | the loop over the first four bytes computes their big-endian value |
| `SpbInvariant.InitKeeps` | core/dag_bitspb.go:32-40 | a new instance satisfies the conservation invariant |
| `SpbInvariant.DeliverKeeps` | core/dag_bigcore.go:154-190 | routing a message to an instance keeps conservation: each vote and proposal is in exactly one place |
| `SpbInvariant.RunKeeps` | core/bigspb.go:39-146 | every section of both broadcast variants keeps conservation: no vote for the accepted block is lost in a buffer or counted twice, one certificate per height |
| `SpbOrder.RunInvariant` | core/bigspb.go:39-146 | conservation holds after any interleaving of deliveries, sections and replays, and the history is what was delivered |
| `SpbOrder.QuietIsDone` | core/bigspb.go:39-146 | once nothing is pending, exactly the votes for the accepted blocks were counted, the certificates exist exactly when they are a quorum, and isSpeedCert exactly when the speed votes are |
| `SpbOrder.OrderIndependence` | core/dag_bitspb.go:42-146 | two runs that received the same messages in any order end with the same hashes, certificates, counters, votes and flag |
| `SpbGrowth.RunGrows` | core/dag_bitspb.go:42-146 | certificates, votes and the speed certificate are never taken back |
| `SpbGrowth.QcMeans` | core/dag_bitspb.go:85-127 | a certificate stands for a quorum of delivered votes for the block accepted at that height |
| `SpbGrowth.SpeedCertMeans` | core/dag_bitspb.go:129-146 | a speed certificate stands for a quorum of speed votes for this proposer and view and comes after the height-2 certificate |
| `SpbObject.SpbInstance.constructor` | core/bigspb.go:30-37 | a new instance is the initial state of the transition system |
| `SpbObject.SpbInstance.AcceptProposal` | core/bigspb.go:39-64 | the section under hMutex is the accepting step; the proposal is put aside exactly when the Big variant misses the parent |
| `SpbObject.SpbInstance.ReplayBuffered` | core/bigspb.go:46-72 | the section under uMutex starts again every buffered proposal and vote |
| `SpbObject.SpbInstance.CheckVote` | core/dag_bitspb.go:85-92 | a vote is buffered exactly when its hash is not the accepted one |
| `SpbObject.SpbInstance.CountVote` | core/dag_bitspb.go:94-102 | exactly the vote that brings the counter to the quorum forms the certificate |
| `SpbObject.SpbInstance.StoreQc` | core/dag_bitspb.go:103-105 | the certificate is stored at its height and nothing else changes |
| `SpbObject.SpbInstance.ReplaySpeedVotes` | core/dag_bitspb.go:119-123 | every buffered speed vote is started again |
| `SpbObject.SpbInstance.CheckSpeedVote` | core/dag_bitspb.go:129-140 | a speed vote passes exactly when it is for this instance and the height-2 certificate exists, and is buffered when only the latter fails |
| `SpbObject.SpbInstance.CountSpeedVote` | core/dag_bitspb.go:142-145 | exactly the speed vote that brings the counter to the quorum sets the flag next |
| `SpbObject.SpbInstance.QcLevel` | core/bigspb.go:167-177 | level and certificate of an instance as the transition system defines them |
| `DagRuns.RunOk` | core/dag_bigcore.go:63-339 | the invariant of the DAG protocol holds in every state of every run |
| `DagCounters.AddWeakVotesCount` | core/dag_bigcore.go:88-95 | the loop over the references of a block adds one weak vote for exactly the proposers it references |
| `DagTheorems.LayeredDag` | core/dag_bigcore.go:256-293 | in every state: one block per node and position; every block but a first one references at least 2f+1 distinct proposers of the layer just below, and each reference names the one block issued there, voted for by 2f+1 nodes |
| `DagTheorems.IncreasingPositions` | core/dag_bigcore.go:256-260 | a node's blocks are proposed at strictly increasing positions along every run |
| `DagTheorems.ElectionGating` | core/dag_bigcore.go:170-208 | when any node knows a leader, 2f+1 nodes hold height-2 certificates of 2f+1 proposers of that view |
| `DagTheorems.CertificateIsAvailable` | core/dag_bigcore.go:143-154 | a certificate a node holds names a block it has received, stored under the hash its instance accepted |
| `DagTheorems.OwnReferencesResolve` | core/dag_bigcore.go:77-86 | every reference in a node's own block is a certificate it holds and resolves in its store |
| `DagTheorems.SpeedCertificate` | core/dag_bigcore.go:214-221 | a speed certificate implies the height-2 certificate, a successful lookup, and 2f+1 distinct speed voters |
| `DagSafety.WeakVotesMean` | core/dag_bigcore.go:147-152 | a weak-vote counter counts distinct nodes whose height-2 block references the proposer's one height-1 block |
| `DagSafety.WeakCommitSafety` | core/dag_bigcore.go:222-229 | for n = 3f+1, a height-1 block referenced by f+1 height-2 blocks of its view is in the causal history of every block of every later view |
| `DagSafety.WeakVotesCommitSafely` | core/dag_bigcore.go:222-229 | the same from a node's counter at one time to all blocks at any later time of the run |
| `DagSpeed.SpeedCommitSafety` | core/dag_bitspb.go:103-117 | for n = 3f+1, if f+1 nodes sent their speed vote for p's height-2 block before the scan for their next height-1 block had read p's instance, that block is in the history of every height-2 block of the next view and everything above |
| `DagSpeed.ReadDecides` | core/dag_bigcore.go:77-86 | the height-1 block proposed from a scan references p if and only if p's height-2 certificate was stored when the scan read p's instance |
| `DagTurnout.EverythingIsCovered` | core/dag_bigcore.go:256-293 | when no more than 2f+1 nodes run, every block has every block of the layers below in its history |
| `DagTurns.NextView` | core/dag_bigcore.go:195-293 | a node of a quorum that has built its layers alone elects a leader outside the quorum, finds nothing to commit and proposes in the next view |
| `DagLostSpeed.StageFive` | core/dag_bigcore.go:127-293 | every quorum without the leader of view 0 has a run in which it builds both layers of view 1 on its own blocks, while the leader can still go on in view 0 |
| `DagSpeedIff.SpeedCommitIsLost` | core/dag_bigcore.go:210-220 | when more than 2f+1 nodes run, there is a run in which the leader of view 0 commits its height-2 block by its speed certificate and a height-2 block of view 1 does not have it in its history |
| `DagSpeedIff.SpeedCommitsCoveredIff` | core/dag_bigcore.go:210-220 | in all runs all speed-committed blocks are in the histories of all blocks from the next view's height 2 on if and only if no more than 2f+1 nodes run (for any coin whose leader of view 0 runs) |
| `CommonCore.CountBothWays` | core/dag_bigcore.go:272-279 | references summed by block equal references summed by proposer |
| `CommonCore.CommonCoreOfView` | core/dag_bigcore.go:272-279 | for n = 3f+1, among any 2f+1 height-2 blocks of a view at least f+1 proposers (f+2 when n is above 1) have a height-1 block that f+1 of those blocks reference, so it is committable, and it is in the history of every block of a later view at every later time of the run |
| `DagBatches.OneAuthorNeverCollides` | core/dag_bigcore.go:107-125 | along every run one author's blocks have pairwise different hashes |
| `DagBatches.BatchesAreUnique` | pool/pool.go:57-60 | along every run no batch is in two blocks of any authors |
| `DagDecisions.GateOrigin` | core/dag_bigcore.go:210-229 | a block reaches the commit loop only as the stored target of the view's elected leader |
| `DagDecisions.QueuesAreBacked` | core/dag_bigcore.go:210-229 | everything any node hands to its commit loop is the elected leader's height-1 block with f+1 supporters or its height-2 block with 2f+1 speed voters |
| `DagDecisions.DecisionsAgree` | core/dag_bigcore.go:210-231 | decisions of all nodes fit: one author per view and one block per position; a decided height-1 block is in the causal history of every block any node decides for a later view, and a speed-decided height-2 block in that of every decided block from height 2 of the next view on if f+1 speed voters were in time |
| `DagDecisions.GateLosesNothing` | core/dag_commitor.go:55-61 | a decided block the gate turns away lies in an earlier view than a block it let through, and in that block's causal history under the conditions of DecisionsAgree |
| `DagCommitSafety.DrainCommitsHistory` | core/dag_commitor.go:31-53 | along every run, draining blocks one after the other over the node's growing store commits the whole causal history of each |
| `DagCommitSafety.CommittedIsUnion` | core/dag_commitor.go:31-53 | the committed set of a node is closed whenever a drain starts and is the union of what the drained blocks reach, whenever their histories arrived |
| `DagCommitSafety.DecidedBlockIsCommitted` | core/dag_commitor.go:31-53 | a block one node's weak votes decide is in the committed set of every node that afterwards drains a block of a later view with its history, starting from the empty set |
| `DagObject.ScanCollectsReferences` | core/dag_bigcore.go:77-86 | the stepwise scan, when nothing interrupts it, collects the certificates of the whole layer by proposer |
| `DagObject.DagCore.GetReference` | core/dag_bigcore.go:77-86 | the loop over the owned instances returns the certificates of a layer by increasing proposer |
| `DagObject.DagCore.AdvanceView` | core/dag_bigcore.go:256-293 | advances exactly as the uninterrupted scan of the transition system |
| `DagObject.DagCore.AddWeakVotesFor` | core/dag_bigcore.go:147-152 | the loop leaves the weak votes of all references added |
| `DagObject.DagCore.HandlePropose` | core/dag_bigcore.go:127-157 | the handler is the proposal step of the transition system: the block is stored, weak votes are added and a goroutine of the owned instance is started |
| `DagObject.DagCore.GetSpbInstance` | core/dag_bigcore.go:63-75 | returns the owned instance of a view and proposer, a fresh one if there is none, and keeps all instances valid and disjoint |
| `DagObject.DagCore.HandleSpeedVote` | core/dag_bigcore.go:170-193 | the handler is the speed-vote step; the elect message goes out exactly when the node's own count stands at the quorum |
| `DagObject.DagCore.ProcessCoin` | core/dag_bigcore.go:210-239 | the uninterrupted sequence of coin steps: commits by speed certificate, else by weak votes, stops on a failed lookup, then advances |
| `DagObject.DagCore.HandleElect` | core/dag_bigcore.go:195-208 | the handler is the election step followed by the coin |
| `DagObject.DagCore.HandleCallBack` | core/dag_bigcore.go:329-332 | the callback branch of the event loop tries to advance to height 2 |
| `CommitLog.EnqueueKeepsOrder` | core/dag_commitor.go:55-61 | positions entering the channel never decrease |
| `CommitLog.Gatekeeper.Commit` | core/commitor.go:59-65 | lets a block through unless it lies below the last position, and keeps the channel ordered |
| `DagCommit.ClosedLosesNothing` | core/dag_commitor.go:35-51 | from a reference-closed committed set a drain adds exactly everything reachable |
| `DagCommit.DrainExactIffClosed` | core/dag_commitor.go:35-51 | every drain adds exactly the reachable blocks if and only if the committed set is closed under stored references |
| `DagCommit.GrowthKeepsClosedIff` | core/dag_commitor.go:44-47 | a growing store keeps the set closed if and only if no missing reference of a committed block arrives later |
| `DagCommit.LateReferenceIsLost` | core/dag_commitor.go:45 | a concrete block whose reference arrives late and is not committed by a second drain |
| `DagCommit.CompleteGrows` | core/dag_commitor.go:44-47 | a committed set whose every reference is stored and committed stays so whatever arrives later |
| `DagCommit.DrainKeepsComplete` | core/dag_commitor.go:35-51 | draining a block whose history is stored keeps the committed set complete |
| `DagCommit.DrainEachIsUnion` | core/dag_commitor.go:32-52 | draining a sequence of blocks, each over the store of its time, commits the union of what they reach there, if the committed set is closed whenever a drain starts |
| `DagCommit.TimingDoesNotMatter` | core/dag_commitor.go:32-52 | over growing stores the committed set depends only on which blocks were drained with their histories: not on their order and not on when |
| `DagCommit.StoredReferences` | core/dag_commitor.go:44-48 | the loop looks the references up one by one while the store grows: it finds every block that was stored at the beginning and none that is not stored at the end |
| `DagCommit.Committer.Drain` | core/dag_commitor.go:34-51 | while the store grows, the work-queue loop ends, commits what was reachable at the beginning, nothing that is not reachable at the end, exactly the history if it was stored, and announces each new digest once |
| `DagCommit.Committer.Run` | core/dag_commitor.go:31-53 | the loop over the channel commits, over growing stores, what the sequence of drains at its own times does |
| `ChainCommit.FreshIncreases` | core/commitor.go:34-54 | each drain logs strictly increasing positions, nothing twice and nothing already committed |
| `ChainCommit.FreshCompletesChain` | core/commitor.go:36-44 | stopping at the first committed ancestor loses nothing when parents of committed blocks are committed |
| `ChainCommit.DrainExactIffParentClosed` | core/commitor.go:33-44 | every drain commits exactly the ancestor chain if and only if committed blocks have committed parents |
| `ChainCommit.GrowthKeepsFresh` | core/commitor.go:36-44 | what a drain logs does not depend on when the ancestors it walks over arrived |
| `ChainCommit.DrainKeepsComplete` | core/commitor.go:46-53 | a drain keeps every committed block stored with its parent committed, and so every later drain exact |
| `ChainCommit.LogFresh` | core/commitor.go:46-53 | a drain keeps every digest logged at most once and every parent before its child |
| `ChainCommit.DrainEachIsUnion` | core/commitor.go:32-56 | over growing stores the committed set is the union of the ancestor chains of the drained blocks |
| `ChainCommit.TimingDoesNotMatter` | core/commitor.go:32-56 | two loops that drain the same blocks at different paces commit the same set |
| `ChainCommit.Committer.Walk` | core/commitor.go:34-44 | over a growing store the walk asks again for a missing parent; it ends if and only if every parent up to the first committed one arrives, with the uncommitted ancestors newest first |
| `ChainCommit.Committer.CommitBackwards` | core/commitor.go:46-53 | the loop commits and logs the queue from its end |
| `ChainCommit.Committer.Drain` | core/commitor.go:33-55 | logs the uncommitted ancestors oldest first and commits exactly those, or nothing while a parent is missing |
| `ChainCommit.Committer.Run` | core/commitor.go:31-57 | the loop over the channel drains the blocks in order up to the first whose walk waits for ever; the committed set is the union of the chains of the drained blocks and the log keeps parents first |
| `ChainCommit.KeptNeverWaits` | core/commitor.go:36-44 | a channel whose blocks all have their ancestors stored in the end is drained completely |
| `TxQueue.NeverFull` | pool/pool.go:44-47 | the branch that drops a transaction is unreachable for 1 <= batchSize < maxQueueSize |
| `TxQueue.ArriveKeeps` | pool/pool.go:43-75 | an arrival extends the pending window, or empties it into one full batch numbered Id + N*bcnt; wind stays rind + 1 + nums modulo the size |
| `TxQueue.FifoHolds` | pool/pool.go:41-86 | for every sequence of arrivals and takes, batches handed out, batches waiting and pending window concatenate to the input, and batches are numbered in order |
| `TxQueue.OverwritesFirst` | pool/pool.go:48-53 | a batch size of zero or above the buffer overwrites an unread transaction |
| `TxQueue.DropsLast` | pool/pool.go:44-47 | a batch size equal to the buffer drops a transaction |
| `TxQueue.FifoIff` | pool/pool.go:21-86 | the queue is a FIFO for every sequence of operations if and only if 1 <= batchSize < maxQueueSize |
| `TxQueue.TxQueue.constructor` | pool/pool.go:21-39 | the initial queue |
| `TxQueue.TxQueue.Receive` | pool/pool.go:41-55 | the loop performs the arrivals one after the other on the circular array |
| `TxQueue.TxQueue.MakeBatch` | pool/pool.go:57-75 | the loop reads one batch from the circular array |
| `TxQueue.TxQueue.GetBatch` | pool/pool.go:77-86 | takes the oldest batch, or returns the empty batch -1 and changes nothing |
| `LeanConservation.InitKeeps` | core/spb.go:29-36 | a new instance satisfies the conservation invariant |
| `LeanConservation.DeliverKeeps` | core/core.go:133-223 | routing a proposal, vote, final vote or speed vote to an instance keeps conservation |
| `LeanConservation.RunKeeps` | core/spb.go:38-136 | every section keeps conservation: each proposal and the final vote is in exactly one place, put aside exactly while its parent is missing; every vote and speed vote is counted once; one certificate per height, formed by the quorum-th vote |
| `LeanConservation.RunGrows` | core/spb.go:38-136 | hashes, certificates, votes and the speed flag are never taken back |
| `LeanConfluence.RunInvariant` | core/spb.go:38-136 | conservation holds after any interleaving of deliveries, sections and replays, and the history is what was delivered |
| `LeanConfluence.HashAndCertificate` | core/spb.go:38-126 | in every reachable state of an instance the height-2 hash is set if and only if the height-1 certificate is, and a height-2 certificate comes with a height-1 certificate |
| `LeanConfluence.QuietIsDone` | core/spb.go:38-136 | once nothing is pending, the accepted blocks are voted for once, every vote and speed vote is counted, the certificates come from the accepted height-2 proposal and the final vote for it, and quorum and flag are reached exactly when the votes suffice |
| `LeanConfluence.Confluence` | core/spb.go:38-136 | two runs that received the same proposals, votes, final vote and speed votes in any order end with the same hashes, certificates, counters, votes and flag |
| `LeanConfluence.CertifyMeans` | core/spb.go:79-103 | a certificate in use stands for a quorum of received votes for one block and is used once |
| `LeanConfluence.SpeedCertMeans` | core/spb.go:128-136 | the speed flag stands for a quorum of received speed votes for this proposer and view |
| `ViewChange.ReportAdvances` | core/core.go:287-311 | a report advances the view if and only if it first completes a level of the current or a later view, and no later view then has a complete level |
| `ViewChange.AlwaysOpen` | core/bigcore.go:192-211 | after any sequence of reports no level of the current or a later view is complete, with and without the filter |
| `ViewChange.ViewIsAboveCompleted` | core/bigcore.go:192-211 | the view is the one just above the last view with a complete level |
| `ViewChange.ReportCounter.HandleReport` | core/bigcore.go:192-205 | the handler counts the report and advances exactly on first completion |
| `LeanRuns.RunOk` | core/core.go:94-370 | in every state of every run: at most one block per node and position, one final vote and one report per node and view; every certificate in a message names a block that 2f+1 distinct nodes voted for; every height-1 block carries the certificate of a report that completed a level |
| `LeanTheorems.ViewChanges` | core/core.go:287-326 | along every run a node changes its view exactly on a report that first completes a level of its view or a later one, to the view after it |
| `LeanTheorems.CarriedIsCertified` | core/spb.go:79-103 | every certificate in a sent block, final vote or report names a block with 2f+1 distinct voters |
| `LeanTheorems.HeldIsCertified` | core/spb.go:138-167 | every certificate in an instance of any node has 2f+1 distinct voters, names the hash the instance accepted, and its block is in the store |
| `LeanTheorems.SpeedCertificate` | core/spb.go:128-140 | the speed flag is raised only at the proposer and stands for 2f+1 distinct speed voters for one height-2 certificate |
| `LeanTheorems.ChainDescends` | core/core.go:308-326 | the certificate in any proposed block names a proposed block at a strictly smaller position |
| `LeanTheorems.ChainIsKept` | core/commitor.go:36-44 | over a store with a block's chain the walk to its ancestors ends and finds them all |
| `LeanSafety.StepReports` | core/core.go:277-280 | a report tells the level and certificate of the elected leader's instance at the node that sends it |
| `LeanSafety.LowLevelExcluded` | core/core.go:287-303 | when more than all but 2f+1 of the running nodes voted for the leader's height-2 block before reporting, fewer than a quorum report LEVEL_0; when as many sent speed votes before reporting, fewer than a quorum report LEVEL_1 or LEVEL_0 |
| `LeanSafety.CertificateIsInTime` | core/spb.go:79-103 | a leader's height-2 certificate whose voters voted before reporting meets that condition while fewer than 2(2f+1) nodes run (in every committee but those of 2, 3 and 6 nodes), because 2f+1 distinct voters stand behind it |
| `LeanSafety.SpeedCertificateIsInTime` | core/spb.go:128-136 | the same for the 2f+1 distinct speed voters behind a speed certificate |
| `LeanSafety.CertificateExcludesLowLevel` | core/core.go:287-303 | a leader's height-2 certificate excludes a quorum of LEVEL_0 reports as long as fewer than 2(2f+1) less the number of running nodes of its voters voted after reporting |
| `LeanSafety.NextViewCarriesLeader` | core/core.go:300-303 | with votes in time every height-1 block of the next view carries a certificate for the leader, with speed votes in time for its height-2 block |
| `LeanSafety.NextViewExtendsLeader` | core/core.go:300-326 | then every block of the next view extends the leader's block |
| `LeanRestarts.LaterViewsExtendLeaderIff` | core/core.go:297-303 | then all blocks of the later views up to any view extend the leader's block if and only if no step of the run has handled a report without a certificate that completes a level of one of the views between |
| `LeanRestarts.NoNilQuorumExtends` | core/core.go:297-303 | they do when no later view has a quorum of LEVEL_0 reporters of which one reports no certificate |
| `LeanRestarts.SilentReports` | core/spb.go:157-167 | on a view whose coin elects a silent node every report is LEVEL_0 without a certificate |
| `LeanRestarts.SilentLeaderRestarts` | core/core.go:297-326 | every height-1 block of the view after such a view carries no certificate |
| `LeanRestarts.SilentLeaderBreaksChain` | core/core.go:297-326 | so no block after such a view extends any block up to that view, decided or not |
| `LeanTurnout.ViewsEndRipe` | core/core.go:179-207 | along every run an elect message, a coin or a report of a view is sent only after 2f+1 distinct nodes sent final votes in it |
| `LeanTurnout.ReportersVotedFirst` | core/core.go:179-285 | when no more than 2f+1 nodes run, every node that reports on a view with a running leader has voted for the leader's height-2 block before |
| `LeanTurnout.LowLevelIffSilent` | core/spb.go:157-167 | a report then is LEVEL_0 if and only if the coin elected a silent node |
| `LeanTurnout.RestartIffSilent` | core/core.go:287-326 | and a height-1 block after view 0 carries no certificate if and only if the leader of the view before is silent |
| `LeanTurnout.CertificateExtendsIffHeard` | core/core.go:287-326 | so all blocks of all views after a leader's certificate extend its block if and only if none of them follows a view with a silent leader |
| `LeanSchedules.Broadcast` | core/spb.go:38-104 | from any reachable state with unused instances some schedule lets any 2f+1 running nodes certify both blocks of a node, without touching other instances |
| `LeanPasses.LeaveView` | core/core.go:179-285 | from any state in which all running nodes have just entered a view, every quorum of them can leave it without the others: all its members report, LEVEL_1 if the leader is among them and LEVEL_0 without a certificate if not |
| `LeanPasses.PassHeard` | core/core.go:255-326 | a view with a running leader can be passed: the leader finds both its certificates in processCoin and commits, and its report takes all running nodes to the next view |
| `LeanPasses.PassSilent` | core/core.go:287-326 | a view with a silent leader can be passed: all running nodes start the next view without a certificate |
| `LeanPasses.PassFork` | core/core.go:255-326 | when more than 2f+1 nodes run, the leader of a view can commit its block while all running nodes start the next view without a certificate |
| `LeanLateVotes.LateVotes` | core/core.go:133-161 | when more than 2f+1 nodes run, there is a run with a leader's height-2 certificate and 2f+1 reports of LEVEL_0 on its view |
| `LeanLateVotes.CertificatesExcludeIff` | core/core.go:287-303 | a leader's height-2 certificate excludes 2f+1 LEVEL_0 reports in every run if and only if no more than 2f+1 nodes run (for any coin whose leader of view 0 runs) |
| `LeanLateVotes.LateSpeedVotes` | core/spb.go:106-126 | when 2f+1 nodes run, there is a run with 2f+1 speed votes for a leader's certificate and 2f+1 reports of LEVEL_1 on its view |
| `LeanLateVotes.SpeedCertificatesExcludeIff` | core/core.go:287-303 | a speed certificate excludes 2f+1 LEVEL_1 reports in every run if and only if fewer than 2f+1 nodes run (for any coin whose leader of view 0 runs) |
| `LeanAgreement.Fork` | core/core.go:255-326 | when more than 2f+1 nodes run, any two views with running leaders have a run in which both leaders' blocks are decided and the later one does not extend the earlier one |
| `LeanAgreement.ForkAtOnce` | core/core.go:255-326 | then a block is decided in a run in which a block of the next view does not extend it |
| `LeanAgreement.ChainRestarts` | core/core.go:287-326 | every view with a silent leader has a run in which a height-1 block of the next view carries no certificate |
| `LeanAgreement.Restart` | core/core.go:287-326 | two views with running leaders and a silent leader in between have a run in which both leaders' blocks are decided and the later one does not extend the earlier one |
| `LeanAgreement.AgreementIff` | core/core.go:255-326 | the height-1 decisions of all nodes in all runs extend one another by view if and only if fewer than 2f+1 nodes run, or no two reachable views with running leaders are split, that is, more than 2f+1 nodes run or a silent leader comes in between |
| `LeanCommitSafety.StoreIsSound` | core/core.go:72-92 | the store of a node holds blocks under their hashes, and a stored parent at a smaller position |
| `LeanCommitSafety.CommittedIsUnion` | core/commitor.go:31-57 | along every run the committed set of a node is the union of the ancestor chains of the blocks it has drained, whenever they arrived |
| `LeanCommitSafety.LeaderIsCommitted` | core/commitor.go:31-57 | a block decided in time is in the committed set of every node that drains a block of any later view, unless some node went to a view in between without a certificate |
| `LeanDecisions.QueuesAreDecided` | core/core.go:255-275 | everything any node hands to its commit loop is a block of the elected leader: its height-1 block with 2f+1 distinct voters for its height-2 block, or its height-2 block with 2f+1 distinct speed voters for its certificate |
| `LeanDecisions.DecisionsAgree` | core/core.go:255-275 | decisions of all nodes fit: one block per position; of two of one view the higher extends the lower; across views the later extends the earlier if that one was decided in time and no node went to a view in between without a certificate, and, for a height-1 block and no more than 2f+1 running nodes, if the coin elects no silent node in between |
| `LeanDecisions.GateLosesNothing` | core/commitor.go:59-65 | a decided block the gate turns away comes below a block it let through, which extends it under the conditions of DecisionsAgree |
| `LeanObject.Spb.AcceptProposal` | core/spb.go:38-61 | the section under hMutex is the accepting step of the instance |
| `LeanObject.Spb.Replay` | core/spb.go:45-67 | the section under uMutex starts again everything that was put aside |
| `LeanObject.Spb.AcceptFinVote` | core/spb.go:106-119 | a final vote passes, waits or is dropped as the step says |
| `LeanObject.Spb.CountVote` | core/spb.go:79-88 | exactly the vote that brings the counter to the quorum forms the certificate |
| `LeanObject.Spb.CountSpeedVote` | core/spb.go:128-136 | exactly the speed vote that brings the counter to the quorum sets the flag next |
| `LeanObject.Spb.QcLevel` | core/spb.go:157-167 | level and certificate of the instance |
| `LeanObject.LeanCore.HandlePropose` | core/core.go:133-161 | stores the block in any case and starts a goroutine of the owned instance unless the view is over |
| `LeanObject.LeanCore.GetSpbInstance` | core/core.go:94-106 | returns the owned instance of a view and proposer, a fresh one if there is none, and keeps all instances valid and disjoint |
| `LeanObject.LeanCore.HandleFinVote` | core/core.go:179-207 | the elect message goes out exactly when the set of final-vote authors reaches the quorum |
| `LeanObject.LeanCore.HandleSpeedVote` | core/core.go:208-223 | a speed vote goes to the owned instance of its proposer, which checks it, unless the view is over |
| `LeanObject.LeanCore.ProcessCoin` | core/core.go:255-285 | the uninterrupted sequence of coin steps: at most one report per view; a failed lookup ends the handler without a report |
| `LeanObject.LeanCore.HandleCoin` | core/core.go:247-253 | the handler is the coin step with the leader of the message |
| `LeanObject.LeanCore.HandleElect` | core/core.go:225-245 | the handler is the election step, with the coin message and the report |
| `LeanObject.LeanCore.HandleReport` | core/core.go:287-326 | the handler is the report step: the counters advance the view exactly on first completion, with one height-1 proposal that carries the certificate of the report |
| `BigRuns.RunOk` | core/bigcore.go:58-264 | in every state of every run: at most one block per node and position and one report per node and view; every certificate in a block or report names a block that 2f+1 distinct nodes voted for |
| `BigTheorems.ViewChanges` | core/bigcore.go:192-224 | along every run a node changes its view exactly on a report that first completes a level of its view or a later one, to the view after it |
| `BigTheorems.CertificateIsAvailable` | core/bigspb.go:81-127 | a certificate a node has formed has 2f+1 distinct voters and names the hash its instance accepted, whose block is in its store |
| `BigTheorems.CommitLookupResolves` | core/bigcore.go:163-181 | whenever processCoin reads a hash to commit, the block is in the store |
| `BigTheorems.SpeedFlagNeedsTinyCommittee` | core/bigcore.go:143 | no instance ever counts two speed votes, so the speed flag is raised only in a committee of at most three nodes |
| `BigSpeed.FlagRaised` | core/bigspb.go:129-146 | in a committee of at most three nodes every running node has a run in which the flag of its own instance is raised |
| `BigSpeed.FlagIff` | core/bigcore.go:143 | some run raises a speed flag if and only if the committee has at most three nodes and one of them runs |
| `BigTheorems.ChainDescends` | core/bigcore.go:207-224 | the certificate in any proposed block names a proposed block at a strictly smaller position |
| `BigTheorems.ChainIsKept` | core/commitor.go:36-44 | over a store with a block's chain the walk to its ancestors ends and finds them all |

## Left out

- Liveness: several triggers fire once and are not retried, so none of the theorems promises progress.
- Agreement on a total order: nodes keep voting after the coin; the DAG results are about committed sets, the lean results about chains.
- A speed-decided DAG block without f+1 speed voters in time: inclusion in later blocks is false in general; the exact condition over all runs is above.
- Lean agreement without votes in time, or across a restart: false in general (`LeanAgreement.Fork`, `LeanAgreement.Restart`); for speed decisions across views only the sufficient condition of `LeanDecisions.DecisionsAgree` is stated.
- Agreement between decisions of the Big core: not stated; its invariant, availability and chain are.
- Network, codec, sockets, start-up: replaced by messages in flight.
- Signatures, certificate verification and DocG checks: all messages are well formed under the silent-fault model.
- The store's request goroutine and database: a map from digests to blocks.
- `handleReportMsg` of the DAG core: nothing sends a report there.
- The transaction maker, logging, configuration files and benchmark scripts.
- Capacities of channels: a send never blocks in the model.
- Widths of counters: `int32` and `int` do not wrap around in the model.
- The class of the Big core: its handlers are modelled as functions; its instance is the object `SpbObject.SpbInstance`.
- DagObject.DagCore.AdvanceView: describes the scan without instance sections in between; runs with interference are covered by the transition system.
- DagObject.DagCore.ProcessCoin: describes the reads without instance sections in between; runs with interference are covered by the transition system.
- LeanObject.LeanCore.ProcessCoin: describes the reads without instance sections in between; runs with interference are covered by the transition system.
- DagObject.DagCore.HandleElect: runs the coin part without instance sections in between; runs with interference are covered by the transition system.
- DagObject.DagCore.HandleCallBack: runs the scan it starts without instance sections in between; runs with interference are covered by the transition system.
- LeanObject.LeanCore.HandleElect: runs the coin part without instance sections in between; runs with interference are covered by the transition system.
- LeanObject.LeanCore.HandleCoin: runs the coin part without instance sections in between; runs with interference are covered by the transition system.
