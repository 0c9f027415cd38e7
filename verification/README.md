# Summit: from certified blocks to one canonical state

Summit is an epoch-based consensus client. This project models the path a
certified block takes through it, and proves what that path guarantees:

- the **finalizer** executes notarized blocks speculatively on forks and
  finalized blocks canonically, against an execution layer that may answer
  VALID, INVALID or SYNCING or not at all (`FinalizerModel`, `ForkTree`,
  `FinalizerInvariants`, `FinalizerRuns`, `FinalizerTheorems`,
  `FinalizerRequests`, `FinalizerCommits`, `FinalizerHistory`,
  `FinalizerProgress`, and the class in `Finalizer`);
- the **syncer** archives finalized blocks, makes them durable, delivers them in
  order and repairs gaps (`DispatchGate`, `SyncerModel`, `SyncerRuns`,
  `SyncerTheorems`, `GapRepair`, and the classes in `Syncer`);
- **both together**, with crashes anywhere and the way back from them (`Traces`,
  `Replay`, `Redelivery`);
- **checkpoint import** at startup (`StartupModel`, `StartupProofs`, and the
  classes in `Startup`);
- **proposing, verifying and catching up** on the same block (`Proposal`,
  `CatchUp`);
- the **epoch schedule** everything above relies on (`Epocher`);
- the **write-once withdrawal address** (`WithdrawalAddress`).

Every component that updates fields in place is a class. Each of its methods is
proved equal to a function on values, and the guarantees are proved of that
function over all runs. Loops of the source are loops of the methods.
Every lemma carries `{:induction false}`, so no proof rests on automatic induction.

What the model supposes:

- Digests are injective. They are symbolic: a digest is a term built from the
  block it identifies.
- The answers of the execution layer and the success of database commits are
  arbitrary functions of the call, so every theorem holds for all of them.
- `execute` and `boundary` are arbitrary functions of the consensus state.
- Epochs are contiguous height ranges (`Contiguous`). `Epochs.ScheduleIsContiguous`
  proves this of every well-formed schedule, a new schedule is well-formed
  (`Epochs.NewScheduleOk`), and it stays so while epochs only move forward
  (`Epochs.AnswersNeverChange`).
- A database commit is atomic, and uncommitted batches are lost.
- A started archive sync covers every write buffered before it, and archives
  delete strictly below the prune cutoff.
- A notarized block delivered to the finalizer carries the epoch whose range
  contains its height.
- Block 1 names any parent, a configured genesis hash included; from there on each
  block of a chain names the one below.
- Asked for missing heights, the block archive answers with the lowest ones.

Two promises turn out to be false of the code in general. Each has a concrete
counterexample and an exact condition:

- A floor anchor is stored without the guards of an ordinary store, so it can
  leave a height whose certificate names another block
  (`SyncerTheorems.AnchorCanMisbind`). It keeps the archives bound exactly when
  they agree with the anchor (`SyncerTheorems.AnchorBinding`).
- Gap repair need not end (`GapRepair.RepairCanDiverge`). It never ends exactly
  when the archive refuses a gap block while every block of its gap and of the
  gaps below is known locally. It completes exactly when every missing block is
  known and accepted. Otherwise it stops and names a block it lacks
  (`GapRepair.RepairExact`). So it ends whenever all known gap blocks are accepted
  (`GapRepair.RepairEnds`). The model reports `Diverges` where the source loops.

The verifier side of the timestamp check adds the clock and the allowed future
without saturation, while the proposer saturates. The sum wraps in the model;
`Proposals.ProposalVerifiesExactly` states when a proposal passes either way.

The epoch schedule does not check that its current epoch moves forward; its callers
see to that. `Epochs.SteppingBackMovesBounds` shows what would happen otherwise.

## Model

| member | source | states |
|---|---|---|
| `FinalizerTheorems.ScheduleIndependence` | finalizer/src/actor.rs:709-1357 | in every reachable running state the canonical state is the fold of execute-then-boundary over the applied blocks, a parent-linked chain of consecutive heights, and every live fork belongs to the current epoch, whatever the interleaving |
| `FinalizerTheorems.SameHeadSameState` | finalizer/src/actor.rs:838-1029 | two processes with the same start and the same head hold the same canonical state, however their execution layers, disks, notarizations and retries differed |
| `FinalizerTheorems.HeadFixesChain` | finalizer/src/actor.rs:810-835 | two chains of one length from the same state with the same head digest are equal block by block |
| `FinalizerTheorems.FoldIgnoresEnvironment` | finalizer/src/actor.rs:2295-2304 | the fold depends on execution and boundary alone, not on execution layer answers or the disk |
| `ForkTree.PromotionIsExecution` | finalizer/src/actor.rs:838-923 | promoting a stored fork state gives what executing the block on the canonical state gives, and the block is of the current epoch |
| `ForkTree.NoForkCrossesBoundary` | finalizer/src/actor.rs:1083-1203 | when the last block of an epoch is finalized there is no live fork above it |
| `ForkTree.SweepIsDescent` | finalizer/src/actor.rs:1714-1757 | the level-by-level sweep keeps exactly the forks that descend from the finalized block through live parents |
| `ForkTree.PruneIsExact` | finalizer/src/actor.rs:1714-1757 | after a finalization the live forks are exactly the descendants of the block with their states unchanged, every other higher fork is tombstoned, and tombstones and live forks stay disjoint |
| `ForkTree.PruneKeepsRooted` | finalizer/src/actor.rs:1038-1061 | after pruning every fork is still linked level by level to the new canonical state, inside an epoch and across its end |
| `FinalizerTheorems.ForksDescendFromHead` | finalizer/src/actor.rs:1418-1472 | once the canonical height is positive every live fork descends from the head through executed parents, tombstones are above the head and none is live |
| `FinalizerModel.TurnShrinks` | finalizer/src/actor.rs:1398-1621 | each turn of the orphan worklist lowers the pair of blocks not executed yet and worklist length, so the worklist ends on every orphan set |
| `FinalizerInvariants.NotarizeOneInv` | finalizer/src/actor.rs:1398-1621 | one turn for a notarized block keeps the tree rooted, tombstones disjoint, the retry queue free of duplicates, waiters pending only for undecided blocks and the calls to the execution layer safe |
| `FinalizerInvariants.NotarizeInv` | finalizer/src/actor.rs:1398-1621 | the whole worklist keeps the same, and settles every orphan it drains |
| `FinalizerTheorems.OrphansAccountedFor` | finalizer/src/actor.rs:1334-1355 | in every reachable running state an orphan whose parent is a live fork was executed, is queued, is tombstoned or was rejected as invalid |
| `FinalizerTheorems.HeadHasNoOrphans` | finalizer/src/actor.rs:1332-1355 | in every reachable running state all orphans are above the head and none is a child of it |
| `FinalizerRuns.HandleFinalizedInv` | finalizer/src/actor.rs:709-1357 | handling a finalized block, with every answer and every commit result, keeps the whole invariant of the finalizer |
| `FinalizerRuns.DrainFinalizedInv` | finalizer/src/actor.rs:1630-1653 | draining deferred finalized blocks keeps the invariant, including that the queue is the unacknowledged rest of the arrivals |
| `FinalizerRuns.DrainNotarizedInv` | finalizer/src/actor.rs:1655-1670 | draining deferred notarized blocks keeps the invariant |
| `FinalizerRuns.BootInv` | finalizer/src/actor.rs:442-503 | a restart from any consistent database establishes the invariant |
| `FinalizerRuns.StepInv` | finalizer/src/actor.rs:533-671 | every event of the main loop keeps the invariant |
| `FinalizerTheorems.FinalizedFifo` | finalizer/src/actor.rs:533-564 | acknowledgements are those of a prefix of the arrivals in order, the rest is exactly the retry queue while the process runs, and a terminal block is acknowledged only once a restart would load a state at or above it |
| `FinalizerTheorems.EngineSafety` | finalizer/src/actor.rs:2207-2227 | in every reachable state, ended processes included, the execution layer was only ever told that the start head, an applied block or the one block on offer is final; every such block was delivered as finalized and extends the canonical head it was offered on, and in a running process the block on offer heads the retry queue |
| `FinalizerTheorems.WaitersSound` | finalizer/src/actor.rs:580-623 | an answer was yes exactly when the block was the head or a live fork at that moment, no only when it was outdated or tombstoned, and open requests are above the head, neither executed nor tombstoned and unanswered |
| `FinalizerRequests.RequestsConserved` | finalizer/src/actor.rs:1743-1783 | no event of a living process revises an answer or drops a request, and a new request is answered or kept |
| `FinalizerTheorems.GenesisStable` | finalizer/src/actor.rs:627-671 | any two genesis answers ever served for an epoch from 1 on agree, restarts included; for every epoch after the first loaded one the header of the previous epoch is stored and the answer is the digest of its terminal block |
| `FinalizerTheorems.AuxEpochFromParent` | finalizer/src/actor.rs:1785-1921 | the aux data served for a proposal carries the parent's epoch while the parent is speculative, and the epoch of the next height when the parent is the head |
| `FinalizerTheorems.AuxNamesPreviousEpoch` | finalizer/src/actor.rs:1852-1877 | aux data names a previous header exactly for the last block of an epoch; in every epoch entered during the run it is the genesis of that epoch, the digest of the terminal block of the epoch before |
| `FinalizerCommits.BoundaryPrefix` | finalizer/src/actor.rs:1219-1245 | what is committed at the end of an epoch is the fold of everything applied up to it |
| `FinalizerCommits.StepCommits` | finalizer/src/actor.rs:1219-1245 | at every moment the database holds the fold of a prefix of the applied blocks, all of them delivered and of consecutive heights, and that prefix never shrinks |
| `FinalizerHistory.StepRecorded` | finalizer/src/actor.rs:709-1357 | every event, fatal ones included, keeps the history: the applied blocks are a delivered chain in which each block was valid on the one before, the block on offer is delivered and extends the head, every epoch crossed has its header, and no orphan waits for the head |
| `FinalizerProgress.DrainCatchesUp` | finalizer/src/actor.rs:1630-1653 | once execution layer and disk accept, one retry applies every deferred finalized block of a valid chain in order, acknowledges each and leaves nothing deferred |
| `FinalizerProgress.DeliveryIsApplied` | finalizer/src/actor.rs:533-564 | with nothing deferred a valid finalized block is applied and acknowledged on arrival, whatever forks and orphans are around |
| `FinalizerProgress.NotarizedIsExecuted` | finalizer/src/actor.rs:1418-1610 | a valid notarized block on a live parent becomes a fork holding the executed state, hands out exactly its orphans and answers its waiters yes |
| `FinalizerActor.Finalizer.constructor` | finalizer/src/actor.rs:299-503 | a new process loads the recovered state with empty tables and announces its head |
| `FinalizerActor.Finalizer.CommitForkchoice` | finalizer/src/actor.rs:148-170 | records the call and classifies the answer |
| `FinalizerActor.Finalizer.ExecuteBlock` | finalizer/src/actor.rs:2100-2307 | the epoch check precedes every call, the state changes only when payload, payouts and forkchoice are accepted, and the calls are made in order |
| `FinalizerActor.Finalizer.HeightNotifyExecuted` | finalizer/src/actor.rs:1759-1766 | answers yes to exactly the requests for the executed block |
| `FinalizerActor.Finalizer.HeightNotifyFinalizedUpTo` | finalizer/src/actor.rs:1768-1783 | answers every request at or below the height, yes to the finalized block only |
| `FinalizerActor.Finalizer.PruneForks` | finalizer/src/actor.rs:1714-1757 | the loop over levels keeps exactly the swept set, tombstones the rest and tells their waiters no |
| `FinalizerActor.Finalizer.NotarizeTurn` | finalizer/src/actor.rs:1405-1610 | one worklist turn is the specified turn: ignored, orphaned, deferred, rejected or adopted with its orphans as new work |
| `FinalizerActor.Finalizer.HandleNotarized` | finalizer/src/actor.rs:1398-1621 | the worklist loop computes the recursive specification from its end on |
| `FinalizerActor.Finalizer.PruneAndNotify` | finalizer/src/actor.rs:1034-1061 | tables, tombstones and waiters after a finalization are those of the exact prune |
| `FinalizerActor.Finalizer.PromoteBlock` | finalizer/src/actor.rs:1034-1061 | the new state becomes canonical with its forkchoice normalized |
| `FinalizerActor.Finalizer.CrossEpoch` | finalizer/src/actor.rs:1083-1245 | the next epoch's state and the header are committed together or the process ends |
| `FinalizerActor.Finalizer.SettleBlock` | finalizer/src/actor.rs:1034-1309 | promotion, boundary and acknowledgement in this order; no acknowledgement after a failed commit or a terminal block without certificate |
| `FinalizerActor.Finalizer.ReadoptOrphans` | finalizer/src/actor.rs:1332-1356 | children of the finalized block are taken from the orphans and handled in turn |
| `FinalizerActor.Finalizer.OfferBlock` | finalizer/src/actor.rs:838-1029 | a known fork state is reused after its forkchoice is accepted, otherwise the block is executed |
| `FinalizerActor.Finalizer.HandleFinalizedBlock` | finalizer/src/actor.rs:709-1357 | duplicates are acknowledged, conflicts, wrong certificates and gaps end the process, extensions are finalized or deferred |
| `FinalizerActor.Finalizer.DrainFinalizedQueue` | finalizer/src/actor.rs:1630-1653 | retries from the front and puts a block that is still deferred back at the front |
| `FinalizerActor.Finalizer.DrainNotarizedQueue` | finalizer/src/actor.rs:1655-1670 | retries notarized blocks until one is deferred again |
| `FinalizerActor.Finalizer.DrainPending` | finalizer/src/actor.rs:1630-1670 | finalized blocks first, notarized ones only if none is left |
| `FinalizerActor.Finalizer.DeliverFinalizedBlock` | finalizer/src/actor.rs:533-564 | behind deferred blocks an arrival is queued without an attempt |
| `FinalizerActor.Finalizer.RequestNotification` | finalizer/src/actor.rs:580-623 | answered on the spot for decided blocks, kept otherwise |
| `FinalizerActor.Finalizer.GetAuxData` | finalizer/src/actor.rs:1785-1921 | answered from the parent's state, fork or canonical: its epoch, the state all copied fields are read from, a forkchoice on its head whose safe and finalized blocks are the canonical finalized ones, and for the last block of an epoch the most recent finalized header; refused for an unknown parent and at the end of an epoch without a checkpoint |
| `FinalizerActor.Finalizer.GetEpochGenesis` | finalizer/src/actor.rs:627-671 | epoch 0 from the configuration, the current epoch from the canonical state, a past one from the stored header, otherwise declined |
| `DispatchGates.BarrierIsLowestUncovered` | syncer/src/durability.rs:58-61 | the barrier is the least height among the writes no completed sync covers, and absent exactly when there are none |
| `DispatchGates.DeferTracks` | syncer/src/durability.rs:37-39 | a deferred write extends the uncovered writes by one |
| `DispatchGates.AdoptTracks` | syncer/src/durability.rs:41-47 | an adopted batch stands for the writes since the previous batch |
| `DispatchGates.ReleaseTracks` | syncer/src/durability.rs:49-51 | a completion covers its batch and all earlier ones; a stale one changes nothing |
| `DispatchGates.ClearTracks` | syncer/src/durability.rs:53-56 | a full sync covers everything, and earlier batches stay harmless |
| `DispatchGates.GateRefinement` | syncer/src/durability.rs:36-61 | after any sequence of writes, sync starts, out-of-order or stale completions and full syncs the barrier is the minimum over the uncovered writes |
| `DispatchGates.DispatchGate.DeferHeight` | syncer/src/durability.rs:37-39 | keeps the lowest unsynced height and the refinement |
| `DispatchGates.DispatchGate.AdoptBatch` | syncer/src/durability.rs:41-47 | hands out the next sequence number if there is something to sync |
| `DispatchGates.DispatchGate.ReleaseBatch` | syncer/src/durability.rs:49-51 | the loop drops the batches up to the sequence number |
| `DispatchGates.DispatchGate.ClearAll` | syncer/src/durability.rs:53-56 | forgets every write and batch but not the sequence |
| `DispatchGates.DispatchGate.CurrentBarrier` | syncer/src/durability.rs:58-61 | returns the least height of the uncovered writes of the history |
| `SyncerRuns.BelowBarrier` | syncer/src/actor.rs:1635-1642 | whatever is archived below the barrier is durable |
| `SyncerRuns.PruneOk` | syncer/src/actor.rs:2265-2335 | pruning loses nothing durable above the recovery height |
| `SyncerRuns.SendOk` | syncer/src/actor.rs:1636-1695 | dispatching the next height keeps the window gapless and within its maximum |
| `SyncerRuns.DispatchInv` | syncer/src/actor.rs:1623-1696 | the dispatch loop keeps the window, hands out durable blocks only, terminal ones with a matching durable certificate, and leaves the floor alone |
| `SyncerRuns.ApplyAnchorInv` | syncer/src/actor.rs:1105-1211 | applying a floor anchor keeps the invariant and every durable entry above the recovery height |
| `SyncerRuns.InstallFloorInv` | syncer/src/actor.rs:1041-1102 | installing a floor keeps the same, with or without its block at hand |
| `SyncerRuns.PinCheckpointInv` | syncer/src/actor.rs:318-398 | pinning an imported checkpoint keeps the same |
| `SyncerRuns.ActInv` | syncer/src/actor.rs:430-521 | every action of the event loop keeps the window, the durability of dispatches and the gate, and loses nothing durable above the recovery height |
| `SyncerTheorems.DeliveryWindow` | syncer/src/acks.rs:58-93 | in every run the heights in flight are exactly the successors of the processed height, at most the maximum, and without a floor a process dispatches every height above the recovery height once and in order |
| `SyncerTheorems.ProgressStep` | syncer/src/floor.rs:84-116 | processed height and round never decrease, the height moves only by the oldest acknowledgement or to just below a floor anchor, and a pending anchor is replaced by newer floors only, released only once its round is processed, and above the processed round when installed and after each release |
| `SyncerTheorems.ProgressRun` | syncer/src/actor.rs:2208-2262 | over every run processed height and round never decrease |
| `SyncerTheorems.SkippedOnlyByAnchor` | syncer/src/actor.rs:1184-1195 | every height a run moves past was acknowledged in its turn or passed over by a floor anchor |
| `SyncerTheorems.DispatchIsMaximal` | syncer/src/actor.rs:1623-1696 | dispatch stops only when the window is full or the next height is not durable, missing, awaiting a notarized report, or terminal without a matching certificate |
| `SyncerTheorems.DispatchedIsDurable` | syncer/src/actor.rs:1623-1696 | at every point of every run each dispatched block is durable with its certificate, and two dispatches of a height carry the same block |
| `SyncerTheorems.StoreBinding` | syncer/src/actor.rs:1894-1958 | an admitted store keeps every height bound: a certificate names the block beside it |
| `SyncerTheorems.PinBinding` | syncer/src/actor.rs:337-397 | pinning a checkpoint keeps every height bound, also certificate-first |
| `SyncerTheorems.AnchorBinding` | syncer/src/actor.rs:1145-1176 | a floor anchor keeps the archives bound if and only if neither archive alone holds something else at its height |
| `SyncerTheorems.AnchorCanMisbind` | syncer/src/actor.rs:1145-1176 | a concrete archive and anchor after which block and certificate of a height disagree |
| `SyncerTheorems.ArchiveBinding` | syncer/src/actor.rs:1875-2021 | over all orders of deliveries, repairs, checkpoints and agreeing anchors the archives stay bound |
| `SyncerTheorems.OneDigestPerHeight` | syncer/src/actor.rs:1105-1176 | with one finalized digest per height every entry of both archives names it after any run, anchors included |
| `SyncerTheorems.CertificateAloneIsIgnored` | syncer/src/actor.rs:2023-2060 | a certificate for the next height without its block does not move the recovered round |
| `GapRepair.FindBlock` | syncer/src/actor.rs:2079-2103 | a block found under a digest has that digest |
| `GapRepair.NextGap` | syncer/src/actor.rs:2127-2146 | no gap is returned exactly when no height is missing below a stored one; otherwise the gap is missing throughout and ended by a stored height |
| `GapRepair.WalkFills` | syncer/src/actor.rs:2148-2168 | a walk down a gap of known blocks stores exactly those the archive accepts and nothing else |
| `GapRepair.RoundClosesGap` | syncer/src/actor.rs:2128-2190 | a round over known, accepted blocks removes exactly its gap from the missing heights, so strictly fewer are missing |
| `GapRepair.RepairExact` | syncer/src/actor.rs:2110-2206 | repair completes if and only if every missing block is known locally and accepted by the archive; it never ends if and only if some missing block is refused and every block of its gap and of the gaps below is known; otherwise it stops for a block it lacks |
| `GapRepair.RepairEnds` | syncer/src/actor.rs:2110-2206 | if the archive accepts every known gap block repair ends, whatever is unknown |
| `GapRepair.KnownGapsExact` | syncer/src/actor.rs:2110-2206 | with every gap block known repair completes if all of them are accepted and never ends otherwise |
| `GapRepair.RepairLeavesChain` | syncer/src/actor.rs:2110-2206 | repair stays on the chain; complete, it leaves one hash-linked chain without gap from the processed height on; stopped, it names a block of the chain whose parent is missing below a stored block and unknown |
| `GapRepair.StoppedRepairAsks` | syncer/src/actor.rs:2169-2206 | a stopped repair asks peers for exactly the block it lacks and the lowest missing heights up to the quota, and the floor admits every one of these requests; a repair that did not stop asks for nothing |
| `GapRepair.MissingItemsOk` | syncer/src/actor.rs:2192-2199 | the heights asked for are missing, ascending, within the quota, and a missing height left out is above them all |
| `GapRepair.RepairCanDiverge` | syncer/src/actor.rs:2128-2190 | a concrete chain on a configured genesis hash, an archive on it and a cached certificate for which repair never ends; they meet the hypotheses and the condition of the exact result |
| `GapRepair.StuckWalkRepeats` | syncer/src/actor.rs:2128-2190 | a round that stores no block is repeated with the same path and the same result |
| `GapRepair.RepairIsStores` | syncer/src/actor.rs:2149-2168 | repair is a run of ordinary stores, so all results about runs hold with repairs |
| `SyncerActor.PendingAcks.HasCapacity` | syncer/src/acks.rs:58-61 | there is room exactly when fewer than the maximum are in flight |
| `SyncerActor.PendingAcks.NextDispatchHeight` | syncer/src/acks.rs:64-70 | the successor of the last block in flight, or the start height when none is |
| `SyncerActor.PendingAcks.Enqueue` | syncer/src/acks.rs:73-79 | appends at the back, armed at once when idle |
| `SyncerActor.PendingAcks.CompleteCurrent` | syncer/src/acks.rs:82-93 | takes the oldest and arms the next, in FIFO order |
| `SyncerActor.PendingAcks.Clear` | syncer/src/acks.rs:47-50 | drops everything in flight |
| `SyncerActor.ProcessedFloor.RaiseProcessedRound` | syncer/src/actor.rs:2234-2262 | moves the round forward only, and for a processed height only |
| `SyncerActor.ProcessedFloor.AwaitAnchor` | syncer/src/floor.rs:94-96 | the given certificate becomes the pending anchor |
| `SyncerActor.ProcessedFloor.TakePendingAnchor` | syncer/src/floor.rs:100-102 | returns the pending anchor and clears it |
| `SyncerActor.ProcessedFloor.TakeSupersededAnchor` | syncer/src/floor.rs:106-116 | releases the anchor exactly when its round has been processed |
| `SyncerActor.Syncer.constructor` | syncer/src/actor.rs:301-316 | resumes after the finalizer's selected state with nothing in flight and the round recovered from the archives |
| `SyncerActor.Syncer.PinImported` | syncer/src/actor.rs:318-398 | pins block and certificate, or the certificate alone, of an imported checkpoint exactly when no assertion fails, and makes them durable |
| `SyncerActor.Syncer.StoreFinalization` | syncer/src/actor.rs:1875-2021 | reports a write exactly when the guards admit it; a refused store changes nothing |
| `SyncerActor.Syncer.NextReady` | syncer/src/actor.rs:1636-1693 | the next block unless capacity, barrier, a missing block, a pending report or a missing or different terminal certificate holds it back |
| `SyncerActor.Syncer.TryDispatchBlocks` | syncer/src/actor.rs:1623-1696 | the loop computes the specified dispatch against one barrier |
| `SyncerActor.Syncer.StartFinalizedSync` | syncer/src/actor.rs:1763-1808 | starts a sync over everything buffered |
| `SyncerActor.Syncer.SyncCompleted` | syncer/src/actor.rs:450-456 | a completed sync hardens exactly what it covers |
| `SyncerActor.Syncer.SyncFinalized` | syncer/src/actor.rs:1734-1756 | everything archived is durable afterwards |
| `SyncerActor.Syncer.HandleAcks` | syncer/src/actor.rs:527-563 | processes the ready acknowledgements oldest first, then refills the window; a failed one behind them ends the actor with nothing further processed or sent |
| `SyncerActor.Syncer.DrainAcks` | syncer/src/actor.rs:527-563 | the loop processes exactly the given number of acknowledgements in order |
| `SyncerActor.Syncer.ApplyFloorAnchor` | syncer/src/actor.rs:1105-1201 | applied exactly when the block matches; at or below the floor only the round moves, above it the anchor is stored, synced and delivery is to resume at it |
| `SyncerActor.Syncer.ResumeDelivery` | syncer/src/actor.rs:1203-1211 | gap repair with its requests, a full sync exactly when it wrote, then dispatch |
| `SyncerActor.Syncer.HandleAnchor` | syncer/src/actor.rs:1105-1211 | a block that is not the awaited anchor changes nothing; the anchor is applied and delivery resumed |
| `SyncerActor.Syncer.InstallFloor` | syncer/src/actor.rs:1041-1102 | older rounds and superseded floors change nothing; otherwise the anchor is applied or awaited with the window cleared |
| `SyncerActor.Syncer.PruneFinalizedArchives` | syncer/src/actor.rs:2265-2335 | both archives lose exactly what is below the capped cutoff |
| `SyncerActor.Syncer.RepairGap` | syncer/src/actor.rs:2148-2189 | the inner loop computes the specified walk and whether it wrote |
| `SyncerActor.Syncer.RequestMissing` | syncer/src/actor.rs:2169-2205 | appends the specified requests to those made so far |
| `SyncerActor.Syncer.RepairGaps` | syncer/src/actor.rs:2126-2206 | the outer loop computes the specified repair and makes the specified requests; a reported write is in the history, and nothing changed otherwise |
| `SyncerActor.Syncer.TryRepairGaps` | syncer/src/actor.rs:2110-2206 | a pending floor blocks repair and its requests |
| `Replay.FreshStart` | syncer/src/actor.rs:301-316 | both actors over an empty database are a start of the composed system |
| `Replay.NextInv` | syncer/src/actor.rs:306-316 | every move of the composed system, crashes included, keeps its invariant and replaces no block ever dispatched |
| `Replay.CrashReplay` | finalizer/src/actor.rs:733-767 | at every moment of every run with crashes each block ever dispatched above the durable height is in the durable archive, with its certificate if it ends an epoch, without floors a process redelivers the recorded blocks one by one from the height after the state it loaded, and the canonical state is the fold of the recorded chain, each block once |
| `Replay.ReplayReachesSameState` | finalizer/src/actor.rs:733-767 | back at a height after any crashes the node holds the canonical state it held there before |
| `Redelivery.CrashedNodeReturns` | syncer/src/actor.rs:1623-1696 | after any run and a crash at any moment, also one after the process had ended itself, whatever buffered writes survive, a run of dispatches, arrivals and acknowledgements without floors brings the node back to the state everything applied before leads to, its canonical state if it was running, given an accepting execution layer and disk |
| `Redelivery.EveryRestartReturns` | syncer/src/actor.rs:1623-1696 | in every schedule of redelivery after a crash, at each of its points: until everything lost has arrived the node runs and is not at rest, and once it has the node holds the canonical state from before |
| `Redelivery.EveryRedelivery` | finalizer/src/actor.rs:533-564 | however dispatches, arrivals and acknowledgements interleave, the recorded blocks are applied one by one in order and the node keeps running |
| `Redelivery.IdleIsCaughtUp` | syncer/src/actor.rs:1623-1696 | while recorded blocks lie ahead a block is in the mail, an acknowledgement is due or dispatch sends something, so redelivery is never stuck |
| `StartupProofs.PrepareOk` | finalizer/src/startup.rs:186-320 | every database a startup can leave, crashed or not, has a whole pending pair not behind the stored state and a backed authorization, and its latest height is not below the one found; a successful startup leaves nothing pending |
| `StartupProofs.ImportProtocol` | finalizer/src/db.rs:384-476 | over every sequence of startups, replies, crashes, epoch ends and stops the latest height never decreases, a published import is backed, the pending pair is whole and never behind, and nothing is pending while the node runs |
| `StartupProofs.RejectionKeepsState` | finalizer/src/startup.rs:157-176 | a failed startup leaves states, latest tracker, headers and authorization as they were, unless it first completed an earlier staged import |
| `StartupProofs.RerunChangesNothing` | finalizer/src/startup.rs:186-320 | starting again with the same inputs commits nothing, and with an accepting execution layer selects the same state and authorization |
| `StartupProofs.AcceptedCheckpointIsImported` | finalizer/src/startup.rs:264-302 | a valid checkpoint ahead of the stored state is staged, accepted and published in exactly two commits and selected as the state to start from |
| `StartupProofs.LostReplyIsRetried` | finalizer/src/startup.rs:163-166 | when the reply to an import is lost the next startup completes it |
| `StartupActor.FinalizerDb.LatestState` | finalizer/src/db.rs:257-267 | the state under the latest tracker, if both exist |
| `StartupActor.FinalizerDb.StageImport` | finalizer/src/db.rs:406-422 | both halves of the pending pair in one commit |
| `StartupActor.FinalizerDb.DiscardPending` | finalizer/src/db.rs:424-430 | both halves removed in one commit |
| `StartupActor.FinalizerDb.PublishImport` | finalizer/src/db.rs:448-476 | state, latest tracker, authorization and the end of the pending pair in one commit |
| `StartupActor.FinalizerDb.StoreBoundary` | finalizer/src/db.rs:224-243 | the latest tracker never moves to an earlier epoch |
| `StartupActor.Launcher.FinishImport` | finalizer/src/startup.rs:157-176 | publishes on VALID and SYNCING, discards on INVALID, keeps the pair when the reply is lost |
| `StartupActor.Launcher.ResumePending` | finalizer/src/startup.rs:229-263 | a staged import is re-validated against chain, height, stored state and supplied checkpoint before it is finished |
| `StartupActor.Launcher.ConsiderCandidate` | finalizer/src/startup.rs:264-302 | older checkpoints are ignored, equal ones must match and may add an authorization, newer ones are imported |
| `StartupActor.Launcher.SelectState` | finalizer/src/startup.rs:264-317 | a recovered authorization is handed out only after the execution layer accepts the head |
| `StartupActor.Launcher.PrepareStart` | finalizer/src/startup.rs:186-320 | the whole startup, commit by commit, is the specified one; from a consistent database it leaves consistent ones only, none behind the one found, and nothing pending when it succeeds |
| `Proposals.ExecutionRequestsAscending` | application/src/actor.rs:928-945 | the loop returns true exactly for lists whose elements carry data and whose type bytes strictly ascend |
| `Proposals.SortOk` | application/src/actor.rs:859-866 | sorting by type permutes the requests and orders them |
| `Proposals.SortAscending` | application/src/actor.rs:859-866 | requests of distinct types end up strictly ascending, none lost |
| `Proposals.AscendingIsUnique` | application/src/actor.rs:859-866 | that order is unique, so every sorting algorithm arrives at it |
| `Proposals.OneSleepSuffices` | application/src/actor.rs:43-53 | after one sleep of the computed wait no wait is left |
| `Proposals.AwaitTimestamp` | application/src/actor.rs:762-784 | the clock loop ends after at most one sleep with a timestamp above the parent's that is admissible by the proposer's clock |
| `Proposals.BuildBlock` | application/src/actor.rs:762-897 | waits for the timestamp, asks for the payload and assembles the specified block |
| `Proposals.AssembleBlock` | application/src/actor.rs:859-897 | the block holds payload, sorted requests and aux data, or is refused for its size |
| `Proposals.HandleProposal` | application/src/actor.rs:599-897 | the proposal is refused, a boundary re-proposal or a block assembled from the aux data, within the size limit |
| `Proposals.LeaderProposes` | application/src/actor.rs:599-897 | at the end of an epoch a leader re-proposes its parent if it is within the size limit; elsewhere it proposes a later child if and only if a later timestamp exists, the wait fits the leader timeout, the payload for the one set of attributes used is built and the one block assembled from it is within the limit; in a fair round what it proposes passes verification |
| `Proposals.ProposalVerifiesExactly` | application/src/actor.rs:948-1236 | given a faithful payload and matching parent view, a proposal passes verification if and only if it is a re-proposal or its timestamp is at most the verifier's wrapping sum |
| `Proposals.ProposalPassesVerify` | application/src/actor.rs:726-895 | with a verifier clock not behind the proposer's and no overflow every proposal passes |
| `Proposals.VerifiedBlockBinds` | syncer/src/actor.rs:105-113 | every pair of round and block that live verification accepts, re-proposals in later rounds included, passes the catch-up binding of epoch and view |
| `CatchUp.VerifiedBlockIsBound` | application/src/actor.rs:981-1047 | whatever live verification accepts on aux data served by a running finalizer passes the syncer's epoch and view binding with the certificate of that round |
| `CatchUp.ProposalIsBound` | syncer/src/actor.rs:1907-1928 | a proposal built on aux data of a running finalizer passes verification on that data and then the catch-up binding |
| `Epochs.RangesTile` | types/src/dynamic_epocher.rs:158-170 | every epoch is a non-empty range and the next begins right after it |
| `Epochs.ContainingIsExact` | types/src/dynamic_epocher.rs:180-197 | a height is answered with an epoch exactly when it lies between that epoch's bounds |
| `Epochs.ScheduleIsContiguous` | types/src/dynamic_epocher.rs:158-197 | every schedule satisfies what the other modules suppose of epochs and their last heights |
| `Epochs.NewScheduleOk` | types/src/dynamic_epocher.rs:35-47 | a new schedule with a positive length is well-formed and begins with an epoch of that length |
| `Epochs.UpdateKeepsRanges` | types/src/dynamic_epocher.rs:108-148 | a length change leaves every epoch up to the next one where it was |
| `Epochs.AnswersNeverChange` | types/src/dynamic_epocher.rs:61-148 | from a new schedule on, over any sequence of length changes, advances to later epochs and replacements by a copy that moved on in the same way, every schedule is well-formed and no bound ever answered moves |
| `Epochs.SteppingBackMovesBounds` | types/src/dynamic_epocher.rs:86-92 | a concrete schedule that is set back to an earlier epoch and shortened, after which an answered bound has moved |
| `WithdrawalAddress.NextInv` | rpc/src/withdrawal_address.rs:145-184 | every system call of every process, failing or not, keeps a published file complete and unchanged, and files being written private to their process |
| `WithdrawalAddress.WriteOnce` | rpc/src/withdrawal_address.rs:104-184 | in every interleaving with kills anywhere and reused PIDs the published file is absent or complete, keeps its contents, and every successful call in any process returned the address it holds |
| `WithdrawalAddress.ReadIsBound` | rpc/src/withdrawal_address.rs:125-136 | a read finds nothing exactly when nothing is published, and otherwise the bound address, never a malformed file |
| `WithdrawalAddress.AddressFile.WriteAndLink` | rpc/src/withdrawal_address.rs:171-184 | create, write, sync and link, each with its failure, are the steps of the protocol |
| `WithdrawalAddress.AddressFile.Publish` | rpc/src/withdrawal_address.rs:145-168 | returns the address it linked or, if another was first, the one it reads back; the result is cached |
| `WithdrawalAddress.AddressFile.GetOrBind` | rpc/src/withdrawal_address.rs:104-116 | a cached address is returned as it is, an unbound file without faults gets the given one; any address returned is the one the file holds, and what was published stays |

## Left out

- The inside of `ConsensusState`: accounts, deposits, withdrawals, validator sets and the SSZ tree are one opaque value.
- Certificate and signature verification, Simplex, P2P and the archive format: certificates are a round and a payload, archives are maps.
- Mailboxes, timeouts, metrics and background jobs: each handled message is one atomic step.
- Database read errors and the health flag; a failed commit ends the process.
- The graceful shutdown of an exiting validator, fault evidence and state queries of the finalizer.
- The syncer's caches, subscriptions, peer requests other than those of gap repair, notarized deliveries and tip reports; what the node holds locally is a parameter of gap repair.
- Results about runs of the syncer hold for any round recovered at startup; only the constructor computes it.
- FinalizerActor.Finalizer.GetAuxData: the fields copied out of the consensus state are represented by that state, which is opaque; whether it holds a checkpoint is a parameter, and the fee recipient of a node without treasury is not looked up.
- SyncerActor.Syncer.HandleAcks: the number of acknowledgements that are ready, and whether the next one failed, are parameters.
- SyncerActor.Syncer.RepairGaps: returns `Diverges` where the source would repeat the same round forever.
- Archive section rounding, which may retain more than the cutoff demands.
- Fetching the parent of a proposal and waiting for its execution; whether it was executed is a parameter.
- Proposals.HandleProposal: the execution layer is one function from payload attributes to a payload; transport errors are the absent payload.
- The split of the payload time into seconds and extra data; the payload carries its decoded time.
- 64-bit overflow in the epoch schedule and in heights; timestamps are 64-bit.
- The serialization and the shared lock of the epoch schedule.
- Epochs.AnswersNeverChange: replacing a schedule by one that is no continuation of it, because the one caller (finalizer/src/actor.rs:922) replaces it by a copy that moved on.
- Power loss in the withdrawal-address protocol, and writers outside the protocol.
- The RPC server, the orchestrator, key files, genesis tooling and the command line: thin wrappers that would only add easy members.
