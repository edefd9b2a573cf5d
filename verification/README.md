# fafo, modelled and proved in Dafny

fafo is a sharded database of SQLite objects whose only durable truth is a blob store with create-if-absent.  This
project models its core state machines and data structures and proves what they promise.  Run
`dafny verify dfyconfig.toml` to check everything.

- **Transfers in the protocol spike** (`Protosim`, `ProtosimProof`, `ProtosimRun`, `ProtosimSolo`): prewrites, one
  outcome key per transfer, aged locks resolved through it, pauses, crashes, a final sweep.  Money is conserved under
  every schedule; nobody is aborted by a rival but for a lock past its time; and a transfer left alone commits.
- **The log-structured commit** (`LogEntry`, `ObjLog`, `ObjLogProof`, `ObjLogTheorems`, `ObjLogFold`, `ObjLogRace`,
  `ObjLogAge`, `ObjLogSolo`):
  one event is one store operation of any of arbitrarily many boats, folds and compactions.  `delete_if_txn` is modelled
  as the code has it, a get and a later delete.  A delete is called clean when nobody relies on the entry it finds:
  deletes that are atomic with their get always are.  What is durable stays durable exactly as long as no delete hits
  an entry of a committed transaction, and what an unclean delete took from a boat is missing for good if the boat
  lands; a reachable run shows the former happen.  Rivals abort only what is past its time, and boats, folds and
  compactions that are left alone do what they are for.
- **The boat pipeline of a worker** (`TxnComponents`, `Boats`, `BoatSteps`, `BoatCut`, `BoatRun`, `BoatLedger`,
  `BoatWorker`, `Sums`):
  transactions apply locally, boats are cut along connected components, land or sink as a whole, and a sunk one reverts
  the smallest closed set.  A transaction is an arbitrary program from the images of the objects it holds to those of the
  objects it changes.
- **What that means for programs** (`BoatSerial`, `BoatFutures`, `BoatParting`, `BoatExact`, `BoatReplay`,
  `BoatWholeRun`, `BoatDirtyRead`): no
  change of an object ever rests on one that was reverted.  For objects a transaction only reads, that holds under a
  guard, which is exact: whoever changed such an object and is not yet durable must be reverted only together with the
  reader, which is so if pending transactions connect the two, or if the revert of the boat at sea reaches the reader.
  Under the guard, live images are a serial execution of what stands and durable images one of what has landed, in the
  order of application; transactions that change all they hold are even serial in the order of landing.
- **Ownership handoff** (`Ownership`, `OwnershipProof`, `OwnershipWorker`): generations, deeds that are lost, duplicated
  or late, healing from checkpoints that may have been read at any time, failed checkpoints, restarts.  At most one worker
  owns an object, and one that nobody owns is found again.
- **Ordered admission** (`Admission`, `AdmissionSteps`, `AdmissionCauses`, `AdmissionWorker`, `AdmissionRun`):
  first-come queues whose heads are acquired in ascending order, over any sequence of messages.  Whatever the worker does to its queues is one of the
  steps of `AdmissionSteps`, which have the conditions of the code; its trace is a run of them.
- **Supporting cores**: page deltas and their wire format (`Bytes`, `PageDelta`, `DeltaWire`, `DeltaOps`), activation
  with a local file (`FetchImage`), block leases (`Leases`), block arithmetic (`Blocks`), the disk ledger
  (`DiskLedger`), the calendar (`CivilDate`).

Where the program updates state in place, the model does: classes with fields, arrays in the union-find, loops with
invariants.  What runs concurrently is a state machine whose events interleave freely.

Assumptions, as the design states them: a store operation that reports failure did not land; a single store operation
is atomic; transaction ids are never reused; a logical worker has one live incarnation, which restarts from its own
latest checkpoint; a node address has one incarnation at a time.

Places where the code does less than its comments say:

- `delete_if_txn` (src/objlog.rs:350-361) is described as safe because it removes only an entry still owned by the
  transaction; its get and delete are two operations, and `ObjLogRace.CommittedEntryLost` is a run in which a committed
  entry is erased between them.
- A sunk boat reverts what changed its objects, but not what only read them (src/worker.rs:982-1030, 1969-1974):
  `BoatDirtyRead.ReadFromSunkBoat` is a run in which a transaction computed from reverted state lands and is
  acknowledged; `BoatExact.RunGroundedIffBinds` gives the exact condition.
- An entry of a transaction id of 2^16 bytes or more does not survive its own wire format;
  `LogEntry.DecodeEncodeEntry` gives the exact limit.
- A deed that a worker mints for itself (`release` without a new owner, src/worker.rs:1700) is accepted neither when it
  arrives nor from the checkpoints: `OwnershipProof.GivenToItself` is a run, `OwnershipProof.HealsTheLost` gives the
  exact condition.  No caller releases to itself.
- A diff leaves the manifest of the new file only if the page size stayed the same (`PageDelta.DiffRefreshesManifest`).

## Model

| member | source | states |
|---|---|---|
| ProtosimProof.Conservation | src/bin/protosim.rs:200-294 | for any transfers with distinct endpoints and any sequence of steps, pauses, crashes, resolutions and sweeps, the sum of committed balances never changes, and no balance goes negative if none started so |
| ProtosimProof.EventIsAtomic | src/bin/protosim.rs:200-259 | every event either leaves each reader's view alone or moves one transfer's amount between both its accounts at once; committed sequence numbers never fall |
| ProtosimProof.AllOrNothing | src/bin/protosim.rs:67-98 | a transfer's two legs are both visible to readers or neither is, according to its outcome key |
| ProtosimProof.AcksAreForever | src/bin/protosim.rs:243-256 | an acknowledged transfer stays committed through every continuation of the run |
| ProtosimProof.EventKeepsOutcomes | src/bin/protosim.rs:62-76 | an outcome once decided never changes |
| ProtosimProof.ReadCommittedMeaning | src/bin/protosim.rs:78-95 | `read_committed` returns the end of the contiguous committed run above the base and the base plus its deltas, and nothing committed follows |
| ProtosimProof.ReadCommittedUnique | src/bin/protosim.rs:78-95 | that description determines the result |
| ProtosimProof.EventKeepsInv | src/bin/protosim.rs:97-129 | every step keeps the lock, funding and contiguity invariant behind these results |
| ProtosimSolo.OnlyAgedAreAborted | src/bin/protosim.rs:100-129 | over any event, a transfer is aborted by another only for a lock older than 40 ticks that the other met in the slot it wanted, and by the final sweep only for a lock it left behind |
| ProtosimSolo.MeetingSettled | src/bin/protosim.rs:214-242 | a transfer that meets an entry in the slot it wants: a committed one and a fresh one stay and it starts over, giving up at its 121st conflict; an aborted or aged one goes, its transfer being aborted, and it tries again |
| ProtosimSolo.ReadsFunds | src/bin/protosim.rs:204-213 | a transfer of more than the account holds gives up without a trace, any other goes on with the committed sequence numbers |
| ProtosimSolo.PrewritesAlone | src/bin/protosim.rs:214-242 | left alone for three steps at any times, a transfer has written both its entries above the last committed ones, and is about to commit or has crashed as planned |
| ProtosimSolo.CommitsAlone | src/bin/protosim.rs:202-259 | left alone, a funded transfer whose slots are free commits with its fourth step and exactly its amount moves |
| ProtosimRun.Store.Read | src/bin/protosim.rs:78-95 | the reading loop returns the specified view of the store |
| ProtosimRun.Store.Resolve | src/bin/protosim.rs:97-129 | resolving a slot: an entry of a committed transfer stays, one of an aborted transfer goes, one of an undecided transfer stays while it is no older than 40 ticks, and otherwise goes, its transfer aborted through the outcome key |
| ProtosimRun.Store.DeleteIf | src/bin/protosim.rs:342-348 | only an entry of the given transfer is deleted |
| ProtosimRun.Transfer.Advance | src/bin/protosim.rs:202-259 | one call on the mutable transfer and store is one step of the specified machine |
| ProtosimRun.Ready | src/bin/protosim.rs:432-440 | exactly the transfers that may run now are offered to the scheduler |
| ProtosimRun.Schedule | src/bin/protosim.rs:453-457 | a scheduled call on the mutable objects is one event of the specified system |
| ProtosimRun.Interleave | src/bin/protosim.rs:428-465 | the scheduler loop takes turns, a step of a runnable transfer or a wait when none may run but some is active, each an event or none; it ends with no transfer active or after the guard's number of turns |
| ProtosimRun.FinalSweep | src/bin/protosim.rs:467-486 | the sweep leaves all balances and decided outcomes as they were, and no lock: only entries of committed transfers remain |
| ProtosimRun.Simulate | src/bin/protosim.rs:389-524 | for every choice sequence the planned transfers play from the opening until none is active or the guard trips, the store is swept, and the report is about what is then stored: the sum of all balances is the opening sum, and every acknowledged transfer is committed |
| TxnComponents.Components | src/worker.rs:2243-2276 | the result partitions the indices into ascending components in first-appearance order, two indices together exactly when a chain of shared participants links them |
| TxnComponents.Find | src/worker.rs:2244-2249 | path-compressing `find` terminates on parents that point up and down, returns the representative and keeps every representative |
| TxnComponents.SameComponent | src/worker.rs:2239-2276 | in any such partition, sharing a component is connectivity, both ways |
| TxnComponents.Complete | src/worker.rs:2251-2264 | linked transactions end with the same root |
| BoatCut.CutBoat | src/worker.rs:690-716 | no transaction is split; the first component sails; the load is within the byte cap or is exactly one component; nothing left behind would still have fitted |
| BoatCut.MarkedNeverSplits | src/worker.rs:690-693 | taking whole components never separates transactions that share an object |
| BoatWorker.Worker.Board | src/worker.rs:717-732 | the boat's transactions and the leftovers are the two halves of the backlog, each in arrival order |
| BoatWorker.Worker.LoadBoat | src/worker.rs:733-738 | the boat's objects leave the dirty map and the byte count remains its sum |
| BoatWorker.Worker.MaybeLaunch | src/worker.rs:653-797 | without a boat and with a backlog it launches a good cut, or reverts exactly that cut when a live file cannot be read; otherwise nothing changes and nothing dirty is left without a boat or a backlog |
| BoatWorker.Closure | src/worker.rs:982-997 | the fixpoint loop terminates with the least superset of the seed closed under pending transactions |
| BoatWorker.Retain | src/worker.rs:998-1007 | exactly the pending transactions that touch no reverted object survive, in order |
| BoatWorker.Worker.RevertClosure | src/worker.rs:982-1030 | live, dirty, byte count, backlog and replies after a revert, every dropped waiter refused |
| BoatWorker.Worker.Apply | src/worker.rs:1858-1974 | with all participants live the program runs on their images; what it changed enters the backlog, acknowledged at once exactly when optimistic and within the watermark; a missing participant, a failing operation or an empty change set changes nothing |
| BoatWorker.Worker.OnShipDone | src/worker.rs:849-973 | a landed boat is cleared, a sunk one reverts the least closed set of its objects, then the next boat is tried |
| BoatWorker.Worker.ShipCommitted | src/worker.rs:2526-2562 | at the commit switch every image aboard becomes durable and every waiter aboard is acknowledged |
| BoatWorker.Worker.ShipFailed | src/worker.rs:2654-2680 | before the switch nothing becomes durable and every waiter aboard is refused |
| BoatWorker.Worker.ShedObject | src/worker.rs:501-516 | only an object with nothing unshipped is dropped |
| BoatWorker.Handle | src/worker.rs:653-1030 | which steps of the pipeline an event amounts to in a given state, that the mutable worker takes exactly those, and what the client hears at once; a submitted transaction waits for its boat exactly when it is pessimistic or the backlog with it exceeds the watermark; after a submission or the end of a boat the next good cut sails unless a live file aboard is damaged |
| BoatWorker.Drive | src/worker.rs:653-1030 | under any sequence of submissions, activations, sheddings, landings, sinkings and crashes, each event takes the worker on by the steps it amounts to, every state is solid (invariant, faithful record, no change resting on a reverted one), landed transactions stay and no client gets two answers |
| BoatWorker.AckedHasLanded | src/worker.rs:1958-1968 | in any such history: a client that submitted a transaction as pessimistic, or over the watermark, and has been told that it succeeded, finds that transaction landed then and ever after |
| BoatLedger.LedgerCounts | src/worker.rs:1941-1957 | in every reachable state the dirty ledger has exactly the objects with pending changes, each at the length of its file when it was first changed since its last boat, and the backlog is their sum |
| BoatLedger.RevertedAreRefused | src/worker.rs:982-1030 | a step that reverts a transaction has refused its waiting client, unless the node crashes |
| BoatLedger.LandedAreAcked | src/worker.rs:2526-2562 | the client of every landed transaction has been told that it succeeded |
| BoatLedger.SilentMeansUnderway | src/worker.rs:653-1030 | without a crash, a client that has heard nothing has a transaction that is pending or at sea |
| BoatRun.LeadsKeeps | src/worker.rs:653-1030 | any number of steps keep the invariant, lose nothing that landed and change no answer |
| BoatRun.WholeRunRefines | src/worker.rs:653-1030 | in every reachable state each live object is its durable image followed by what the in-flight and then the pending transactions recorded for it, and the durable images are what the landed ones recorded, whole and in order |
| BoatWholeRun.AckedForever | src/worker.rs:2550-2562 | an acknowledged pessimistic transaction stays landed, and so does every transaction whose change of an object its own change of it was made on; in a guarded run, whatever it found in any object it held |
| BoatWholeRun.WholeRunIsSerial | src/worker.rs:653-1030 | in every state of a guarded run the live images are those of the standing programs run anew in the order of application, and the durable images those of the landed ones |
| BoatWholeRun.WholeRunInBoatOrder | src/worker.rs:690-797 | when transactions change all they hold, durable images are the landed programs run in the order of landing, and live images the in-flight and then the pending programs run on the durable images |
| BoatWholeRun.GroundedIffGuarded | src/worker.rs:982-1030 | for every byte cap: in no future of any state of the run, with boats cut as the program cuts them and later transactions under the guard, does a transaction outlive what it was computed from, or become durable before it, if and only if every transaction kept the guard when it ran |
| BoatWholeRun.StepKeepsSolid | src/worker.rs:653-1030 | without any guard: no step leaves a standing transaction whose change of an object was made on one that is reverted, nor lands it before that one |
| BoatExact.RunGroundedIffBinds | src/worker.rs:1969-1974 | a new transaction leaves every such future grounded if and only if everyone not yet durable whose change it found shares its fate: through pending transactions, or through the revert of the boat |
| BoatExact.SafeIffForever | src/worker.rs:690-738 | for every byte cap, the bonds between transactions in a state are exactly what it takes for all its futures to be grounded |
| BoatFutures.TiedIsReached | src/worker.rs:982-997 | the guard in terms of what the fixpoint loop computes: the revert of the one's objects, or of the boat's, reaches the other |
| BoatFutures.StepKeepsRecorded | src/worker.rs:1858-1974 | every transaction did what its program makes of what the transactions standing before it had left |
| BoatSerial.StepKeepsSafe | src/worker.rs:653-1030 | applying under the guard, launching, landing, sinking, reverting and crashing keep every bond and leave nobody behind |
| BoatSerial.RevertsSafe | src/worker.rs:982-1030 | a revert of a closed set that covers the boat leaves no survivor that was computed from something reverted |
| BoatSerial.CleanReadsBind | src/worker.rs:1969-1974 | on objects a transaction changes the guard always holds; on all it holds, if it finds nothing unshipped in those it only reads |
| BoatReplay.SerialState | src/worker.rs:653-1030 | in one grounded state: live and durable images are replays of the standing and of the landed programs in the order of application |
| BoatReplay.BoatOrderState | src/worker.rs:690-738 | in one state, for transactions that change all they hold: cutting boats along components permutes only what commutes |
| BoatDirtyRead.ReadFromSunkBoat | src/worker.rs:1969-1974 | a run of the code in which a transaction copies an object from a boat that sinks, lands and is acknowledged; run on what has landed, its program leaves another image |
| BoatRun.StepKeepsInv | src/worker.rs:653-1030 | every step of the pipeline keeps the refinement, dirty, order, accounting and reply invariants |
| BoatRun.LaunchFailedInv | src/worker.rs:763-782 | a launch whose snapshot fails keeps the invariant: it equals a boat that sank in port |
| BoatSteps.RevertsInv | src/worker.rs:942-957 | reverting a closed superset of a sunk boat keeps the recorded refinement, the dirty ledger, order, accounting and replies |
| BoatSteps.LaunchedInv | src/worker.rs:690-797 | launching a cut that splits no transaction keeps the invariant |
| BoatSteps.CutAfter | src/worker.rs:690-693 | seen from one object, such a cut reorders nothing |
| Boats.AckedMeansDurable | src/worker.rs:1955-1969 | in one state: acknowledged with a waiter means landed, with everything earlier on its objects |
| Boats.LandedIsDurable | src/worker.rs:2508-2535 | a landed transaction is durable on every object it changed until a later landed one changes that object |
| LogEntry.ShipmentsFold | src/objlog.rs:198-210 | folding any run of snapshots and successive diffs yields the last file |
| LogEntry.FoldLoop | src/objlog.rs:198-210 | the loop computes the fold, failing exactly when a delta does not decode |
| LogEntry.DecodeEncodeEntry | src/objlog.rs:153-182 | an entry survives its wire format if and only if its transaction id is shorter than 2^16 bytes |
| LogEntry.EncodeDecodedEntry | src/objlog.rs:153-182 | whatever decodes re-encodes to the same bytes |
| LogEntry.EntryLayout | src/objlog.rs:153-182 | where the fields of an entry stand, in which order their bytes come, and what the tags mean |
| ObjLogTheorems.CommitsAreAtomic | src/objlog.rs:97-110 | an event changes nothing a reader sees, or it is a boat's winning commit and appends to every object aboard exactly at expected+1 what the boat carried |
| ObjLogTheorems.AllOrNothing | src/worker.rs:2446-2535 | a boat has landed exactly when its outcome is committed; then all its entries are in the committed prefixes, otherwise none is |
| ObjLogTheorems.OneOutcome | src/objlog.rs:103-129 | in any history, whatever is deleted, commit and abort never both win for one transaction |
| ObjLogTheorems.DurableForever | src/objlog.rs:254-361 | in any history in which no delete hits an entry of a committed transaction: outcomes, bases and committed entries are never removed or replaced and committed sequence numbers never decrease, despite rivals, reclaims and rollbacks |
| ObjLogTheorems.FoldIsLinearizable | src/objlog.rs:381-430 | in a run whose deletes are clean, a fold whose every read is a separate step returns the raw fold up to a number that was the committed one at an instant of its run |
| ObjLogTheorems.CompactionInvisible | src/objlog.rs:435-453 | in a run whose deletes are clean, every published base equals the raw log folded up to its number |
| ObjLogTheorems.PassedThrough | src/objlog.rs:103-110 | in a run whose deletes are clean, committed numbers move one at a time, so every value in between was current at some instant |
| ObjLogTheorems.AtomicDeleteIsClean | src/objlog.rs:350-361 | a delete that still finds the entry its get saw removes nothing anybody relies on |
| ObjLogTheorems.AtomicRunIsClean | src/objlog.rs:350-361 | with deletes atomic with their gets, every run from the empty store has clean deletes only, and none hits a committed entry |
| ObjLogTheorems.GrowsIffSpared | src/objlog.rs:350-361 | in any state whatsoever, an event preserves outcomes, bases and committed entries if and only if it does not delete an entry of a committed transaction |
| ObjLogTheorems.RobbedLandsTorn | src/objlog.rs:339-361 | in every continuation of an unclean delete, a boat that lands has landed without the entry that was taken |
| ObjLogTheorems.TornAtTheSwitch | src/worker.rs:2508-2535 | a boat about to flip its outcome, robbed of an entry, lands with its next step and an item missing |
| ObjLogTheorems.UnnoticedIffClean | src/objlog.rs:350-361 | deleting an entry of a boat that has prewritten everything goes unnoticed, at once and after the boat's next step, if and only if the delete is clean |
| ObjLogTheorems.DeleteSoundIffClean | src/objlog.rs:339-361 | the invariant of the log survives a delete if and only if nobody relies on the entry it removes |
| ObjLogProof.EventKeepsInv | src/objlog.rs:254-361 | prewriting, rival handling, aged-lock reclaim, commit, rollback, faults, folds and compactions keep the invariant when deletes are clean |
| ObjLogAge.OnlyAgedAreAborted | src/objlog.rs:285-328 | in every history, whatever is deleted: an outcome is decided as aborted only by another boat, born more than its own time to live after the aborted one |
| ObjLogAge.MetInSlot | src/objlog.rs:270-328 | a boat about to abort a rival met an entry of that rival in the slot it is after |
| ObjLogAge.RivalStays | src/objlog.rs:286-309 | a committed rival, or an undecided one within the time to live, is left alone and the boat gives up |
| ObjLogAge.AgedIsTakenOver | src/objlog.rs:297-316 | an undecided rival past the time to live is aborted, an aborted one is cleared, and the slot is taken, within six operations |
| ObjLogSolo.VacatedIsTaken | src/objlog.rs:274-283 | a slot that was vacated before the boat could look at its holder, or clear it, is tried again and taken |
| ObjLogSolo.AbortedByAnother | src/objlog.rs:112-125 | a rival that another boat aborted first is cleared and the slot taken all the same |
| ObjLogSolo.CommittedFirst | src/objlog.rs:311-328 | a rival that committed first makes the boat give up and changes nothing |
| ObjLogSolo.OwnOutcomeCounts | src/objlog.rs:103-110 | a boat that finds its own outcome decided has landed if it is committed and gives up if it is aborted |
| ObjLogSolo.LastTry | src/objlog.rs:274-332 | the sixty-fourth try is the last |
| ObjLogSolo.FoldAlone | src/objlog.rs:381-430 | a fold that nobody disturbs returns the committed number and the committed log folded up to it |
| ObjLogSolo.SailsAlone | src/worker.rs:2446-2535 | a boat that expects the committed numbers and finds its slots free lands when left alone, with every item committed in its slot |
| ObjLogSolo.StaleGivesUp | src/objlog.rs:263-269 | a boat that expects another number than the committed one writes nothing for that item and gives up |
| ObjLogSolo.ClearsAlone | src/objlog.rs:339-361 | the clean-up of a boat left alone removes its own entries from its slots and nothing else, and nothing at all if it is committed |
| ObjLogSolo.FaultGivesUp | src/worker.rs:2654-2680 | a boat that has not landed gives up at its first failed operation and then clears up after itself |
| ObjLogSolo.FaultSkipsOne | src/worker.rs:2654-2680 | a failed operation of the clean-up leaves at most one entry behind |
| ObjLogSolo.FatesAreFinal | src/worker.rs:2446-2680 | what landed stays landed, what sank stays sunk, and a boat that is clearing up writes no entry and decides no outcome again |
| ObjLogSolo.CompactsAlone | src/objlog.rs:435-453 | a compaction that nobody disturbs publishes the committed log at its number, unless fewer than `keep` entries lie beyond the highest base, and changes nothing else |
| ObjLogRace.CommittedEntryLost | src/objlog.rs:350-361 | a reachable run of the unconditioned code in which a stalled delete erases a committed entry |
| ObjLogFold.ReadBase | src/objlog.rs:77-91 | while the store changes, the base read is the highest listed and a faithful fold at its number |
| ObjLogFold.TakeEntry | src/objlog.rs:411-419 | an entry is taken exactly when it is fetched and then found committed; what was committed at the start always is |
| ObjLogFold.Walk | src/objlog.rs:396-419 | the walk over the listed entries stops no earlier than what was committed at its start, with payloads that fold to the raw log |
| ObjLogFold.FoldCommitted | src/objlog.rs:381-430 | the retrying loop, interleaved with any evolution of the store, returns the raw fold at a number between the committed ones at its first and last operation; it returns nothing exactly when sixteen attempts in a row were overtaken by a published base, or when what the first one that was not had read does not fold |
| ObjLogFold.CommittedSeq | src/objlog.rs:215-247 | likewise for the number alone, which is missing exactly when all sixteen attempts were overtaken |
| ObjLogFold.EventEvolves | src/objlog.rs:254-453 | every event of the log machine is such an evolution |
| OwnershipProof.SoleOwner | src/worker.rs:1278-1410 | in every reachable state at most one worker owns an object, at the latest generation ever minted, which was minted for it |
| OwnershipProof.SpentOnce | src/worker.rs:1227-1287 | a worker comes to own an object only at the latest generation, newer than all it knew, and only when nobody owned it |
| OwnershipProof.TruthNamesOwner | src/cluster.rs:1690-1750 | the highest-ranked durable claim names the owner or the addressee of the deed under way; no claim means at most the first adoption by the home |
| OwnershipProof.NeverAgain | src/worker.rs:1691-1700 | generations only grow and a spent one is never owned again |
| OwnershipProof.BootKeepsAll | src/cluster.rs:742-798 | the boot reconciliation, over checkpoints however stale, gives a restarted worker exactly its own checkpoint |
| OwnershipProof.EventKeepsInv | src/worker.rs:383-500 | release, receipt, healing, rediscovery, checkpoints and restarts keep the invariant |
| OwnershipProof.GateMeansLatest | src/worker.rs:1279-1287 | a generation minted for a worker passes its gate only if it is the latest and the object is unowned |
| OwnershipProof.HealsTheLost | src/worker.rs:396-460 | in every state of the invariant in which nobody owns an object: a take at the worker that the best claim in the checkpoints names makes it the owner at the latest generation, if and only if it did not give the object to itself; where nothing is claimed the home becomes owner at generation 1; at any other worker nothing changes |
| OwnershipProof.DeedArrives | src/worker.rs:1227-1287 | a deed of the latest generation makes its addressee the owner while nobody is, if and only if it did not give the object to itself |
| OwnershipProof.GivenToItself | src/worker.rs:1691-1701 | a run in which an owner gives an object to itself and neither the deed nor a take makes it the owner again |
| OwnershipWorker.Worker.Release | src/worker.rs:1691-1724 | the generation minted is one above the highest known, or 1; only this object's entries change; with the checkpoint written first, or everything restored |
| OwnershipWorker.Worker.Admit | src/worker.rs:1278-1410 | a deed is taken exactly when newer than everything known; a failed checkpoint does not undo it |
| OwnershipWorker.Worker.OnTaken | src/worker.rs:1227-1258 | a deed for an object already owned changes nothing |
| OwnershipWorker.Worker.AdoptFromLedger | src/worker.rs:396-476 | an object not held is adopted exactly when no transaction of this worker is taking it, the best durable claim is this worker's, as owner or as addressee, or none exists and it is the home, and the claim is newer than what it knows to have sent on |
| OwnershipWorker.DurableClaim | src/cluster.rs:1708-1750 | the loop, in any listing order and skipping unreadable checkpoints, returns a claim no other outranks |
| OwnershipWorker.Boot | src/cluster.rs:742-798 | the reconciliation loops give the worker the objects it wins by generation, then by number |
| OwnershipWorker.BootGivesToWinner | src/cluster.rs:742-798 | a worker boots with exactly the objects for which its checkpoint is the winner: the highest generation, and at that one the lowest number |
| OwnershipWorker.OneWinner | src/cluster.rs:742-798 | every object that a readable checkpoint owns is won by exactly one worker |
| AdmissionSteps.RunsInTurn | src/worker.rs:1800-1811 | in any run, a transaction runs only when it heads the queues of all the participants it arrived with and nobody else holds any of them |
| AdmissionSteps.HeldSince | src/worker.rs:1061-1185 | whatever a transaction holds it took in a step of its own, as head of the queue of a live object that was here, and it has headed that queue ever since |
| AdmissionSteps.RunHolds | src/worker.rs:1056-1061 | in every moment of a run, between any two steps, whoever has acquired an object stands at the head of its queue |
| AdmissionSteps.AnswersAreTrue | src/worker.rs:1777-1797 | an answer stands, is the only one, and is that of the step that ended the transaction |
| AdmissionCauses.OwnershipMoves | src/worker.rs:1568-1683 | an object is given away only by a recorded grant or by being sent home, never with writes not yet durable, and comes in only by a deed or an adoption |
| AdmissionCauses.LiveByFetch | src/worker.rs:1187-1217 | an object becomes live by a fetch that succeeded while routing sends it here, and only so |
| AdmissionCauses.FirstComeFirst | src/worker.rs:1061-1185 | whoever stands before another in a queue does so in every step as long as both stand in it |
| AdmissionCauses.JoinsLast | src/worker.rs:478-483 | whoever comes into a queue comes in at its end |
| AdmissionCauses.FetchesForCause | src/worker.rs:1106-1166 | a fetch under way was begun for the transaction's next object, as head of its queue, when the object was here and not live |
| AdmissionCauses.TakesForCause | src/worker.rs:1169-1184 | a take under way was begun for the transaction's next object when it was not here, and has not been answered since |
| AdmissionCauses.ParkedForCause | src/worker.rs:1061-1185 | between messages, whoever is parked has a take or a fetch under way or stands behind another in the queue of its next object, and a take heads a queue only while writes to the object are not durable |
| AdmissionRun.RanInTurn | src/worker.rs:345-573 | whoever was told that a transaction ran: the trace has the step, in its turn, with the participants it was submitted with |
| AdmissionRun.Drive | src/worker.rs:345-573 | from the start and through any sequence of messages, the worker's trace is a run of the steps, message by message; every moment between messages is orderly: holders stand at the heads of all they hold, waits climb the objects, and anything parked means a take, an activation or a shipment is under way; every transaction is parked or answered, once |
| AdmissionRun.Handle | src/worker.rs:345-573 | the steps one message brings about, first those it stands for and then the worker's own; answers stand, exactly those the message brings down fail, whatever else is answered has run |
| AdmissionRun.QuietIsOrderly | src/worker.rs:1061-1185 | a quiescent state is orderly |
| Admission.NothingStuck | src/worker.rs:1061-1185 | in a quiescent state, anything parked means a take or an activation is under way or an object's writes are: there is no wait cycle |
| Admission.NoDeadlock | src/worker.rs:1056-1061 | in a quiescent state, the chain of waits from any transaction climbs the objects and ends with such an enabling |
| Admission.RunsAsHeadOfAll | src/worker.rs:1800-1811 | where holders head their queues, a transaction that has acquired everything heads all its queues and nobody else holds any of its objects |
| Admission.Exclusive | src/worker.rs:1061-1085 | where holders head their queues, no two transactions hold the same object |
| AdmissionWorker.Worker.Acquire | src/worker.rs:1061-1185 | one turn of the acquisition: an owned object is here whatever routing says; the object is acquired as the head of its queue when it is here and live, or the transaction has something to wait for |
| AdmissionWorker.Worker.Advance | src/worker.rs:1061-1185 | acquisition loops until all is held or something must be waited for |
| AdmissionWorker.Worker.ServiceFront | src/worker.rs:1568-1583 | the head transaction is driven, an unshipped take waits, any other take is granted |
| AdmissionWorker.Worker.GrantFront | src/worker.rs:1588-1683 | a recorded grant removes object and queue and wakes every transaction in it; a refused one keeps the transactions in order and wakes the first |
| AdmissionWorker.Worker.FailTxn | src/worker.rs:1777-1797 | a failed transaction leaves all its queues, is answered once, and whoever it blocked is served |
| AdmissionWorker.Worker.RunAndComplete | src/worker.rs:1800-1999 | a transaction that holds everything runs, before anything else changes; then its queues move on and nobody's wake-up is lost |
| AdmissionWorker.Worker.Pump | src/worker.rs:1035-1054 | the loop terminates, leaves nothing ready, nothing flagged and every wait justified, and whatever it answered has run |
| AdmissionWorker.Worker.NoteActivated | src/worker.rs:1187-1217 | the end of a fetch clears the flag and makes an object that routing still sends here live |
| AdmissionWorker.Worker.OnActivated | src/worker.rs:1187-1225 | a failed fetch fails its transaction, any other only lets transactions run; nothing is left to do afterwards |
| AdmissionWorker.Worker.NoteTaken | src/worker.rs:1227-1261 | a deed makes the object owned, and its taker heads a new queue unless one exists |
| AdmissionWorker.Worker.OnTaken | src/worker.rs:1227-1268 | a failed take, or a stale deed for an object not owned, fails its transaction; any other answer only lets transactions run |
| AdmissionWorker.Worker.OnTake | src/worker.rs:478-483 | a take of an owned object joins the end of the queue and is served at once when alone |
| AdmissionWorker.Worker.OnShipDone | src/worker.rs:954-973 | after a boat some of its objects are clean; the queues of all its objects are served and the transactions that wake are driven, until nothing is ready or flagged and every wait is justified; only runs are answered |
| PageDelta.DiffApplyExact | src/delta.rs:99-131 | applying a diff to the old image gives the new file if and only if every page whose hash matched is unchanged in the resized old image |
| PageDelta.DiffApplyRoundTrip | src/delta.rs:75-131 | with a hash that does not collide on these files the reconstruction is exact for growth, shrinking and short last pages |
| PageDelta.DiffRefreshesManifest | src/delta.rs:99-119 | the manifest after a diff is that of the new file if and only if the page size did not change |
| PageDelta.ShipsOnlyChanged | src/delta.rs:99-119 | a diff carries only pages that the old file lacks or has differently; an unchanged file ships none |
| PageDelta.HeaderReads | src/delta.rs:35-60 | page size and version as SQLite writes them, 64 KiB as 1, most significant byte first |
| PageDelta.HeaderMissing | src/delta.rs:35-60 | a file without a header has page size 4096 and version 0; an empty page size field means 4096 |
| DeltaOps.LiveManifest.Diff | src/delta.rs:99-119 | the in-place loop returns the diff and leaves the manifest of the new file |
| DeltaOps.Image.Patch | src/delta.rs:121-131 | the in-place loop produces the patched image |
| DeltaWire.DecodeEncode | src/delta.rs:136-178 | decoding an encoded delta gives it back when its fields fit their widths |
| DeltaWire.EncodeDecode | src/delta.rs:136-178 | whatever decodes fits the format and re-encodes to a prefix of the input |
| DeltaWire.DecodeDelta | src/delta.rs:151-178 | the offset-moving loop accepts exactly what the specification accepts |
| DeltaWire.Layout | src/delta.rs:133-178 | where the header fields of a delta stand, in which order their bytes come, and that a count the rest cannot hold is refused |
| DeltaWire.PageLayout | src/delta.rs:166-176 | a page is its number, its length and its bytes, and the next follows at once |
| FetchImage.Fetch | src/object.rs:64-134 | the two loops compute the specified image, whose meaning the next rows give; the chain is counted, and a delta that is gone or does not decode fails the activation |
| FetchImage.ActivationRestores | src/object.rs:64-134 | activation gives back the newest published file, whatever superseded deltas are still listed, and whether it starts from the base, from any published version kept locally, or beside a useless local file |
| FetchImage.InsideUsed | src/object.rs:94-108 | a local file of at least 100 bytes whose counter lies between the base and some listed delta is what activation starts from |
| FetchImage.CountsNewer | src/object.rs:118-128 | the count is that of the distinct deltas above the base |
| FetchImage.CachedAgrees | src/object.rs:94-108 | a local file that is the shipped state at its counter gives exactly the plain rebuild |
| FetchImage.CachedExact | src/object.rs:94-108 | a usable local file gives the plain rebuild if and only if it agrees with the shipped state on every byte the later deltas leave alone |
| FetchImage.OutsideIgnored | src/object.rs:82-108 | with a local file below the base, above the base and every listed delta, or shorter than 100 bytes, activation yields what it yields without one, the plain rebuild |
| FetchImage.SameResult | src/delta.rs:121-131 | two images lead to the same result exactly when they agree on the surviving bytes |
| Leases.OnePasses | src/cluster.rs:1085-1131 | at most one address that holds a block passes verification, and it created the block's latest lease |
| Leases.EpochsAreExact | src/cluster.rs:928-1003 | in every reachable state a block's epochs are exactly 1 to the latest |
| Leases.HeldWasCreated | src/cluster.rs:1374-1401 | every held epoch was created by its holder and is not released, across crashes, boot releases, re-adoptions and shutdowns |
| Leases.SupersededForever | src/cluster.rs:1119-1128 | a superseded epoch never passes again |
| Leases.EventKeepsInv | src/cluster.rs:814-1003 | every step of boot, claiming, re-adoption, verification, shutdown and crash keeps the lease invariant |
| Leases.LeaseFromKeys | src/cluster.rs:656-687 | the loop finds the latest lease of a block, its holder and whether it is released |
| Leases.NodeProcess.VerifyLeases | src/cluster.rs:1085-1131 | a failed listing passes and keeps the old stamp; with one, the node passes and is stamped exactly when no held block has a newer lease, and stops otherwise: the event `Verify` |
| Leases.NodeProcess.ClaimBlocks | src/cluster.rs:928-1003 | while others write leases: whatever is claimed was under no lease, released, under this address or held by an address not alive, and is held at the next epoch, created by this node; every such candidate has its next epoch in the store afterwards, whatever the quota, and every block under no lease unless the quota is exhausted |
| Leases.NoTheft | src/cluster.rs:928-962 | in every run, when the health check tells the truth, no claim makes another serving node that passes verification fail it |
| Leases.ClaimCosts | src/cluster.rs:961-985 | a claim that wins costs exactly the other nodes that hold the block their verification |
| Leases.OrphanIsTaken | src/cluster.rs:931-950 | a block can be claimed exactly when it is under no lease, released, under this address or its holder is found dead, and is then held at the latest epoch if its lease is still the one seen |
| Leases.MarkedIsHandedOver | src/cluster.rs:1264-1292 | a lease that its node marked when it shut down is read as released while it is the latest, and its block can be claimed whatever the health check says |
| Leases.BootMarks | src/cluster.rs:826-836 | at boot an unreleased lease under this address is released for this node, and for all when the mark lands |
| Blocks.RangeIsCover | src/cluster.rs:443-457 | a worker is in a block's range if and only if the block covers it, for every count of workers and blocks |
| Blocks.BlocksTile | src/cluster.rs:443-457 | every worker has a block and the ranges start at 0 and end at the last worker |
| Blocks.NoEmptyBlock | src/cluster.rs:452-457 | with no more blocks than workers no range is empty |
| Blocks.EvenShares | src/cluster.rs:443-457 | ranges differ by one worker at most, and by none when the blocks divide the workers |
| Blocks.ClaimedRanges | src/cluster.rs:1225-1240 | the merged ranges are ascending, separate, and hold exactly the workers of the held blocks |
| DiskLedger.Ledger.Upsert | src/limits.rs:129-144 | the entry is replaced and the count remains the sum of the tracked bytes |
| DiskLedger.Ledger.Touch | src/limits.rs:158-165 | size and time of a tracked file change, and the count with them |
| DiskLedger.Ledger.Enforce | src/limits.rs:175-206 | it deletes the shortest least-recently-touched run of cache files that meets the budget, or all of them, and names a worker, one with the most live bytes, exactly when still over it |
| DiskLedger.OnlyOldCaches | src/limits.rs:175-191 | no live file is deleted, and no cache file that stays is older than one that went |
| CivilDate.FollowsCalendar | src/r2.rs:398-411 | consecutive day numbers, negative ones included, are consecutive days of the proleptic Gregorian calendar |
| CivilDate.StartsAtEpoch | src/r2.rs:398-411 | day number 0 is 1 January 1970 |
| CivilDate.DaysOfCivil | src/r2.rs:400-411 | every day number has a valid date whose day number it is |
| CivilDate.CivilOfDays | src/r2.rs:400-411 | every valid date is the date of its day number |

## Left out

- ObjLogTheorems.FoldIsLinearizable: states the result for runs in which every delete is clean, as those with atomic deletes are; otherwise committed numbers can fall, as ObjLogRace.CommittedEntryLost shows.
- ObjLogTheorems.UnnoticedIffClean: speaks of boats that have prewritten all their items; one robbed before that may yet fail for other reasons, and if it lands ObjLogTheorems.RobbedLandsTorn applies.
- BoatExact.SafeIffForever: a future may apply transactions between the end of one boat and the launch of the next, where the program launches at once.
- BoatWorker.Worker.ShipCommitted: makes the boat durable and answers its waiters in one step; a crash between the two leaves clients unanswered, which the model does not distinguish.
- BoatWorker.Worker.Apply: a transaction is one function of the images it holds; SQL, single operations and the results they return are not modelled.
- AdmissionRun.Drive: whether a deed is good and whether the checkpoints let the worker adopt an object come with the message; `OwnershipWorker` decides it.
- AdmissionWorker.Worker.GrantFront: a grant whose taker has died is not reclaimed.
- BoatWorker.Worker.ShedObject: an object with waiting transactions is not shed either; queues are modelled in `Admission` and not here.
- FetchImage.Fetch: base and listing do not change while it runs; a delta that is gone by then is a missing blob.
- OwnershipWorker.Worker.Release: the visit and hysteresis data that travel with a deed are placement policy.
- Leases.NoTheft: the answer of the health check is that of the moment of the claim; the program asks each address once and may act on it a little later.
- OwnershipProof.HealsTheLost: the take reads every checkpoint as it is; one that is unreadable or stale may delay the healing to a later take, but by `OwnershipProof.SpentOnce` never makes a second owner.
- BoatLedger.SilentMeansUnderway: speaks of runs in which the node does not crash; the clients of what a crash loses hear nothing.
- Leases.NodeProcess.ClaimBlocks: between its claims, each of which is the event `Claim`, other nodes only add leases and tombstones.
- Integer widths: counters, sequence numbers, generations, epochs and day numbers are unbounded; the wire formats and page numbers have their real widths.
- Store keys are typed values; formatting and parsing key strings, and the numeric order that zero padding gives them, are not modelled.
- Page hashes are an arbitrary function; that SipHash does not collide is a premise where it is needed.
- The naive control of the protocol spike, its random generator and its report text.
- Orphaned dirty objects at launch, a failing local COMMIT, relinquishing on a lost prewrite, the reclaim of an undeliverable grant and the reconciliation of a phantom transit: repairs with windows in which the invariants proved here do not hold.
- The promotion of commit records, the repair of unpromoted objects and recovery at boot: the log engine commits without them.
- Refreshing stale clean objects before reads and writes, and the snapshot regression fence.
- Polls, capability tokens, wills, routing hints beyond whether an object is taken for one's own, placement and statistics.
- Real-time fencing: lease stamps, clock rates and the time-to-live of a takeover; a lease check is a predicate on the store.
- HTTP, RPC, request signing and the SQLite engine.
