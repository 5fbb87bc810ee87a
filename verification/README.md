# Verification of the LinxISA cycle model, guest memory and functional engine

This project models the cycle-level out-of-order pipeline of `camodel` as a step machine, one step per
cycle, and proves what every run of it guarantees. Beside it stand the dependence builder that feeds
the pipeline, the guest memory and boot stack of `runtime`, and the run loop, register frames and
descriptor tables of `funcmodel`. Run `dafny verify dfyconfig.toml` to check everything.

## How it is organised

The pipeline state is the record `Model.State`: frontend stages and fetch control, issue queue with
tags, owner table and wait crossbar, P1/I1/I2, E1-E4 and writeback, load/store unit, reorder buffer and
commit list, and the fields of each uop that the pipeline updates. A `CycleUop` is split in two: `Uop`
holds what the dependence builder fixes, `Dyn` what the pipeline writes. `Commit.Step` is one cycle in
the order of the engine loop; `Commit.IsRun` is a sequence of states that starts empty and follows
`Step`. `Engine.CycleEngine` is the same machine in the form the program has: an object whose methods
update queues and uops in place, in loops, each proved equal to the function that specifies it, up to
the loop over cycles (`Run`).

What the branch-context logic decides (which faults are published, where a resolved boundary sends
fetch, which checkpoint ids are snapshotted) is an input of each cycle, so every theorem about runs
holds for all such decisions. A run is *coherent* (`CoherentRuns.IsCoherent`) when every redirect it
schedules comes from a uop whose `redirect_target` is set and restarts at the next sequence number.
Theorems that need coherence say so; the others hold of every run. `StreamRuns` proves coherence from a
condition on the list and the inputs alone.

Two sequences, `issueLog` and `l1dLog`, and the map `owner` of the descriptor tables only observe: they
record the order in which memory uops issue and L1D transactions start, and who holds a host
descriptor. No step reads them.

| modules | content |
|---|---|
| Model, Queues, LoadGen, Select, Lsu, Frontend, Recovery, Commit | the steps of a cycle |
| Engine | the same steps as in-place methods, and the run loop |
| Residency, SelectFacts, Alive, Tags, TagSteps, Timing, StageSteps, WellFormed, Wakeup, WakeSteps, Runs | the invariant of every run |
| Conserve, CommitOrder, MemoryOrder, MemorySteps, MemoryRestart, Tracking, CoherentRuns | the invariant of every coherent run |
| EveryRun, Dataflow, Arbitration, CoherentLaws, PickOrder, AdmissionOrder | what follows, stated over runs and cycles |
| StreamRuns | coherence proved from a condition on list and inputs |
| Replay, BranchTargets, StaleRun | one run in full, cycle by cycle, on which a wake-up is lost; the branch logic that gives its redirect |
| Decode, Program | the dependence builder, and its composition with the run loop |
| GuestMemory, AddressSpace, Bytes, BootStack | guest memory, memory system calls, boot stack |
| Frames, FuncRun, FdTable | functional engine |

## Model

| member | source | states |
|---|---|---|
| `Runs.RunSatisfies` | crates/camodel/src/core/engine.rs:51-132 | every state of every run that has not halted satisfies the whole invariant: no sequence number in two places, P1/I1 exactly the entries in flight, tags and crossbar exact, timing stamps consistent, redirect protocol |
| `EveryRun.IqAllocation` | crates/camodel/src/issue/queues/mod.rs:464-491 | on every run the keys of the tag map are exactly the queued sequence numbers, the map is injective, each tag lies in its entry's own physical queue, the owner table is its exact inverse, and no queue holds more than 32 entries |
| `EveryRun.RoutedIsAllocated` | crates/camodel/src/issue/queues/mod.rs:531-539 | at every point of the dispatch loop, once routing has found a queue a tag of that queue is free (pigeonhole over the 32 entry ids) |
| `EveryRun.AllocationOnRuns` | crates/camodel/src/frontend/mod.rs:918-954 | in every cycle of every run, for every uop waiting in S2, routing success implies allocation success |
| `TagSteps.EnqueueLimit` | crates/camodel/src/issue/queues/mod.rs:13-28 | a cycle adds at most two entries to any physical queue, whatever waits in S2 |
| `Tags.DeliveryIsBroadcast` | crates/camodel/src/issue/queues/mod.rs:335-418 | crossbar, owner table and non-queue broadcast together change the entries exactly as showing the event to every source of every entry would, although tags are recycled |
| `EveryRun.DeliveryOnRuns` | crates/camodel/src/issue/queues/mod.rs:173-190 | in every cycle of every run the network's delivery of all events equals the plain broadcast |
| `EveryRun.ReadinessOnRuns` | crates/camodel/src/issue/queues/mod.rs:173-333 | on every run, after the update, both readiness bits of every tracked source say exactly whether data, or only pick wake-up, is visible by this cycle |
| `CoherentLaws.ReadinessOnCoherentRuns` | crates/camodel/src/issue/queues/mod.rs:192-333 | on every coherent run the bits are exact for every valid source that is no queue source or captured a tag: no wake-up lost, none false |
| `Wakeup.WakesIffTracked` | crates/camodel/src/issue/queues/mod.rs:399-418 | a source still waiting when its producer's data becomes visible is woken in that cycle iff it is no queue source or the tag it captured is the one its producer holds |
| `StaleRun.StaleCaptureIsLost` | crates/camodel/src/issue/queues/mod.rs:114-150 | a run of 31 cycles from the empty pipeline over a list the builder makes: a consumer dispatched past its refetched producer captures the tag the producer held before the flush, the producer is given another one, and the update of the cycle in which its data becomes visible leaves the consumer waiting |
| `StaleRun.IsDerived` | crates/camodel/src/frontend/mod.rs:97-121 | the redirect of that run is the one the branch logic gives: of the blocks that resolve in cycle 11 the oldest has no target, the one of cycle 12 takes the target of the block before it, and none faults |
| `StaleRun.NineIsBuilt` | crates/camodel/src/decode/mod.rs:7-126 | the list of that run is exactly what the builder makes of its stream |
| `Tags.OccupancyBound` | crates/camodel/src/issue/queues/mod.rs:26-28 | distinct tags bound the occupancy of a queue by its number of entry ids |
| `EveryRun.RedirectProtocol` | crates/camodel/src/control/recovery/mod.rs:233-335 | on every run pending flush and fetch restart are both empty when a redirect may be scheduled, are set together for the next cycle, the flush leaves nothing younger than its point, fetch resumes strictly above it, and no sequence number is live twice |
| `EveryRun.FlushClears` | crates/camodel/src/control/recovery/mod.rs:149-231 | after a flush no stage, queue entry, tag, reorder-buffer slot or load/store queue holds anything above the flush point |
| `Dataflow.IssueIsSafe` | crates/camodel/src/issue/select/mod.rs:168-228 | on every run a uop leaves I2 only when every producer's data is visible by that cycle, and in every later state that visibility cycle is unchanged |
| `Dataflow.DataIsFinal` | crates/camodel/src/trace/mod.rs:25-58 | on every run data visible by a cycle is never withdrawn or restamped afterwards |
| `Dataflow.MissIsHidden` | crates/camodel/src/backend/lsu/mod.rs:26-61 | a load still due for an injected miss shows no data and no completion between cycles: its reset comes in the cycle that stamps E4 |
| `Arbitration.PickedIsOldest` | crates/camodel/src/issue/select/mod.rs:310-328 | a picked entry is the oldest ready one of its physical queue, and no other of that queue is picked |
| `Arbitration.PassedOverForOlder` | crates/camodel/src/issue/select/mod.rs:276-299 | a ready entry is passed over only for an older one of its queue, or because P1 is full and everything picked is older |
| `PickOrder.PickedIsFirst` | crates/camodel/src/issue/select/mod.rs:310-328 | in every cycle of every coherent run the picked entry has the least sequence number among the ready entries of its queue |
| `PickOrder.PassedOverForEarlier` | crates/camodel/src/issue/select/mod.rs:276-299 | there, a ready entry is passed over only for a smaller sequence number of its queue, or because P1 is full and everything picked is smaller |
| `SelectFacts.WinnersAreOldest` | crates/camodel/src/issue/select/mod.rs:310-328 | sort and dedup leave exactly one winner per queue with a ready entry, minimal in age |
| `Arbitration.ArbitrationRule` | crates/camodel/src/issue/select/mod.rs:45-71 | the k-th attempt is admitted iff the older admitted ones took neither its queue nor the ports it needs; otherwise its in-flight mark is cleared |
| `Arbitration.LoopAccounted` | crates/camodel/src/issue/select/mod.rs:122-166 | the ports and queues the arbiter counts are those of the admitted uops: at most three read ports, one uop per queue |
| `Arbitration.OldestIsAdmitted` | crates/camodel/src/issue/select/mod.rs:52-66 | the oldest attempt always gets through |
| `Arbitration.AttemptsByAge` | crates/camodel/src/issue/select/mod.rs:55-57 | the attempts are the occupants of P1, each once, in the issue queue, oldest first |
| `AdmissionOrder.ArbitrationOnRuns` | crates/camodel/src/issue/select/mod.rs:45-71 | in every cycle of every run: the occupants of P1 are attempted once each by age, each is admitted iff the admitted earlier ones leave its queue and the ports it needs and is otherwise returned, the first always gets through, and at most three ports and one uop per queue are used |
| `AdmissionOrder.AdmittedInOrder` | crates/camodel/src/issue/select/mod.rs:45-71 | in every cycle of every coherent run an occupant of P1 is admitted iff the admitted ones with smaller sequence numbers leave its queue and the ports it needs |
| `LoadGen.DepLoadGenVec` | crates/camodel/src/issue/select/mod.rs:373-376 | the memoised mask equals the union of load stages over the transitive dependence closure |
| `LoadGen.DepLoadGenInner` | crates/camodel/src/issue/select/mod.rs:378-394 | the recursion terminates on backward dependences and stores only final masks |
| `LoadGen.MaskIsClosure` | crates/camodel/src/issue/select/mod.rs:373-416 | a stage bit is in the mask iff some uop reached by a chain of dependences is in that stage |
| `CoherentRuns.CoherentRunSatisfies` | crates/camodel/src/core/engine.rs:51-132 | every state of every coherent run satisfies conservation, commit order, memory order and tag tracking together |
| `CoherentLaws.Conservation` | crates/camodel/src/backend/lsu/mod.rs:15-156 | on every coherent run a fetched, unretired, unfinished uop is in exactly one place and every other in none; finished ones wait in the reorder buffer; P1/I1 hold exactly the entries in flight; LHQ is the loads in E1-E4 and L1D, MDB equals LIQ, STQ is the issued unretired stores |
| `CoherentLaws.CommitRefinement` | crates/camodel/src/control/commit/mod.rs:32-88 | on every coherent run the retired sequence numbers are 0..k-1 and the commit list is the first k records of the functional stream up to cycle and trap fields; the reorder buffer continues at k without gap and holds at most 128 |
| `CoherentLaws.CommitWidth` | crates/camodel/src/control/commit/mod.rs:20-40 | no cycle retires more than four uops and none is taken back |
| `CoherentLaws.PastD1InRob` | crates/camodel/src/frontend/mod.rs:957-980 | everything live past D1 has its slot in the reorder buffer |
| `CoherentLaws.MemoryOrderOnRuns` | crates/camodel/src/issue/select/mod.rs:200-228 | on every coherent run memory uops leave I2, and L1D transactions start, in exact id order and once each, one transaction at a time; the logs say exactly which uops have issued and started, and both pointers stay at or below them |
| `CoherentLaws.LoadsWaitForStores` | crates/camodel/src/backend/lsu/mod.rs:130-196 | while a load is in the L1D every older store has retired and left STQ, SCB and L1D |
| `MemoryRestart.RebaseSafe` | crates/camodel/src/control/recovery/mod.rs:296-314 | rebasing sets neither pointer above the least id not yet issued, or not yet completed |
| `MemoryRestart.RebaseIssue` | crates/camodel/src/control/recovery/mod.rs:518-564 | the least id among the surviving unissued uops is at most the number issued |
| `MemoryRestart.RebaseCache` | crates/camodel/src/control/recovery/mod.rs:530-602 | the least active id plus the open transaction is at most the number of transactions started |
| `MemoryRestart.FlushPrunesNothing` | crates/camodel/src/control/recovery/mod.rs:149-231 | on coherent runs a flush removes no uop from any place |
| `MemoryOrder.I2Memory` | crates/camodel/src/issue/select/mod.rs:200-228 | the I2 loop keeps issue order, L1D order and the owner queues |
| `MemorySteps.ExecuteMemory` | crates/camodel/src/backend/lsu/mod.rs:15-94 | E4 with its injected misses keeps them too |
| `MemorySteps.DrainMemory` | crates/camodel/src/backend/lsu/mod.rs:178-196 | a store that starts draining carries the next id |
| `MemorySteps.RetireMemory` | crates/camodel/src/control/commit/mod.rs:76-88 | retirement moves a store from STQ to SCB and keeps the order |
| `Conserve.ScheduleConserve` | crates/camodel/src/control/recovery/mod.rs:233-277 | the source of a coherent redirect is the youngest uop fetched, so the flush it plans finds nothing younger |
| `Conserve.RestartConserve` | crates/camodel/src/frontend/mod.rs:800-839 | fetch stops behind an unresolved redirect: at most the youngest fetched uop is one |
| `Tracking.CapturedIsTracked` | crates/camodel/src/issue/queues/mod.rs:114-150 | where the tracking invariant holds, a source is tracked iff it is no queue source or captured a tag |
| `Engine.CycleEngine.Run` | crates/camodel/src/core/engine.rs:51-132 | the loop over cycles performs a run; on a coherent run it returns a prefix of the functional commit stream |
| `StreamRuns.FollowingRunsAreCoherent` | crates/camodel/src/control/recovery/mod.rs:233-277 | a run is coherent whenever every redirecting uop is followed by a block start at its target and each cycle redirects, if at all, to the target of the boundary that resolves in it |
| `StreamRuns.ChosenRunsAreCoherent` | crates/camodel/src/core/engine.rs:51-132 | whatever faults, checkpoints and redirects are chosen cycle by cycle, the run over such a list is coherent, so that every law of coherent runs holds of it without a hypothesis about the run |
| `StreamRuns.ChosenRun` | crates/camodel/src/core/engine.rs:51-132 | such a run exists for all choices and every length |
| `Program.ChosenCommits` | crates/camodel/src/control/commit/mod.rs:32-88 | for every stream in which a block start follows each redirecting commit at its next pc, the commit list is a prefix of the stream in every state of every chosen run |
| `Program.RunStream` | crates/camodel/src/core/engine.rs:10-132 | building and running such a stream returns a prefix of it, up to cycle and trap fields |
| `Program.CommitsStream` | crates/camodel/src/control/commit/mod.rs:32-88 | in every state of every coherent run over a built list the commit list is a prefix of the very stream the list was built from, up to cycle and trap fields |
| `Program.RunProgram` | crates/camodel/src/core/engine.rs:10-132 | building and running composed: the list is the described one, the loop performs a run over it, and on a coherent run a prefix of the stream is returned |
| `Engine.CycleEngine.Cycle` | crates/camodel/src/core/engine.rs:52-123 | one pass through the loop is one step, with both early exits |
| `Engine.CycleEngine.FillFetch` | crates/camodel/src/frontend/mod.rs:800-839 | restart, barrier scan and fetch loop compute the specified fetch |
| `Engine.CycleEngine.TagStageCycles` | crates/camodel/src/trace/mod.rs:25-58 | four in-place passes, each field set once, equal the per-uop definition by stage membership |
| `Engine.CycleEngine.UpdateIqEntries` | crates/camodel/src/issue/queues/mod.rs:173-190 | in-place revoke, ready-table and event passes |
| `Engine.CycleEngine.Publish` | crates/camodel/src/issue/queues/mod.rs:335-373 | one event through crossbar, owner table and broadcast |
| `Engine.RebuildOwnerTable` | crates/camodel/src/issue/queues/mod.rs:464-480 | the rebuilt table is the specified one |
| `Tags.RebuildExact` | crates/camodel/src/issue/queues/mod.rs:464-491 | a rebuilt owner table is the exact inverse of the tags |
| `Engine.CycleEngine.RetireReady` | crates/camodel/src/control/commit/mod.rs:20-90 | the pop loop, its width limit, trap and store hand-over |
| `Engine.CycleEngine.ScheduleRedirect` | crates/camodel/src/control/recovery/mod.rs:233-277 | boundary scan, restart lookup and the two pending fields |
| `Engine.CycleEngine.LegalRestart` | crates/camodel/src/decode/mod.rs:278-289 | first legal restart point with the target pc after the source |
| `Engine.CycleEngine.ApplyPendingFlush` | crates/camodel/src/control/recovery/mod.rs:316-335 | restore, prune, rebuild and rebase in order |
| `Engine.CycleEngine.AdvanceExecute` | crates/camodel/src/backend/lsu/mod.rs:15-94 | writeback, E4, stage moves and E1 in place |
| `Engine.CycleEngine.AdvanceL1d` | crates/camodel/src/backend/lsu/mod.rs:130-156 | completion of L1D transactions |
| `Engine.CycleEngine.AdvanceLiq` | crates/camodel/src/backend/lsu/mod.rs:96-128 | replay of the oldest eligible refill |
| `Engine.CycleEngine.AdvanceScb` | crates/camodel/src/backend/lsu/mod.rs:178-196 | the drain loop starts at most one store, the first ready one |
| `Engine.CycleEngine.AdvanceI1ToI2` | crates/camodel/src/issue/select/mod.rs:241-274 | moves to I2 and removes the entries, tags and waits of what moved |
| `Engine.CycleEngine.ArbitrateI1` | crates/camodel/src/issue/select/mod.rs:45-71 | the arbitration loop |
| `Engine.CycleEngine.AdvanceI2` | crates/camodel/src/issue/select/mod.rs:200-228 | the issue loop |
| `Engine.CycleEngine.PickFromIq` | crates/camodel/src/issue/select/mod.rs:276-299 | the pick loop |
| `Engine.CycleEngine.Dispatch` | crates/camodel/src/frontend/mod.rs:841-955 | dispatch into issue queues and bypass |
| `Engine.CycleEngine.AdvanceFrontend` | crates/camodel/src/frontend/mod.rs:957-980 | stage moves, last first, with slot allocation on leaving D1 |
| `Engine.AdvanceSimple` | crates/camodel/src/backend/lsu/mod.rs:250-257 | moves exactly as many from the front as fit |
| `Lsu.LiqPick` | crates/camodel/src/backend/lsu/mod.rs:109-118 | the chosen refill is eligible and minimal in age; none is chosen only if none is eligible |
| `Decode.BuildUops` | crates/camodel/src/decode/mod.rs:7-126 | for every commit stream: an ordinary source depends on the latest earlier writer of its register, a resolved t#k or u#k on the k-th most recent push through that push's tag, tags count pushes, ids count memory uops; the list ends with the shorter input |
| `Decode.SourceUnique` | crates/camodel/src/decode/mod.rs:26-57 | the description of a source leaves only one possible source |
| `Decode.HistoryFromEnd` | crates/camodel/src/decode/mod.rs:368-381 | indexing the history from its end finds the k-th most recent push |
| `Decode.ProducerOfResolved` | crates/camodel/src/decode/mod.rs:383-398 | looking a resolved tag up again finds the same entry |
| `Decode.TagDeterminesPush` | crates/camodel/src/decode/mod.rs:342-366 | logical tags are unique |
| `Decode.BuiltIsWellFormed` | crates/camodel/src/decode/mod.rs:78-125 | every built list has what the pipeline theorems assume: backward dependences, resolved and unique tags, dense ids, redirects only on boundaries |
| `GuestMemory.ReadAgrees` | crates/runtime/src/lib.rs:133-177 | a successful read agrees with the flat map in bytes and permissions; a nonempty range is readable iff one region holds it with the permissions |
| `GuestMemory.WriteAgrees` | crates/runtime/src/lib.rs:150-193 | a successful write changes exactly the bytes of its range |
| `GuestMemory.IsRangeMapped` | crates/runtime/src/lib.rs:323-348 | true iff the range is nonempty, does not overflow and every byte of it is covered |
| `GuestMemory.RemapAgrees` | crates/runtime/src/lib.rs:362-391 | cutting and sorting changes permissions of, or removes, exactly the mapped bytes of the range, and keeps regions disjoint and filled |
| `GuestMemory.PiecesFlat` | crates/runtime/src/lib.rs:761-770 | the pieces of one region show the same bytes |
| `GuestMemory.Memory.ProtectRange` | crates/runtime/src/lib.rs:350-356 | succeeds iff the range is mapped; then changes only permissions inside it |
| `GuestMemory.Memory.UnmapRange` | crates/runtime/src/lib.rs:358-360 | removes exactly the range |
| `GuestMemory.Memory.RemapRange` | crates/runtime/src/lib.rs:362-391 | the loop over regions computes the remapping |
| `GuestMemory.Memory.Write` | crates/runtime/src/lib.rs:179-193 | in-place write against the flat map |
| `AddressSpace.Space.Mmap` | crates/funcmodel/src/exec/mod.rs:686-702 | without a hint: page-aligned, zeroed, nothing was mapped there before, nothing else changes, layout kept; the exact new region |
| `AddressSpace.Space.Munmap` | crates/funcmodel/src/exec/mod.rs:1838-1847 | the error condition, exact removal, layout kept |
| `AddressSpace.Space.Mprotect` | crates/funcmodel/src/exec/mod.rs:1848-1862 | succeeds iff aligned and mapped, exact effect, layout kept |
| `AddressSpace.Space.GrowBrk` | crates/funcmodel/src/exec/mod.rs:658-684 | layout kept while the heap stays within its page |
| `AddressSpace.GrowDisjoint` | crates/funcmodel/src/exec/mod.rs:658-684 | for every target, brk keeps regions disjoint iff the heap's new extent meets no other region |
| `AddressSpace.GrowMeetsMapping` | crates/funcmodel/src/exec/mod.rs:658-684 | growing the heap to two pages overlaps a mapping that starts one page above its base |
| `AddressSpace.BrkMeetsMmap` | crates/funcmodel/src/exec/mod.rs:658-702 | from every initial layout, mmap of one page followed by brk two pages up leaves overlapping regions |
| `AddressSpace.GrowFlat` | crates/funcmodel/src/exec/mod.rs:658-684 | kept bytes, zeroed new bytes, given-up bytes gone, the rest unchanged |
| `Bytes.LeRoundTrip` | crates/runtime/src/lib.rs:225-228 | a word survives writing and reading |
| `Bytes.CStringReads` | crates/runtime/src/lib.rs:291-301 | a stored NUL-free string reads back whole |
| `Bytes.StoredReads` | crates/runtime/src/lib.rs:167-171 | stored bytes are what a read returns and what the flat map shows |
| `BootStack.InitializeUserStack` | crates/runtime/src/lib.rs:650-728 | on success SP is 16-aligned inside the stack, the frame words, strings, random bytes, platform and program name are stored back to back without overlap |
| `BootStack.PushStrings` | crates/runtime/src/lib.rs:668-678 | pointers and strings in order, packed, earlier objects kept |
| `BootStack.WalkCounters` | crates/runtime/src/lib.rs:700-709 | walking from SP finds argc and both NULL words |
| `BootStack.WalkArguments` | crates/runtime/src/lib.rs:674-678 | and every argument through its pointer |
| `BootStack.WalkEnvironment` | crates/runtime/src/lib.rs:668-672 | and every environment string |
| `BootStack.WalkAuxv` | crates/runtime/src/lib.rs:680-709 | and every auxiliary pair |
| `BootStack.AuxObjects` | crates/runtime/src/lib.rs:660-666 | the pointers among the pairs lead to platform name, random bytes and program name |
| `Frames.StopsExactly` | crates/funcmodel/src/exec/mod.rs:2026-2040 | the register loop meets its end iff begin equals end, end is in 2..23, or the range is 0..1 |
| `Frames.WrappedRegSequence` | crates/funcmodel/src/exec/mod.rs:2026-2040 | the loop terminates on those ranges and yields the specified sequence |
| `Frames.RegSeqNoRepeat` | crates/funcmodel/src/exec/mod.rs:2026-2040 | its registers are distinct |
| `Frames.FrameRoundTrip` | crates/funcmodel/src/exec/mod.rs:1943-1992 | after a successful FENTRY and anything that leaves SP and the frame bytes alone, FEXIT succeeds, restores SP and every saved register and touches no other |
| `Frames.ReturnsToCaller` | crates/funcmodel/src/exec/mod.rs:1994-2024 | FRET.STK jumps to the RA of FENTRY when RA is in the range; FRET.RA to the RA before the restore |
| `Frames.Machine.EnterFrame` | crates/funcmodel/src/exec/mod.rs:1943-1969 | the save loop, its error exits and the new SP |
| `Frames.Machine.LeaveFrame` | crates/funcmodel/src/exec/mod.rs:1971-1992 | the restore loop and the wrapped SP |
| `FuncRun.RunLoop` | crates/funcmodel/src/exec/mod.rs:324-395 | the run loop terminates although closing a block costs no step, and computes the specified run, with the step written to its system register on every pass |
| `FuncRun.RunCounts` | crates/funcmodel/src/exec/mod.rs:324-395 | at most `max_steps` commits; as many decoded instructions except on a final decode fault; a step-limit exit commits exactly that many |
| `FuncRun.RunChained` | crates/funcmodel/src/exec/mod.rs:344-391 | each commit carries its step number, and its pc is the previous next pc, or the target of the block closed there |
| `FdTable.EverySequence` | crates/funcmodel/src/exec/mod.rs:523-645 | after every sequence of system calls the tables have the same keys, special fds and registrations name open fds, no epoll is registered, each host descriptor has one owner, and an eventfd's pipe holds one byte iff its counter is nonzero |
| `FdTable.StepKeeps` | crates/funcmodel/src/exec/mod.rs:2568-2739 | every call keeps that |
| `FdTable.OneOwnerEach` | crates/funcmodel/src/exec/mod.rs:535-541 | no host descriptor occurs twice in the tables, and the open ones are exactly those that occur |
| `FdTable.ReleaseClosesOpen` | crates/funcmodel/src/exec/mod.rs:605-629 | a release closes only descriptors open at that moment |
| `FdTable.UnusedFd` | crates/funcmodel/src/exec/mod.rs:527-533 | a free fd has no registration and releasing it changes nothing |
| `FdTable.FreeFrom` | crates/funcmodel/src/exec/mod.rs:527-533 | the least free fd from the start |
| `FdTable.Descriptors.AllocGuestFdFrom` | crates/funcmodel/src/exec/mod.rs:527-533 | the search loop terminates and finds it |
| `FdTable.Descriptors.ReleaseGuestFd` | crates/funcmodel/src/exec/mod.rs:605-629 | in-place release, never closing a closed descriptor |
| `FdTable.Descriptors.InsertGuestFd` | crates/funcmodel/src/exec/mod.rs:535-541 | release of the target, then insertion |
| `FdTable.Descriptors.CloseGuestFd` | crates/funcmodel/src/exec/mod.rs:631-637 | EBADF or release |
| `FdTable.Descriptors.DuplicateTo` | crates/funcmodel/src/exec/mod.rs:564-585 | the three error cases and the duplicate |
| `FdTable.Descriptors.WriteEventFd` | crates/funcmodel/src/exec/mod.rs:2601-2628 | counter, overflow and wake-up byte |
| `FdTable.Descriptors.ReadEventFd` | crates/funcmodel/src/exec/mod.rs:2630-2660 | counter, semaphore mode and byte, also when the buffer faults |

## Assumptions

- Uop lists are well formed (`WellFormed.WellFormedCode`); `Decode.BuiltIsWellFormed` proves this of every
  list the builder makes, given that no memory instruction bypasses the issue queues. The instruction
  table (`crates/isa/data/linxisa-v0.4.json`) gives no memory access to the bypassing BBD and SETRET forms.
- Cycle numbers do not reach 2^64 - 1, where the absent-stamp sentinel of the program would read as ready.
- Mmap requires that the address space is not exhausted; the program would overflow there.
- Regions at start are nonempty, disjoint and filled; words handed to the stack builder are 64-bit values.
- The host hands out descriptors that are not open, and one-byte pipe operations succeed.

## Left out

- EveryRun.ReadinessOnRuns: exact for tracked sources only, because outside coherent runs a uop that is fetched again keeps its old tag, and a consumer dispatched past it while it is stalled in S2 captures that stale tag; `Wakeup.WakesIffTracked` gives the exact condition and `StaleRun.StaleCaptureIsLost` a run on which it fails.
- AddressSpace.Space.GrowBrk: promises the layout only while the heap stays within its page, because beyond it the program checks no overlap; `AddressSpace.GrowDisjoint` gives the exact condition for every target and `AddressSpace.BrkMeetsMmap` the failing sequence of calls.
- AddressSpace.Space.Mmap: requires that the cursor stays below 2^64, where the program's addition would overflow.
- Engine.CycleEngine.FillFetch: leaves out packet checkpoint ids, which no modelled step reads.
- Engine.CycleEngine.Dispatch: leaves out epoch, branch-context and dynamic-target updates; what they decide is an input of a cycle.
- Engine.CycleEngine.ScheduleRedirect: leaves out the clearing of the branch correction it used; corrections are inputs of a cycle.
- Engine.CycleEngine.ApplyPendingFlush: leaves out pruning of the per-sequence branch maps, for the same reason.
- Bytes.CStringReads: stops at the bytes; the conversion to text is left out.
- FdTable.Descriptors.DuplicateTo: a failing host dup is left out, as are other host errors.
- FdTable.Descriptors.WriteEventFd: a failing one-byte write to the host pipe is left out.
- Frames.Machine.LeaveFrame: a slot address below zero counts as a failed read, where the program would overflow.
- Progress of the pipeline: a replayed load can wait behind a younger one in E4, a rebase may count a finished load as unissued, and a queue source without captured tag gets no event; only safety is claimed.
- That nothing younger retires with a trap: the retire loop goes on after attaching one.
- The branch-context, call-header and dynamic-target bookkeeping that decides redirects and faults; its decisions are inputs of a cycle. `BranchTargets` models the part that gives targets and dynamic-target faults, without BRU corrections, call headers and the restore at a flush, for the run of `StaleRun` only.
- The port recheck inside dispatch, which can never fail after routing, and the `visible_cycle` of traps.
- Epochs, packet and checkpoint ids (`block_epoch_for_seq`, `checkpoint_id_for_seq`), which no modelled step reads; the checkpoint a redirect restores is an input.
- Store-to-load forwarding visibility, which only labels trace events.
- Trace events, label strings and trace files: output formatting.
- Mnemonic and assembly-text classification: class, boundary kind and queue operands are given fields.
- Instruction decoding and the arithmetic arms of execution: the run loop takes them as given functions.
- mmap with an address hint, which checks no overlap.
- Host errors of read, write, dup and open, and the poll call itself; what the host returns is an input.
- `read_u64_bundle` and `fetch_u64_bundle`, ELF loading, configuration, `cosim`, `dse` and the tools.
