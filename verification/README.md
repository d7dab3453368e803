# Light ROCm runtime: a verified model

This project models the concurrent core of the Light ROCm runtime in Dafny 4.11 and proves
what its queues, events, copies, schedulers and bundle manifests promise. `dafny verify
dfyconfig.toml` checks everything.

## What is modelled

- **HSA backend** (`Hsa*.dfy`): queues, events, launches, records, asynchronous copies, queue
  and device synchronization and queue destruction as one state machine. Every lock-protected
  section is a step, every wait that drops its locks splits a call into several steps, and
  the packet processor runs between any two steps. `HsaState` and `HsaSteps` define the
  machine, `HsaInvariant` its invariant, the `*Steps` modules and `HsaAccounting` prove that
  each step keeps it, and `HsaTheorems`, `HsaSafety`, `HsaDeviceSync` and `HsaStranded` state
  the results for every run. `HsaOrder` and `HsaCopyOrder` say what launches, copies and
  records wait for, in terms of the arguments of the call. `HsaRuntime` and `HsaSubmit` hold the loops of the source as
  methods on mutable state; each reaches its result by machine steps only, with the hardware
  free to progress at every signal load.
- **Event handoff** (`EventHandoff.dfy`): the same launches at the level of single lock
  acquisitions, pins and waits.
- **AQL producer** (`AqlPackets.dfy`, `AqlRing.dfy`): packet building, validation and layout,
  and the ring written store by store under a concurrent reader.
- **hsakmt backend** (`Hsakmt*.dfy`): completion signals borrowed from events. `Hsakmt` and
  `HsakmtOps` define hardware and host operations and the invariant they keep, `HsakmtRuns`
  and `HsakmtOrder` state the results for every run, and `HsakmtRuntime` holds the loops and waits as methods
  whose states are always states of a run.
- **Direct KFD backend** (`KfdState.dfy`, `Kfd.dfy`, `StagedCopy.dfy`): kernarg arenas, dispatch
  pool, submission undo, borrowed completion signals under in-order hardware, reaps and event
  waits; the byte-copy kernel under every interleaving and the staged copies.
- **Memory** (`MemoryPins.dfy`, `HsaFree.dfy`): pins, asynchronous copies and frees, and a free
  running beside the HSA machine.
- **Resident Qwen graph** (`TaskMasks.dfy`, `QwenTasks.dfy`, `TaskGraph.dfy`,
  `TaskProgress.dfy`, `QwenPrograms.dfy`, `ProgramValidation.dfy`, `DecoderValidation.dfy`,
  `QwenDataFlow.dfy`, `Top1.dfy`, `TokenAgreement.dfy`): dependency masks, the scheduler and its
  progress, the decoder programs, what they cover and where their data comes from, validation, greedy sampling, and both together. `ResidentGraph.dfy`
  and `ResidentProgress.dfy` run whole graphs across programs and generations;
  `HostDecode.dfy`, `ResidentDecode.dfy` and `DecodeAgreement.dfy` compare a whole decode with
  the host's launch loops.
- **Bundle manifests** (`Manifest*.dfy`): the parser, its cursor loops, the writer, the round
  trip, which kernels are accepted, and where parsed arguments lie.
- `Common.dfy`, `Bits.dfy` and `Strides.dfy` hold what several of these share.

## Findings

- *Stranded barriers (HSA).* A completion signal can go back to the pool, re-armed, while a
  barrier that retires on it is still listed: when its dispatch completes between the two
  passes of `reap_completed_queue_work_locked`, when the last waiter leaves a deferred
  dispatch, and when a launch fails after publishing barriers (in the code: only for a zero
  kernel object, `src/aql_producer.cpp:165`, since geometry is checked before and the ring is
  never full). The barrier then looks unfinished until a later launch happens to reuse the
  signal. Everything stays safe, but a queue destruction that drains the queue does not end,
  unless stranded barriers fill the queue: then it fails (`HsaStranded.GivesUpIff`).
  `HsaStranded.StrandsIff` gives the exact condition over every step of every run; for the reap
  it is the guard that the other two backends test (`src/queue.cpp:1112-1121`,
  `src/queue.cpp:1384-1391`). `HsaStranded.StrandedByReap`, `StrandedByWait`,
  `StrandedByFailure` and `DoomedReachable` give the runs.
- *Undo of a failed submission (hsakmt, KFD).* The undo is exact for barriers, counts, lists
  and saved event fields, but stores zero into the completion event's signal. A fresh event,
  whose signal is created as one, is not restored. The contracts of
  `HsakmtRuntime.Runtime.Submit` and `Kfd.Queue.Submit` state the exact condition, and the two
  `RefusedFreshSubmission` methods the input.
- *Reap without room in the pool (KFD).* `src/queue.cpp:1392-1403` detaches completed
  dispatches from their events before it makes room for them. If that fails they stay listed,
  and a completed dispatch reads as completed if and only if it had not borrowed an event's
  signal. One that had and is in front stops every later reap, because the condition for
  reaping never holds again (`Kfd.Queue.Reap`, with the run in `Kfd.ReapWithoutRoom`).
- *Event finished while borrowed (KFD).* The KFD backend finishes events in a pass after the
  dispatches (`src/queue.cpp:1488-1496`). A dispatch that completes in between stays pending
  while the event it borrows becomes idle; arming that event again hides the dispatch's
  completion. `Kfd.Queue.ReapEvents` and `Kfd.Queue.Submit` give the exact conditions,
  `Kfd.FinishedWhileBorrowed` the run. `src/event.cpp:614-630` reaps after it has waited for the
  event and is not affected, except behind a jammed dispatch (`Kfd.WaitBehindJam`).
- *Wrapping range check (manifests).* `src/bundle.cpp:580-581` adds offset and size in 64 bits.
  It keeps every argument inside its kernarg block if and only if the block has at most 2^63
  bytes (`ManifestArguments.AllInsideIff`); `ManifestArguments.OverrunParses` gives an accepted
  manifest for every larger size.
- *Record on the default queue (HSA).* Its barriers retire on the event's own signal, which is
  still zero from the previous recording when they are registered. This is safe only because
  the queue lock is held until the marker re-arms the signal; the machine models that lock.

## Modelling decisions

- Signals, the packet processor and device memory are abstract state. A signal moves from the
  value it was armed with to zero. Packet and dispatch ids are unbounded, because the
  source's indices are 64-bit and never wrap in practice.
- Interference by hardware and other threads inside a method is an oracle value fixed on
  construction (`hardware`, `gpu`), over which every contract is quantified.
- In `HsaRuntime.Runtime.ReapCompletedDispatches` the completed prefix is erased one entry at
  a time rather than once after the loop; no lock is dropped in between.
- The hsakmt and KFD backends hold one lock during submission bookkeeping, so staging and undo
  are atomic with respect to other threads; the hardware still progresses at signal loads.
- A wait for a signal that the hardware never clears is a failed wait, as a timeout would be.
- An hsakmt event keeps no list of the queues that depend on it: the queue to synchronize is
  found in the barrier lists, which is what that list repeats.
- A failed copy launch may leave the kernel at any point of its run.
- A task of the resident graph computes each cell it writes from a fixed set of cells; the
  arithmetic is an arbitrary function of those, so floating-point rounding does not matter. A
  cell that a task both reads and writes is loaded before it is stored, as in the kernels.
  Reads of state that the same task has just stored behind a block barrier are modelled as
  functions of the values before it starts.
- Every task reads the step, which selects the layer's weights and caches. In the resident
  graph a worker may act on any phase word published so far, also where the source checks
  that the word has not changed. Control words are unbounded; the step stays below its 32-bit
  bound. The host's stages run their tasks in index order, which by
  `QwenPrograms.DecoderWellFormed` is what any order leaves.
- Logits are ordered as floats without NaN, with both infinities.
- Parser errors carry no message. Sizes are bounded at 64 bits, and the range check of an
  argument wraps as it does there.

## Model

| member | source | states |
|---|---|---|
| `HsaTheorems.DispatchOrder` | src/queue.cpp:585-636 | In every run, a dispatch that the packet processor has taken or may take next has every event recording its packet awaits completed: for any number of dependencies, cut into packets of five, and also for those left out because an earlier barrier on the queue names them. `HsaOrder` says which recordings these are. |
| `HsaOrder.LaunchWaits` | src/launch.cpp:1052-1231 | For every list a caller passes to a launch on a queue: over every run from the collection to the publication and on, with any steps of other threads and the hardware in between, the dispatch is taken or next to be taken only when the recording each event of that list had at the call has completed; it carries the barrier bit if any of them was still unfinished. |
| `HsaOrder.DefaultLaunchWaits` | src/queue.cpp:497-583 | The same for a launch on the default queue; one with implicit dependencies also waits for every asynchronous copy that was pending at the call. |
| `HsaCopyOrder.CopyWaits` | src/memory.cpp:1594-1624 | From the submission of an asynchronous copy on, over every run: the copy finishes only after the recording each of its dependencies had at the call has completed, and until then every dependency keeps that recording, stays counted and cannot be re-armed. |
| `HsaCopyOrder.MarkerWaits` | src/event.cpp:950-1003 | From a record call on, over every run: the recording completes only after every packet on the queue before its marker and, on the default queue, after every asynchronous copy that was pending at the call. |
| `HsaTheorems.TakenAfterDependencies` | src/queue.cpp:585-636 | The same for one queue from its packet log: the barrier bit and the five-signal packets together hold the dispatch back for every awaited recording. |
| `HsaTheorems.FinishedMeansZero` | src/event.cpp:171-180 | Over any step of any run, a recording joins an event's completed history exactly when that step takes its signal to zero while it is current; history and signal never disagree. |
| `HsaTheorems.SignalIsHistory` | src/event.cpp:974-988 | The signal of a recorded event is zero exactly when its current recording has completed, and all earlier recordings have completed. |
| `HsaTheorems.RingNeverOverfull` | src/queue.cpp:386-396 | In every run the packets outstanding in the ring never exceed the pending packets the runtime counts. |
| `HsaTheorems.OutstandingCounted` | src/queue.cpp:386-389 | Every packet from the read index on is covered by a counted dispatch, barrier, marker or synchronization entry. |
| `HsaTheorems.PublishNeverFull` | src/aql_producer.cpp:85-94 | Whenever any step of any run publishes a packet, the ring has a free slot: a submission never finds the queue full. |
| `HsaSafety.EventRearmSafe` | src/event.cpp:912-1003 | An event is re-armed (record or asynchronous copy) only when nothing refers to it: no launch in flight, no record in progress, no waiting thread, no pending copy, no pending barrier and no unfinished packet on any queue. |
| `HsaSafety.UnfinishedStays` | src/event.cpp:912-1003 | A recording that has not completed stays the current one, and its event pending, over every step. |
| `HsaSafety.LaunchStable` | src/launch.cpp:1052-1121 | From collection to publication a launch keeps its queue, its dependencies and the recordings it awaits, whatever other threads do. |
| `HsaSafety.NeedShrinks` | src/queue.cpp:585-654 | The barrier packets a launch still needs never grow, over any step of any other thread, even while it waits for capacity with no lock held. |
| `HsaSafety.ReservationCovers` | src/launch.cpp:1092-1121 | What the capacity gate reserved covers every packet left to publish, so the local re-check cannot fail. |
| `HsaSafety.ActiveDrops` | src/queue.cpp:106-119 | A queue drops its last reference to an event only after that recording has completed. |
| `HsaSafety.PooledIsUnused` | src/queue.cpp:305-350 | A pooled completion signal is armed and used by no waiter, no unfinished barrier packet, no dispatch and no launch. |
| `HsaSafety.RearmedIntoPool` | src/queue.cpp:305-350 | A completion signal that goes from zero to one went into the pool in that step. |
| `HsaSafety.SignalRearmSafe` | src/queue.cpp:414-448 | A completion signal is re-armed only when no progress waiter and no unfinished synchronization packet names it. |
| `HsaSafety.ResourcesConserved` | src/queue.cpp:260-284 | Every completion signal and every kernarg buffer is in exactly one of pool, pending list, deferred list and a launch in flight. |
| `HsaSafety.CompletedIsPrefix` | src/queue.cpp:305-350 | On every queue the completed pending dispatches form a prefix of the pending list. |
| `HsaSafety.CountsAgree` | src/event.cpp:52-69 | An event's count for a queue, the queue's active-dependency count and the occurrences in its pending barriers are equal, and the total is their sum plus the pending asynchronous copies that list the event. |
| `HsaSafety.DestroySafe` | src/queue.cpp:949-967 | When a queue is destroyed no launch, waiter or synchronizer is left on it, all its packets have completed, nothing is deferred, and no event records it or lists it as a dependency queue. |
| `HsaDeviceSync.DeviceSynchronized` | src/device_synchronization.cpp:31-129 | If device synchronization returns success, every recording pending on entry has completed, and on every queue so has every dispatch published by the time the call reached that queue, although all locks are dropped in between. |
| `HsaDeviceSync.SyncSignalZero` | src/queue.cpp:704-825 | The shared signal armed with the packet count is zero exactly when every packet that decrements it has completed and none is left to publish. |
| `HsaDeviceSync.SyncDependenciesDone` | src/queue.cpp:769-806 | In every run, a zero shared signal means that every packet up to each of its own has completed, so every dispatch these name, and that every event they still retain has completed its current recording. |
| `HsaDeviceSync.PromiseDelivered` | src/queue.cpp:878-904 | Once that signal is zero, everything published on the queue before the synchronization has completed. |
| `HsaDeviceSync.WaitEndsFinished` | src/device_synchronization.cpp:78-118 | While an event wait is registered its recording stays current, and ending the wait means the recording completed. |
| `HsaDeviceSync.StepStaysTracked` | src/device_synchronization.cpp:31-76 | No step of another thread makes a synchronization in progress lose track of an entry it must wait for. |
| `HsaStranded.StrandsIff` | src/queue.cpp:286-463 | Over every step of every run, a barrier becomes stranded if and only if the step puts a signal back into the pool that a pending barrier retires on: the reap of a front dispatch nobody waits for, the end of the last wait for a deferred dispatch, or the failure of a launch. |
| `HsaStranded.StrandedByReap` | src/queue.cpp:378-385 | A run in which the dispatch completes between the barrier pass and the dispatch pass: the reap strands its barrier, with every packet completed and nothing left to reap. |
| `HsaStranded.StrandedByWait` | src/queue.cpp:418-463 | A run in which the last waiter leaves a deferred dispatch and strands its barrier. |
| `HsaStranded.StrandedByFailure` | src/launch.cpp:1189-1205 | A run in which a launch gives up after its barrier is published and strands it. Geometry is checked first and the ring is never full, so the code gets there only when the dispatch is refused for a zero kernel object (`src/aql_producer.cpp:165`). |
| `HsaStranded.DestroyNeverFinishes` | src/queue.cpp:170-208 | If a queue is pinned for destruction while a barrier is stranded, no continuation of the run ever destroys the queue, unless the call gives up first because its marker finds the queue full. |
| `HsaStranded.GivesUpIff` | src/queue.cpp:926-933 | It can give up exactly if barriers alone fill the queue; the queue is then live again with the barrier still stranded. |
| `HsaStranded.DoomedReachable` | src/queue.cpp:906-938 | Such a state is reachable. |
| `HsaRuns.ReachableGood` | src/queue.cpp:286-385 | The invariant of the whole machine holds in every state of every run. |
| `HsaRuns.KeepStep` | src/launch.cpp:1052-1231 | Every step of every thread and of the hardware keeps the invariant. |
| `HsaDeviceSteps.KeepGpuTake` | src/aql_producer.cpp:60-71 | The packet processor taking the next packet keeps the invariant. |
| `HsaDeviceSteps.KeepGpuComplete` | src/aql_producer.cpp:121-180 | A packet completing, with the event, dispatch or synchronization signal it decrements, keeps the invariant. |
| `HsaReapSteps.KeepReapBarrier` | src/queue.cpp:286-303 | Retiring a barrier and releasing its event references keeps the invariant. |
| `HsaReapSteps.KeepReapDispatch` | src/queue.cpp:305-350 | Retiring the front dispatch into the pool or the deferred list keeps the invariant. |
| `HsaWaitSteps.KeepFinishEvent` | src/event.cpp:91-169 | Finishing a completed event, with the barriers it retires and the references it drops, keeps the invariant. |
| `HsaWaitSteps.KeepWaitBegin` | src/queue.cpp:398-417 | Registering a progress waiter before dropping the locks keeps the invariant. |
| `HsaWaitSteps.KeepWaitEnd` | src/queue.cpp:418-463 | Ending the wait, with the deferred signals that become reusable, keeps the invariant. |
| `HsaLaunchSteps.KeepLaunchCollect` | src/launch.cpp:1052-1086 | Collecting explicit dependencies keeps the invariant; what the launch then waits for is `HsaOrder.LaunchWaits`. |
| `HsaLaunchSteps.KeepDefaultCollect` | src/queue.cpp:497-583 | Collecting dependencies on the default queue, explicit or implicit, keeps the invariant; what the launch then waits for is `HsaOrder.DefaultLaunchWaits`. |
| `HsaLaunchSteps.KeepLaunchGate` | src/launch.cpp:1092-1121 | The capacity gate, with or without waiting, keeps the invariant. |
| `HsaLaunchSteps.KeepLaunchScan` | src/queue.cpp:585-606 | Leaving out a dependency that has completed or is already named keeps the invariant. |
| `HsaLaunchSteps.KeepLaunchBarrier` | src/queue.cpp:607-636 | Publishing and registering one barrier packet keeps the invariant. |
| `HsaLaunchSteps.KeepLaunchDispatch` | src/launch.cpp:1206-1230 | Publishing the dispatch keeps the invariant. |
| `HsaRecordSteps.KeepRecordMarker` | src/event.cpp:974-1003 | Re-arming the event and publishing its marker keeps the invariant; what the marker waits for is `HsaCopyOrder.MarkerWaits`. |
| `HsaRecordSteps.KeepCopySubmit` | src/memory.cpp:1553-1625 | Arming an event for an asynchronous copy and listing its dependencies keeps the invariant; what the copy waits for is `HsaCopyOrder.CopyWaits`. |
| `HsaSyncSteps.KeepSyncBarrier` | src/queue.cpp:769-806 | Publishing one packet of a queue synchronization keeps the invariant. |
| `HsaSyncSteps.KeepTailMarker` | src/queue.cpp:827-876 | The tail marker of a queue destruction keeps the invariant. |
| `HsaSyncSteps.KeepDestroyFinish` | src/queue.cpp:949-967 | Destroying the queue keeps the invariant. |
| `HsaRuntime.Runtime.ReapCompletedBarriers` | src/queue.cpp:286-303 | The swap-remove loop reaches its new state by machine steps only; no barrier whose retirement signal was zero on entry is left, whatever completes meanwhile. |
| `HsaRuntime.Runtime.ReapCompletedDispatches` | src/queue.cpp:305-342 | The front loop leaves a suffix of the pending list and, unless a synchronization stops it, no dispatch that had completed on entry. |
| `HsaRuntime.Runtime.FinishEventWait` | src/event.cpp:91-169 | Finishing a completed event by machine steps: afterwards it is idle and off its queue's list, no barrier retires on its signal, and every event it depended on has lost one reference per occurrence. |
| `HsaRuntime.Runtime.ReapCompletedEvents` | src/queue.cpp:360-376 | Every event of the queue that had completed on entry is finished. |
| `HsaRuntime.Runtime.ReapCompletedQueueWork` | src/queue.cpp:378-384 | The three passes in order, by machine steps: no barrier whose retirement signal was zero on entry is left, the dispatches left are a suffix that had not completed on entry unless an unfinished synchronization names its front, and no event that had completed on entry is pending. |
| `HsaSubmit.CollectDependencies` | src/event.cpp:315-345 | The loop over the caller's list, with the hardware running between its signal loads, accepts it exactly if its events are distinct and recorded before; the launch it begins awaits the recording of every event of the list and carries those it did not see finished. |
| `HsaSubmit.ScanDependencies` | src/queue.cpp:585-606 | The scan keeps only dependencies of the launch; each one it drops is named by a barrier already pending on the queue or has completed; nothing is published. |
| `HsaSubmit.RegisterDependencies` | src/queue.cpp:607-636 | The packet loop appends barrier packets of at most five signals that together name exactly the dependencies left, in order. |
| `HsaSubmit.PublishLaunch` | src/launch.cpp:1162-1231 | From gate to dispatch the log grows by barrier packets that name dependencies of the launch only and then one dispatch that awaits the caller's whole list; the lock is released and the launch is gone. |
| `HsaSubmit.CollectUnfinished` | src/queue.cpp:712-738 | The collected signals name every pending dispatch; every pending event named had not completed when the collection began, and every one left out has completed by its end. |
| `HsaSubmit.PublishSynchronization` | src/queue.cpp:753-806 | The published packets name exactly the collected signals, in order, at most five each, and all complete the shared signal. |
| `HsaSubmit.EnqueueQueueSynchronization` | src/queue.cpp:704-825 | One attempt either enqueues packets that name every pending dispatch, every pending event still uncompleted when the collection ended and none that had completed before it began, and registers the synchronization, or finds everything completed, or finds no room and publishes nothing. |
| `EventHandoff.HandoffSafe` | src/launch.cpp:1062-1121 | Over all interleavings of launches, records and destroys, no event is re-armed or freed while a launch is between collecting it and registering it, through the lock handoff and both pin-retaining slow paths. |
| `EventHandoff.NeverFreed` | src/event.cpp:182-206 | A launch in that window never refers to a freed event. |
| `EventHandoff.CollectedKept` | src/launch.cpp:1052-1121 | From the moment a launch reads its list until it registers or gives up, through either slow path and any record and destroy calls, every event of the list stays allocated and keeps the recording it had. |
| `EventHandoff.KeepStep` | src/launch.cpp:621-653 | Every lock, pin, wait and registration step of every thread keeps the handoff invariant. |
| `AqlPackets.DispatchValidIff` | src/aql_producer.cpp:120-170 | A built dispatch packet passes validation if and only if the launch geometry is sound and the kernel object is set. |
| `AqlPackets.BarrierBitExact` | src/aql_producer.cpp:120-184 | The barrier bit is set exactly when something earlier is pending, barrier packets always carry it, and no built packet has the invalid header. |
| `AqlPackets.DispatchLayout` | src/aql_producer.hpp:31-61 | Every field of a dispatch packet is found again at its fixed offset. |
| `AqlPackets.BarrierLayout` | src/aql_producer.hpp:63-79 | Every field of a barrier packet is found again at its fixed offset. |
| `AqlPackets.DispatchAsks` | src/aql_producer.cpp:121-146 | Decoding the published bytes of a dispatch gives back what the caller asked for: packet type and system fence scopes in the header, the fewest dimensions that hold the grid, and workgroup, grid, private and group segment sizes, kernel object, arguments and completion signal, each at its own offset. |
| `AqlPackets.BarrierAsks` | src/aql_producer.cpp:172-179 | Decoding the published bytes of a barrier packet gives back all five dependency signals and the completion signal, with its type, barrier bit and system fence scopes. |
| `Bits.MaskIsMod` | src/aql_producer.cpp:82-117 | Masking with the packet count minus one is the remainder, so ids a ring apart share a slot and closer ones do not. |
| `AqlRing.PowerOfTwoIff` | src/aql_producer.cpp:46-48 | The packet-count test accepts exactly the powers of two. |
| `AqlRing.OwnSlot` | src/aql_producer.cpp:82-117 | Two different ids less than a ring apart have different slots. |
| `AqlRing.Ring.Consume` | src/aql_producer.cpp:60-71 | What the packet processor takes is the next part of the published log, whatever slots it sees. |
| `AqlRing.Ring.Publish` | src/aql_producer.cpp:60-71 | Header invalidated, body copied, header stored last: the ring is valid at every point in between, so no valid header stands over an incomplete body. |
| `AqlRing.Ring.SubmitDispatch` | src/aql_producer.cpp:186-217 | A rejected or refused packet leaves ring and indices unchanged; an accepted one extends the log by one packet, and decoding that packet gives back the caller's parameters. |
| `AqlRing.Ring.SubmitBarriers` | src/aql_producer.cpp:225-268 | All barriers are placed contiguously in order, each decoding to its caller's five signals and completion, or nothing changes. |
| `AqlRing.Ring.SubmitBarriersAndDispatch` | src/aql_producer.cpp:270-328 | Barriers and dispatch are placed contiguously in order, each decoding to what its caller asked for, or nothing changes. |
| `Hsakmt.GpuKeeps` | src/queue.cpp:1083-1135 | Hardware progress on borrowed signals keeps the hsakmt invariant. |
| `HsakmtRuns.ArmOrReleaseSafe` | src/event.cpp:844-872 | Over every run of hardware and host steps from an empty runtime, whenever an event's signal is armed (submission, refused submission, record) or given back (destroy), no dispatch borrows it, no barrier entry names it and no unfinished packet reads or writes it. |
| `HsakmtRuns.ReleasedUntouched` | src/event.cpp:865-872 | Once given back, a signal stays out of reach of host lists and unfinished packets for the rest of the run. |
| `HsakmtRuns.HardwareTouches` | src/launch.cpp:897-928 | In every run, an unfinished packet stores only to the signal of an event that is pending because of exactly that packet, and reads only signals of counted, live events. |
| `HsakmtOrder.DispatchWaits` | src/launch.cpp:887-928 | For every list of dependencies passed to a submission: over every run from then on, its dispatch is taken or next to be taken only when the packet that completes each event that was pending has completed. |
| `HsakmtOrder.RecordWaits` | src/event.cpp:1006-1068 | From a record call on, over every run: as long as a packet that was on the queue at the call is unfinished, the event is pending for this record and its signal is not zero. |
| `HsakmtRuns.ReachableInv` | src/queue.cpp:1083-1135 | The invariant of the hsakmt backend holds in every state of every run. |
| `HsakmtRuns.StepKeeps` | src/event.cpp:1006-1068 | Every step, hardware or host, keeps it: creation, reaps, finishing, accepted and refused submissions and records, destruction. |
| `HsakmtOps.RetiredIsDone` | src/queue.cpp:1083-1099 | A barrier taken off the list has completed on the device. |
| `HsakmtOps.ZeroIsDone` | src/queue.cpp:1101-1135 | A pending dispatch whose signal, own or borrowed, reads zero has itself completed, not a later use of the signal. |
| `HsakmtOps.RetireBarrierKeeps` | src/queue.cpp:1083-1099 | Retiring a barrier keeps the invariant and its dependency counts. |
| `HsakmtOps.RetireDispatchKeeps` | src/queue.cpp:1101-1135 | Retiring the front dispatch keeps the invariant. |
| `HsakmtOps.FinishKeeps` | src/event.cpp:380-403 | Finishing an event keeps the invariant because its queue's completed dispatches are retired first. |
| `HsakmtOps.EntryUses` | src/launch.cpp:887-896 | The barriers registered for a dependency list, cut in fives, name each event as often as the list does. |
| `HsakmtOps.SubmitKeeps` | src/launch.cpp:887-928 | A submission with barriers and a borrowed completion event keeps the invariant. |
| `HsakmtOps.RecordKeeps` | src/event.cpp:1006-1068 | Recording a marker keeps the invariant. |
| `HsakmtRuntime.Runtime.ReapBarriers` | src/queue.cpp:1083-1099 | The loop leaves no barrier whose dispatch had completed on entry. |
| `HsakmtRuntime.Runtime.ReapDispatches` | src/queue.cpp:1101-1135 | No dispatch that had completed on entry is left, even if more complete between the passes. |
| `HsakmtRuntime.Runtime.FinishEventWait` | src/event.cpp:380-403 | Afterwards the event is idle and completed, its queue lists it no more, and no pending dispatch borrows its signal. |
| `HsakmtRuntime.Runtime.ReapEvents` | src/event.cpp:441-455 | A front event that had completed on entry is finished. |
| `HsakmtRuntime.Runtime.Synchronize` | src/queue.cpp:1180-1205 | Success means that no dispatch, barrier or event of the queue is pending; the loop ends because every round shortens a list. |
| `HsakmtRuntime.Runtime.EnsureCapacity` | src/queue.cpp:1137-1178 | Success means that the packets fit between what the hardware has taken and the end of the ring. |
| `HsakmtRuntime.Runtime.WaitConsumers` | src/event.cpp:417-432 | Success means that nothing depends on the event; the loop always finds a queue to synchronize and ends. |
| `HsakmtRuntime.Runtime.DestroyEvent` | src/event.cpp:844-872 | The signal is given back only in a state in which nothing refers to it, and nothing refers to it afterwards. |
| `HsakmtRuntime.Runtime.CollectDependencies` | src/launch.cpp:713-748 | The list is accepted exactly if its events are distinct, live, recorded once and not the completion event; the events left out of the result have completed. |
| `HsakmtRuntime.Runtime.Enqueue` | src/memory.cpp:1627-1730 | From the waits to the submission: the completion signal is armed only with nothing referring to it, the packets fit the ring, and every dependency without a barrier has completed. |
| `HsakmtRuntime.Runtime.RecordEvent` | src/event.cpp:1006-1068 | With the waits that precede it: the signal is armed in a state that has only settled since the call and in which nothing on host or device refers to it; the marker is the last packet; a refused marker leaves the state of then but for a zero signal. |
| `HsakmtRuntime.Runtime.Submit` | src/launch.cpp:887-955 | An accepted batch extends the log by the whole batch; a refused one takes back its barriers, counts, pending entries and the saved completed flag, and the events are as before if and only if there is no completion event or its signal was already zero. |
| `HsakmtRuntime.RefusedFreshSubmission` | src/launch.cpp:930-955 | Through the operations on a new runtime: a fresh event, created with signal one, is left at zero by a refused submission. |
| `KfdState.BumpKeeps` | src/launch.cpp:72-103 | A slice bumped off an arena keeps all slices inside their arenas and pairwise disjoint. |
| `KfdState.NewArenaKeeps` | src/launch.cpp:72-103 | So does a slice of a new arena. |
| `KfdState.RollbackKeeps` | src/launch.cpp:105-110 | Giving back the last slice keeps the others inside and disjoint. |
| `Kfd.Queue.Allocate` | src/launch.cpp:72-103 | The slice is the end of the first arena with room, or the start of a new arena when none has room; it overlaps no owned slice and no other arena changes. |
| `Kfd.Queue.Rollback` | src/launch.cpp:105-110 | Exactly the topmost slice is taken back; any other leaves the arenas alone. |
| `KfdState.RollbackUndoes` | src/launch.cpp:72-110 | Rolling back a fresh slice restores every arena there was; a new arena stays, empty. |
| `Kfd.Queue.FindReusable` | src/launch.cpp:258-266 | The last pooled dispatch whose slice is large enough, or none exists. |
| `KfdState.ReadsDone` | src/queue.cpp:1380-1391 | Whatever the in-order hardware does, a dispatch that reads as completed has completed. |
| `Kfd.Queue.Reap` | src/queue.cpp:1371-1414 | With the hardware running at every load: the front moves to the pool in order, with its slices; every dispatch moved has completed and the one left in front had not completed on entry; if completed dispatches read as completed, all that had completed on entry are moved and this stays so; every barrier left had an unfinished dispatch on entry. If the pool cannot grow, the list stays and a dispatch of the completed front still reads as completed if and only if it had not borrowed an event's signal. Once one that had is in front, no later reap moves anything. |
| `Kfd.Queue.ReapBarriers` | src/queue.cpp:1352-1369 | A barrier whose dispatch had completed on entry goes, and one whose dispatch has not completed on exit stays. |
| `Kfd.Queue.Acquire` | src/launch.cpp:258-308 | The object in hand is armed, large enough and owned once, and every pending and pooled object keeps its slice; it fails only if memory, a signal or room in the pool is refused. |
| `Kfd.Queue.Submit` | src/launch.cpp:355-423 | An accepted batch appends barriers, counts and pending entries; a refused one takes back exactly these and pools the object, and the events are as before if and only if there is no completion event or its signal was already zero. If completed dispatches read as completed, an accepted batch keeps it so if and only if nobody borrows its completion event. |
| `Kfd.Queue.Record` | src/event.cpp:1096-1150 | The marker arms and lists the event, or restores it with a zero signal; the same condition decides whether completed dispatches keep reading as completed. |
| `Kfd.Queue.FinishEvent` | src/event.cpp:493-512 | Finishing a completed event leaves no idle event borrowed if and only if no dispatch borrows this one. |
| `Kfd.Queue.ReapEvents` | src/event.cpp:600-612 | Afterwards the front event has not completed; no idle event is borrowed if and only if none of the events it finished was. |
| `Kfd.Queue.ReapWork` | src/queue.cpp:1488-1496 | The two passes together: if the front dispatch completes between them, it stays pending and the event it borrows is finished. |
| `Kfd.Queue.WaitEvent` | src/event.cpp:614-630 | The event is finished; if completed dispatches read as completed nobody borrows it afterwards; behind a dispatch that never reads as completed, whoever borrowed it still does. |
| `Kfd.ReapWithoutRoom` | src/queue.cpp:1392-1403 | Through the operations on a new queue: a reap that is refused room leaves a completed dispatch that never reads as completed again. |
| `Kfd.FinishedWhileBorrowed` | src/queue.cpp:1475-1499 | Through the operations on a new queue: an event that is idle while a pending dispatch still borrows its signal. |
| `Kfd.WaitBehindJam` | src/event.cpp:614-630 | Through the operations on a new queue: a successful wait that leaves its event borrowed. |
| `Kfd.RefusedFreshSubmission` | src/launch.cpp:398-423 | Through the operations on a new queue: a fresh event, created with signal one, is left at zero by a refused submission. |
| `StagedCopy.OffsetHasOneThread` | src/light_rocr_copy_kernel.cpp:6-10 | Every offset is visited by exactly one thread of one block, in exactly one turn, for every size. |
| `StagedCopy.KernelCopies` | src/light_rocr_copy_kernel.cpp:1-11 | Every interleaving of single loads and stores that lets all work items finish copies the bytes, changes nothing else and stores each offset once. |
| `StagedCopy.SettleFinishes` | src/light_rocr_copy_kernel.cpp:8-10 | After any prefix of a launch, running the work items to their ends finishes the launch. |
| `StagedCopy.LaunchCopies` | src/memory.cpp:684-718 | A launch stopped anywhere has written only the destination; once settled, the copy is complete. |
| `StagedCopy.Device.Submit` | src/memory.cpp:684-718 | Success means the bytes are copied; failure, with the kernel stopped anywhere, leaves everything outside the destination alone; size zero is refused. |
| `StagedCopy.Device.StageChunk` | src/memory.cpp:1408-1417 | One chunk arrives through the staging buffer. |
| `StagedCopy.Device.CopyBackward` | src/memory.cpp:1404-1419 | The backward loop is `memmove` when the destination is above the source, for every staging size. |
| `StagedCopy.Device.CopyForward` | src/memory.cpp:1420-1433 | The forward loop is `memmove` when the destination is below the source. |
| `StagedCopy.Device.CopyDeviceToDevice` | src/memory.cpp:1394-1434 | Device-to-device copy equals `memmove` for every size, overlap and staging size; only the destination and the staging buffer change, also on failure. |
| `StagedCopy.Device.CopyHostToDevice` | src/memory.cpp:1370-1381 | The whole host buffer arrives, chunk by chunk. |
| `StagedCopy.Device.CopyDeviceToHost` | src/memory.cpp:1382-1393 | The host buffer receives the device bytes and device memory outside the staging buffer is untouched. |
| `HsaFree.FreeReleasesUnused` | src/memory.cpp:913-958 | After any run of the runtime and the allocation table side by side, a free that synchronizes the device successfully, with any other steps interleaved, finds every copy it waited for finished: its allocation is unpinned and named by no unfinished copy, and every dispatch published before it waited has completed. |
| `HsaFree.JointStepOk` | src/memory.cpp:940-946 | A copy that is unfinished in the table always has a current, unfinished recording in the runtime, over every step of either side. |
| `MemoryPins.ReleaseSafe` | src/memory.cpp:913-958 | In every run a free that releases an allocation finds it unpinned and named by no unfinished asynchronous copy; whatever is pinned or named is still allocated. |
| `MemoryPins.CopyKeepsMemory` | src/memory.cpp:106-154 | In every run, each allocation a synchronous copy was given to pin stays the same allocation until that copy ends, whatever frees and other copies do. |
| `MemoryPins.AsyncKeepsMemory` | src/memory.cpp:929-958 | In every run, each allocation an asynchronous copy names stays the same allocation until the device is done with that copy, although the copy pins nothing. |
| `MemoryPins.MarkedGainsNothing` | src/memory.cpp:46-66 | However long a free waits, an allocation marked as being destroyed gains neither a pin nor an asynchronous copy. |
| `MemoryPins.MarkEnds` | src/memory.cpp:940-958 | A mark disappears only when its own free fails or releases. |
| `MemoryPins.MarkedStays` | src/memory.cpp:929-938 | The lookup after the wait cannot fail, and one allocation is freed by one call at a time. |
| `MemoryPins.KeepStep` | src/memory.cpp:106-154 | Every allocation, copy and free step keeps the pin counts equal to the pins held. |
| `MemoryPins.UnpinUndoesPin` | src/memory.cpp:112-150 | Releasing a pin list restores every count, also with repeated entries. |
| `MemoryPins.FindBase` | src/memory.cpp:46-66 | An allocation is returned exactly if one of the device that is not being destroyed has every byte of the range; with disjoint ranges it is the only one, in whatever order the table is walked. |
| `MemoryPins.OneHolder` | src/memory.cpp:46-66 | At most one allocation holds a non-empty range. |
| `MemoryPins.HoldsBytes` | src/memory.cpp:46-66 | The range test on base, offset and size accepts exactly the ranges whose every byte belongs to the allocation. |
| `MemoryPins.CoversBytes` | src/memory.cpp:78-104 | The same for host memory: covering an address is having its byte, and the size test is having all bytes. |
| `MemoryPins.TranslateHost` | src/memory.cpp:78-104 | Unregistered exactly if no host allocation has the byte at the address; otherwise valid exactly if the one that has it belongs to the device, is not being destroyed and has every byte of the range. |
| `MemoryPins.Memory.Pin` | src/memory.cpp:130-139 | A pin is taken exactly if the allocation exists and is not being destroyed. |
| `MemoryPins.Memory.ReleasePins` | src/memory.cpp:142-150 | The release loop restores the table from before the pins. |
| `MemoryPins.Memory.StartCopy` | src/memory.cpp:1192-1232 | A copy is accepted exactly if its pointers resolve; a refused one leaves every count as it was, an accepted one has pinned everything it touches. |
| `TaskMasks.ReadyIff` | executor/stateful_graph/device_scheduler.hpp:31-42 | The readiness test on two 32-bit words holds exactly when every dependency bit is completed. |
| `TaskMasks.JoinSplit` | benchmarks/qwen_stateful_graph.cpp:342-355 | No dependency is lost between the builder's two words and the scheduler's 64-bit mask. |
| `TaskMasks.SetHas` | executor/stateful_graph/device_scheduler.hpp:190-226 | An atomic or on one word sets that bit and no other. |
| `TaskMasks.RangeMaskFits` | benchmarks/qwen_stateful_graph.cpp:369-486 | Masks of a program of at most 64 tasks fit in 64 bits. |
| `QwenPrograms.RowsTiled` | benchmarks/qwen_stateful_graph.cpp:382-392 | The partitions of a stage cover every row exactly once, for every size and partition count. |
| `QwenPrograms.PartsQuiet` | benchmarks/qwen_stateful_graph_kernel.cpp:379-479 | Two tasks of one stage write disjoint cells and neither writes what the other reads. |
| `QwenPrograms.AssembledDependencies` | benchmarks/qwen_stateful_graph.cpp:369-486 | Every task's mask holds exactly the tasks of the stage before its own. |
| `QwenPrograms.DecoderWellFormed` | benchmarks/qwen_stateful_graph.cpp:369-486 | All three decoder programs are staged programs without conflicts, for all sizes and partition counts up to 64 tasks. |
| `QwenPrograms.MasksFit` | benchmarks/qwen_stateful_graph.cpp:369-486 | No mask of a program of at most 64 tasks overflows. |
| `QwenPrograms.AppendStage` | benchmarks/qwen_stateful_graph.cpp:382-392 | The partition loop appends the tasks of a stage and collects the mask of exactly those tasks. |
| `QwenPrograms.AppendProgram` | benchmarks/qwen_stateful_graph.cpp:378-424 | The stages follow each other, each masked by the one before. |
| `QwenPrograms.MakePrograms` | benchmarks/qwen_stateful_graph.cpp:369-486 | Invalid head partitionings are refused exactly; otherwise the table's slices are the three programs that the `QwenDataFlow` results are about. |
| `QwenPrograms.HostLaunchesStages` | benchmarks/qwen_stateful_graph.cpp:505-517 | The host's launch list, nine launches for a decoder layer and four for the tail (`benchmarks/qwen_stateful_graph.cpp:1141-1152`), is exactly the list of stages of the three programs. |
| `QwenPrograms.DecoderScheduleIndependent` | benchmarks/qwen_stateful_graph_kernel.cpp:379-479 | Every complete run of a decoder program, by any workers in any interleaving of loads and stores, leaves the buffers of the stage-by-stage order. |
| `QwenDataFlow.Covered` | benchmarks/qwen_stateful_graph.cpp:369-486 | For every size and partition count, every element an operation of a program is to make (every head, row, column and partial maximum) is written by exactly one of that operation's tasks. |
| `QwenDataFlow.DataFlow` | benchmarks/qwen_stateful_graph_kernel.cpp:379-479 | Whatever intermediate value a task reads was stored, last before it in its own program, by the one task of the producing operation that makes it; nothing is read before it is made. |
| `QwenDataFlow.Results` | benchmarks/qwen_stateful_graph.cpp:394-486 | Each program makes all its results, each element by exactly one task: attention the caches and the residual, feed-forward the residual and the branch, the tail the token, the counters and the next input. |
| `QwenDataFlow.WholeInputs` | benchmarks/qwen_stateful_graph_kernel.cpp:379-479 | A normalization reads the whole hidden state and the reduction every partial maximum. |
| `QwenDataFlow.VocabularyCovered` | benchmarks/qwen_stateful_graph.cpp:440-486 | Every row of the vocabulary is looked at by exactly one partition of the tail. |
| `QwenDataFlow.TasksValidIff` | benchmarks/qwen_stateful_graph_kernel.cpp:10-40 | All tasks of the three programs pass the scheduler's check of single tasks if and only if no stage has more partitions than rows. |
| `QwenDataFlow.EpsilonNearest` | benchmarks/qwen_stateful_graph.cpp:378-462 | Every normalization of every program is given the single-precision number nearest to 1.0e-6. |
| `ProgramValidation.Validate` | executor/stateful_graph/device_scheduler.hpp:80-113 | The bounded bitmask walk accepts a program if and only if its masks name other tasks of the program only and its tasks can be put in an order that respects them. |
| `DecoderValidation.ValidateTable` | executor/stateful_graph/device_scheduler.hpp:69-116 | The loop over the programs accepts a table if and only if every entry lies in it, links to existing programs and passes that walk. |
| `DecoderValidation.StagedValidates` | executor/stateful_graph/device_scheduler.hpp:80-113 | The masks of every well-formed staged program are in range and index order respects them. |
| `DecoderValidation.BuildAndValidate` | benchmarks/qwen_stateful_graph.cpp:369-486 | The scheduler accepts the decoder's table for all sizes and partition counts the builder accepts. |
| `TaskGraph.ScheduleIndependent` | executor/stateful_graph/device_scheduler.hpp:161-230 | The same for every well-formed staged program and every arithmetic. |
| `TaskGraph.StagesInOrder` | executor/stateful_graph/device_scheduler.hpp:161-203 | A claimed task finds every task of every earlier stage completed, although masks are loaded word by word. |
| `TaskGraph.ConflictsNeverOverlap` | benchmarks/qwen_stateful_graph_kernel.cpp:379-479 | Tasks running at the same time never conflict. |
| `TaskProgress.NeverStuck` | executor/stateful_graph/device_scheduler.hpp:161-230 | However the workers have been scheduled so far, any one of them can bring the program to its end, and the buffers then hold what the index order leaves there. |
| `TaskProgress.NextMove` | executor/stateful_graph/device_scheduler.hpp:176-226 | In every reachable state that is not complete, a running task has a load, store or completion to perform, or a worker that loads the masks can claim a task. |
| `TaskGraph.KeepStep` | executor/stateful_graph/device_scheduler.hpp:161-230 | Mask loads, claims, loads, stores and completions keep the stage invariant. |
| `ResidentGraph.PhaseRoundTrip` | executor/stateful_graph/stateful_graph_abi.hpp:19-29 | The packed word gives back its program always, and its generation if and only if it is below 2^24, the bound the executor enforces. |
| `ResidentGraph.OneOwner` | executor/stateful_graph/device_scheduler.hpp:226-267 | In every generation of every run at most one worker finds the counter complete; it does exactly when all tasks are completed and counted, and the next generation is published only after it is done. |
| `ResidentGraph.EndsAsReference` | executor/stateful_graph/device_scheduler.hpp:161-270 | A run that ended, with any number of workers in any interleaving and with workers acting on outdated phases, leaves the memory, status and task count of running one program after the other. |
| `ResidentGraph.EndReason` | executor/stateful_graph/device_scheduler.hpp:226-267 | Why a graph ended, from the buffers it left: completed exactly if its last program evaluates the predicate and the value reached the stop value, even when the step budget ran out with it; out of steps exactly if not that and the budget is used up; invalid exactly if neither and the generations are. |
| `ResidentGraph.RunsAgree` | executor/stateful_graph/device_scheduler.hpp:161-270 | Any two runs that ended agree on all of these and on the number of generations. |
| `ResidentGraph.KeepMove` | executor/stateful_graph/device_scheduler.hpp:206-270 | Scheduling, counting and both halves of a transition keep the invariant, in the current generation and in any earlier one. |
| `ResidentProgress.NeverStuck` | executor/stateful_graph/device_scheduler.hpp:161-270 | From every state of every run the graph can be brought to its end, which is that of the reference. |
| `HostDecode.LaunchAll` | benchmarks/qwen_stateful_graph.cpp:1156-1162 | Launching consecutive stages runs their tasks in order. |
| `HostDecode.Decode` | benchmarks/qwen_stateful_graph.cpp:1153-1164 | The launch loops leave the memory of the given number of tokens, each its layers and its tail. |
| `HostDecode.StagesConsecutive` | benchmarks/qwen_stateful_graph.cpp:1141-1152 | The nine decoder launches and the four tail launches cover the tasks of their programs without gap or overlap. |
| `HostDecode.ResidualProgram` | benchmarks/qwen_stateful_graph_kernel.cpp:579-596 | The host kernel leaves the feed-forward program's result with the step one further, because exactly the last task is a residual task. |
| `ResidentDecode.GraphOfTable` | benchmarks/qwen_stateful_graph.cpp:417-485 | The three nodes of the modelled graph have the tasks, successors and flags of the builder's table. |
| `ResidentDecode.NextPrior` | benchmarks/qwen_stateful_graph.cpp:1153-1164 | Program after program, the graph's order is the host's: attention and feed-forward for every layer, then the tail. |
| `ResidentDecode.BranchStored` | benchmarks/qwen_stateful_graph_kernel.cpp:471-478 | After feed-forward the branch value is nonzero exactly at the last layer of a token. |
| `ResidentDecode.DecodesLikeHost` | benchmarks/qwen_stateful_graph.cpp:1153-1164 | If the host's loops first meet the predicate after k tokens, every resident run that ended is complete if and only if the step bound exceeds k times the layers and the phase states suffice for k tokens; it then leaves the host's buffers and the exact numbers of generations and tasks. |
| `ResidentDecode.BenchmarkCompletes` | benchmarks/qwen_stateful_graph.cpp:833-851 | With the benchmark's own bounds every such run is complete. |
| `DecodeAgreement.AgreeTokens` | benchmarks/qwen_stateful_graph.cpp:819-822 | Two partitionings of the vocabulary decode alike for any number of tokens: every cell agrees but the partial maxima and the sampled logit. |
| `DecodeAgreement.ResidentAgreesWithHost` | benchmarks/qwen_stateful_graph.cpp:1153-1164 | A resident run with one partitioning, any workers and any schedule, and the host's loops with another: output tokens, caches, hidden state, counters and stop reason are the same. |
| `Top1.PickMerges` | benchmarks/qwen_stateful_graph_kernel.cpp:112-116 | The better of the bests of two row sets is the best of both, empty sets and ties included. |
| `Top1.WaveScan` | benchmarks/qwen_stateful_graph_kernel.cpp:118-144 | A wave returns the best of its strided rows. |
| `Top1.PartitionTop` | benchmarks/qwen_stateful_graph_kernel.cpp:118-159 | A worker returns the best row of its partition, for any number of waves. |
| `Top1.ReduceTop` | benchmarks/qwen_stateful_graph_kernel.cpp:161-178 | The reduction returns the best row of the vocabulary from the partials. |
| `Top1.SampleToken` | benchmarks/qwen_stateful_graph.cpp:463-479 | All together return the global maximum with the lowest index, for every vocabulary size and partition count. |
| `Top1.SameToken` | benchmarks/qwen_stateful_graph.cpp:819-822 | Resident and host partitionings therefore pick the same token. |
| `TokenAgreement.TailSamples` | benchmarks/qwen_stateful_graph.cpp:455-486 | In index order, the tail program stores the lowest index among the highest logits, for every partition count, when its sampling opcodes compute what their kernels do. |
| `TokenAgreement.SameTokenSampled` | benchmarks/qwen_stateful_graph.cpp:819-822 | Any two complete runs of the tail program from the same buffers, with any two partition counts, workers and schedules, store the same token. |
| `ManifestText.ObjectEnd` | src/bundle.cpp:218-245 | The brace scan of a printed object ends at its own closing brace, whatever braces its strings and nested objects hold. |
| `ManifestText.ObjectField` | src/bundle.cpp:256-305 | The field search finds the value of the object's own field and ends there; a name that only occurs nested or as a value is not found. |
| `ManifestText.FieldValue` | src/bundle.cpp:256-305 | A printed value is passed over, even if it equals the searched name. |
| `ManifestCursor.ScanBrace` | src/bundle.cpp:218-245 | The loop finds what the brace function finds. |
| `ManifestCursor.ScanField` | src/bundle.cpp:256-305 | The loop finds what the field function finds, errors included. |
| `ManifestCursor.ScanString` | src/bundle.cpp:317-336 | The loop reads what the string function reads and refuses escapes. |
| `ManifestCursor.ScanSize` | src/bundle.cpp:338-355 | The digit loop reads what the integer function reads. |
| `ManifestCursor.ScanGridInteger` | src/bundle.cpp:502-525 | Trimming and digit-by-digit accumulation with early overflow equals the value of the numeral. |
| `ManifestCursor.ScanArgs` | src/bundle.cpp:527-569 | The loop over the argument objects returns the argument list or the error. |
| `ManifestCursor.CheckArgs` | src/bundle.cpp:571-598 | The nested loops accept exactly the lists whose arguments are all valid. |
| `ManifestCursor.CheckParent` | src/bundle.cpp:42-55 | The loop finds a parent component exactly if some whole component of the path, between slashes or the ends, is `..`. |
| `ManifestCursor.ScanKernels` | src/bundle.cpp:121-161 | The loop over the kernel objects returns the kernel list or the error, duplicates included. |
| `ManifestPaths.HasParentIff` | src/bundle.cpp:42-55 | The component walk finds a parent exactly if the path has a component `..` anywhere. |
| `ManifestPaths.AcceptedIff` | src/bundle.cpp:165-203 | A kernel is accepted if and only if its code object is a non-empty relative path without `..`, its names, sizes, block and grid are usable, and its arguments are named, typed, distinct, in strict order of offset and placed in the block. |
| `ManifestPaths.ParsedKernels` | src/bundle.cpp:121-203 | Whatever the text: an accepted manifest has version one, a target and at least one kernel, kernels with different names, all usable, and every code object stays in the bundle. |
| `ManifestPaths.OptionalFields` | src/bundle.cpp:177-184 | A kernel object without the optional fields needs no shared memory and no workspace. |
| `ManifestArguments.ParsedArguments` | src/bundle.cpp:571-598 | Whatever the text, the arguments of an accepted kernel have distinct names and start in increasing order inside the kernarg block; each ends inside it if and only if its end does not wrap, and always if the block has at most 2^63 bytes. |
| `ManifestArguments.AllInsideIff` | src/bundle.cpp:580-584 | The range check keeps every argument inside the block if and only if the block has at most 2^63 bytes. |
| `ManifestArguments.OverrunParses` | src/bundle.cpp:121-203 | For every larger block, a manifest that the parser accepts with an argument that ends outside. |
| `ManifestWriter.GridRead` | src/bundle.cpp:474-525 | The written grid expression parses to its divisor and multiplier. |
| `ManifestRoundTrip.ArgsRead` | src/bundle.cpp:527-569 | The written argument array parses to the arguments. |
| `ManifestRoundTrip.KernelRead` | src/bundle.cpp:165-203 | A written kernel object parses to the kernel, whatever its notes hold. |
| `ManifestRoundTrip.RoundTrip` | examples/triton/manifest_utils.py:67-102 | Parsing what the writer prints gives back the same kernels, for every valid manifest with escape-free strings. |

## Left out

- Calls into HSA, hsakmt and KFD, code-object loading and cache maintenance: foreign code.
- Allocation failures except in the KFD reap and acquisition, and negative signal values.
- Fine-grained memory order: atomics and lock acquisitions are single steps.
- Launch profiling, clocks and ticks except where an undo restores them.
- Runtime shutdown and the release of whole devices.
- Module and kernel handles, and the copying of kernel arguments into kernarg memory.
- The raw dispatch signals an asynchronous copy takes as implicit dependencies on the default
  queue: only its explicit event dependencies are modelled.
- Concurrency inside the KFD capacity wait; `Kfd` models the submission bookkeeping and the
  hardware, not other host threads.
- The waiting loops of KFD queue and device synchronization, hsakmt queue destruction and
  scratch growth: the HSA device synchronization and queue destruction are the ones modelled,
  and of the KFD loops the body, `Kfd.Queue.ReapWork`.
- Pageable-copy staging of a finished KFD event.
- The compiled (stage-barrier) scheduler: it runs the same stages with a stronger order.
- Kernel arithmetic of the Qwen tasks.
- Kernarg packing and launch configuration from a parsed manifest, which only copy fields.
- JSON that the writer does not produce (escapes, other layouts) is parsed by the model but not
  covered by the round trip.
- `lr_memcpy` of the HSA and hsakmt backends, which delegate to a foreign copy call.
- Byte and count statistics of allocations and copies.
- MemoryPins.KeepStep: the device synchronization inside a free is the step `Synchronize` to `Release`; `HsaFree.FreeReleasesUnused` proves its promise for the HSA backend.
- MemoryPins.FindBase: the table walk uses that live allocations of one kind are disjoint, as the memory allocator guarantees.
