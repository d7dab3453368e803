/** The steps of the HSA runtime.  A step is what one thread does between two
    points where another thread or the packet processor can get in: one iteration
    of a loop under a lock, one packet published, one signal observed. */
module HsaSteps {
  import opened Common
  import opened HsaState

  function RemoveAt<T>(s: seq<T>, i: nat): (r: seq<T>)
    requires i < |s|
    ensures |r| == |s| - 1
    ensures forall x :: x in r ==> x in s
    ensures multiset(r) == multiset(s) - multiset{s[i]}
  {
    assert s == s[..i] + [s[i]] + s[i + 1..];
    s[..i] + s[i + 1..]
  }

  // ---------------------------------------------------------------- counters

  /** retain_event_dependency, n times for one queue */
  function Retain(ev: Event, qi: nat, n: nat): Event {
    if n == 0 then ev
    else ev.(depQueues := ev.depQueues[qi := Get(ev.depQueues, qi) + n], depCount := ev.depCount + n)
  }

  /** release_event_dependency, n times for one queue; a count that reaches zero is erased */
  function Release(ev: Event, qi: nat, n: nat): Event {
    if n == 0 then ev
    else
      var left := if Get(ev.depQueues, qi) <= n then 0 else ev.depQueues[qi] - n;
      ev.(depQueues := if left == 0 then ev.depQueues - {qi} else ev.depQueues[qi := left],
          depCount := if ev.depCount <= n then 0 else ev.depCount - n)
  }

  function RetainAll(events: seq<Event>, qi: nat, deps: seq<nat>): (r: seq<Event>)
    ensures |r| == |events|
    ensures forall e :: 0 <= e < |events| ==> r[e] == Retain(events[e], qi, multiset(deps)[e])
  {
    seq(|events|, e requires 0 <= e < |events| => Retain(events[e], qi, multiset(deps)[e]))
  }

  function ReleaseAll(events: seq<Event>, qi: nat, deps: seq<nat>): (r: seq<Event>)
    ensures |r| == |events|
    ensures forall e :: 0 <= e < |events| ==> r[e] == Release(events[e], qi, multiset(deps)[e])
  {
    seq(|events|, e requires 0 <= e < |events| => Release(events[e], qi, multiset(deps)[e]))
  }

  function RetainActive(active: map<nat, nat>, deps: seq<nat>): (r: map<nat, nat>)
    ensures forall e :: Get(r, e) == Get(active, e) + multiset(deps)[e]
    ensures forall e :: e in r <==> e in active || e in deps
  {
    map e | e in active.Keys + (set d | d in deps) :: Get(active, e) + multiset(deps)[e]
  }

  function ReleaseActive(active: map<nat, nat>, deps: seq<nat>): (r: map<nat, nat>)
    ensures forall e :: Get(r, e) == if Get(active, e) <= multiset(deps)[e] then 0 else active[e] - multiset(deps)[e]
    ensures forall e :: e in r <==> e in active && active[e] > multiset(deps)[e]
  {
    map e | e in active && active[e] > multiset(deps)[e] :: active[e] - multiset(deps)[e]
  }

  /** The dependency references a pending asynchronous copy holds. */
  function AddRefs(events: seq<Event>, deps: seq<nat>): (r: seq<Event>)
    ensures |r| == |events|
    ensures forall e :: 0 <= e < |events| ==>
      r[e] == events[e].(depCount := events[e].depCount + multiset(deps)[e])
  {
    seq(|events|, e requires 0 <= e < |events| =>
      events[e].(depCount := events[e].depCount + multiset(deps)[e]))
  }

  function DropRefs(events: seq<Event>, deps: seq<nat>): (r: seq<Event>)
    ensures |r| == |events|
    ensures forall e :: 0 <= e < |events| ==>
      r[e] == events[e].(depCount :=
        if events[e].depCount <= multiset(deps)[e] then 0 else events[e].depCount - multiset(deps)[e])
  {
    seq(|events|, e requires 0 <= e < |events| =>
      events[e].(depCount :=
        if events[e].depCount <= multiset(deps)[e] then 0 else events[e].depCount - multiset(deps)[e]))
  }

  // ------------------------------------------------------- packet processor

  /** Packets are taken in order; a barrier-AND packet holds back everything behind
      it, and a packet with the barrier bit waits for everything before it. */
  predicate CanTake(g: Gpu) {
    && g.taken < |g.log|
    && (forall p: nat :: p < g.taken && HoldsBack(g.log, p, g.taken) ==> p in g.done)
  }

  predicate CanComplete(q: Queue, events: seq<Event>, p: nat) {
    && p < q.gpu.taken <= |q.gpu.log|
    && p !in q.gpu.done
    && (q.gpu.log[p].BarrierAnd? ==> forall s :: s in q.gpu.log[p].deps ==> IsZero(q, events, s))
  }

  function Decrement(n: nat): nat {
    if n == 0 then 0 else n - 1
  }

  function FinishEpoch(ev: Event): Event {
    ev.(signal := Decrement(ev.signal), finished := ev.finished + {ev.epoch})
  }

  function Append(q: Queue, p: Packet): Queue {
    q.(gpu := q.gpu.(log := q.gpu.log + [p]))
  }

  // -------------------------------------------------------------- resources

  /** acquire_kernarg_locked and acquire_signal_locked.  `k` is the pool entry whose
      buffer is large enough, or the pool size when none is. */
  function Acquire(q: Queue, t: nat, k: nat): Queue
    requires k <= |q.kernargPool|
  {
    var kernarg := if k < |q.kernargPool| then q.kernargPool[k] else q.kernargs;
    var none := q.signalPool == [];
    var signal := if none then |q.dispatchValues| else q.signalPool[|q.signalPool| - 1];
    q.(kernargPool := if k < |q.kernargPool| then SwapRemove(q.kernargPool, k) else q.kernargPool,
       kernargs := if k < |q.kernargPool| then q.kernargs else q.kernargs + 1,
       signalPool := if none then [] else q.signalPool[..|q.signalPool| - 1],
       dispatchValues :=
         if none then q.dispatchValues + [1]
         else if signal < |q.dispatchValues| then q.dispatchValues[signal := 1] else q.dispatchValues,
       inFlight := q.inFlight + [InFlight(t, signal, kernarg)])
  }

  /** Re-arm a completion signal and give it and its kernarg buffer back. */
  function Recycle(q: Queue, signal: nat, kernarg: nat): Queue {
    q.(dispatchValues :=
         if signal < |q.dispatchValues| then q.dispatchValues[signal := 1] else q.dispatchValues,
       signalPool := q.signalPool + [signal],
       kernargPool := q.kernargPool + [kernarg])
  }

  // --------------------------------------------------------------- barriers

  /** Publish one barrier-AND packet for up to five event signals and register what
      it references before the doorbell can make it executable. */
  function PublishDependencies(q: Queue, retirement: Signal, deps: seq<nat>): Queue {
    q.(gpu := q.gpu.(log := q.gpu.log + [BarrierAnd(EventSignals(deps), None)]),
       pendingBarriers := q.pendingBarriers + [PendingBarrier(retirement, deps, |q.gpu.log|)],
       active := RetainActive(q.active, deps))
  }

  function EventSignals(deps: seq<nat>): (r: seq<Signal>)
    ensures |r| == |deps|
    ensures forall i :: 0 <= i < |deps| ==> r[i] == EventSignal(deps[i])
    ensures forall e :: e in deps ==> EventSignal(e) in r
    ensures forall s :: s in r ==> s.EventSignal? && s.event in deps
  {
    var r := seq(|deps|, i requires 0 <= i < |deps| => EventSignal(deps[i]));
    assert forall i :: 0 <= i < |deps| ==> r[i] == EventSignal(deps[i]);
    r
  }

  /** The events among a list of signals, in order. */
  function EventsIn(signals: seq<Signal>): (r: seq<nat>)
    ensures forall e :: EventSignal(e) in signals <==> e in r
  {
    if signals == [] then []
    else if signals[0].EventSignal? then [signals[0].event] + EventsIn(signals[1..])
    else EventsIn(signals[1..])
  }

  function PublishSync(q: Queue, c: nat, signals: seq<Signal>): Queue {
    q.(gpu := q.gpu.(log := q.gpu.log + [BarrierAnd(signals, Some(SyncSignal(c)))]),
       pendingBarriers := q.pendingBarriers + [PendingBarrier(SyncSignal(c), EventsIn(signals), |q.gpu.log|)],
       active := RetainActive(q.active, EventsIn(signals)))
  }

  // -------------------------------------------------------------- the steps

  /** The packet processor, the copy engine, and creation of queues and events. */
  datatype DeviceStep =
    | NewQueue(size: nat)
    | NewEvent
    | GpuTake(q: nat)
    | GpuComplete(q: nat, p: nat)
    | CopyDone(e: nat)

  /** Retirement of completed work and waiting for it. */
  datatype ReapStep =
    | ReapBarrier(q: nat, i: nat)
    | ReapDispatch(q: nat)
    | FinishEvent(e: nat)
    | WaitBegin(q: nat)
    | WaitEnd(q: nat, i: nat, j: nat)
    | EventWaitBegin(w: nat, e: nat)
    | EventWaitEnd(w: nat)

  /** One launch, from its dependency list to its dispatch packet. */
  datatype LaunchStep =
    | LaunchCollect(t: nat, q: nat, explicit: seq<nat>, deps: seq<nat>)
    | DefaultCollect(t: nat, q: nat, explicit: seq<nat>, deps: seq<nat>, hasDeps: bool, implicit: bool, k: nat)
    | LaunchGate(t: nat, n: nat)
    | LaunchResume(t: nat)
    | LaunchAcquire(t: nat, k: nat)
    | LaunchScan(t: nat)
    | LaunchBarrier(t: nat, i: nat)
    | LaunchDispatch(t: nat, i: nat)
    | LaunchFail(t: nat, i: nat)
    | LaunchAbandon(t: nat)

  /** Event markers and asynchronous copies. */
  datatype RecordStep =
    | RecordBegin(e: nat, q: nat, deps: seq<nat>, onDefault: bool)
    | RecordLock(e: nat)
    | RecordBarrier(q: nat)
    | RecordMarker(q: nat)
    | RecordAbandon(e: nat)
    | CopySubmit(e: nat, deps: seq<nat>)

  /** Queue synchronization and queue destruction. */
  datatype SyncStep =
    | SyncBegin(q: nat, signals: seq<Signal>)
    | SyncBarrier(q: nat)
    | SyncEnd(q: nat)
    | TailMarker(q: nat)
    | SyncFinish(q: nat, i: nat)
    | DestroyBegin(q: nat)
    | DestroyPin(q: nat)
    | DestroyAbandon(q: nat)
    | DestroyFinish(q: nat)

  datatype Step =
    | ByDevice(device: DeviceStep)
    | ByReap(reap: ReapStep)
    | ByLaunching(launching: LaunchStep)
    | ByRecording(recording: RecordStep)
    | BySyncing(syncing: SyncStep)

  predicate Free(s: State, q: nat) {
    q < |s.queues| && s.queues[q].holder == Unlocked && s.queues[q].lifecycle != Destroyed
  }

  /** An unfinished synchronization names this completion signal. */
  predicate SyncNames(q: Queue, signal: nat) {
    exists i :: 0 <= i < |q.pendingSyncs| && SyncConsumer(q, q.pendingSyncs[i], signal)
  }

  predicate SyncConsumer(q: Queue, y: PendingSync, signal: nat) {
    y.completion < |q.syncValues| && q.syncValues[y.completion] != 0 && signal in y.dispatchDeps
  }

  predicate RetiresOn(q: Queue, sig: Signal) {
    exists i :: 0 <= i < |q.pendingBarriers| && q.pendingBarriers[i].retirement == sig
  }

  /** No call in flight has collected the event and not registered it yet.  A launch
      holds a launch pin or its queue lock, a default-queue record holds a
      synchronizer pin; record and destroy wait for all of them. */
  predicate Unreferenced(s: State, e: nat) {
    && (forall t :: t in s.launches ==> e !in s.launches[t].deps)
    && (forall w :: w in s.waits ==> s.waits[w].event != e)
    && (forall x :: 0 <= x < |s.events| && s.events[x].recording.Some? ==> e !in s.events[x].recording.value.deps)
    && (forall q :: 0 <= q < |s.queues| ==> EventSignal(e) !in s.queues[q].progressWaits)
  }

  /** The checks of lr_event_record and lr_memcpy_async before they re-arm. */
  predicate Idle(s: State, e: nat) {
    && e < |s.events|
    && !s.events[e].pending
    && s.events[e].recording.None?
    && s.events[e].depCount == 0
    && Unreferenced(s, e)
  }

  /** collect_event_dependencies_locked accepts the list. */
  predicate ValidDeps(s: State, explicit: seq<nat>) {
    && Distinct(explicit)
    && (forall e :: e in explicit ==> e < |s.events| && s.events[e].epoch > 0)
  }

  function Awaits(s: State, explicit: seq<nat>): (r: seq<Occurrence>)
    requires forall e :: e in explicit ==> e < |s.events|
    ensures |r| == |explicit|
    ensures forall i :: 0 <= i < |explicit| ==>
      explicit[i] in explicit && r[i] == Occurrence(explicit[i], s.events[explicit[i]].epoch)
  {
    assert forall i :: 0 <= i < |explicit| ==> explicit[i] in explicit;
    seq(|explicit|, i requires 0 <= i < |explicit| => Occurrence(explicit[i], s.events[explicit[i]].epoch))
  }

  predicate NoLaunchOn(s: State, q: nat) {
    forall t :: t in s.launches ==> s.launches[t].queue != q
  }

  function Bound(q: Queue, events: seq<Event>, l: Launch): nat {
    if l.direct then |l.deps| else |Filter(q, events, l.deps)|
  }

  predicate HasLaunch(s: State, t: nat) {
    t in s.launches && s.launches[t].queue < |s.queues|
  }

  function LaunchQueue(s: State, t: nat): Queue
    requires HasLaunch(s, t)
  {
    s.queues[s.launches[t].queue]
  }

  predicate Holds(s: State, t: nat) {
    HasLaunch(s, t) && LaunchQueue(s, t).holder == ByLaunch(t)
  }

  predicate OwnsFlight(s: State, t: nat, i: nat) {
    HasLaunch(s, t) && i < |LaunchQueue(s, t).inFlight| && LaunchQueue(s, t).inFlight[i].thread == t
  }

  predicate CanGpuTake(s: State, q: nat) {
    q < |s.queues| && CanTake(s.queues[q].gpu)
  }

  predicate CanGpuComplete(s: State, q: nat, p: nat) {
    q < |s.queues| && CanComplete(s.queues[q], s.events, p)
  }

  predicate CanCopyDone(s: State, e: nat) {
    e < |s.events| && s.events[e].pending && s.events[e].copy && s.events[e].signal != 0
    && forall d :: d in s.events[e].deps ==> d < |s.events| && s.events[d].signal == 0
  }

  predicate CanReapBarrier(s: State, q: nat, i: nat) {
    Free(s, q) && i < |s.queues[q].pendingBarriers|
    && IsZero(s.queues[q], s.events, s.queues[q].pendingBarriers[i].retirement)
  }

  predicate CanReapDispatch(s: State, q: nat) {
    Free(s, q) && s.queues[q].pendingDispatches != []
    && IsZero(s.queues[q], s.events, DispatchSignal(s.queues[q].pendingDispatches[0].signal))
    && !SyncNames(s.queues[q], s.queues[q].pendingDispatches[0].signal)
  }

  predicate CanFinishEvent(s: State, e: nat) {
    e < |s.events| && s.events[e].pending && s.events[e].signal == 0
    && (s.events[e].recorded.Some? ==>
          Free(s, s.events[e].recorded.value.queue)
          && !RetiresOn(s.queues[s.events[e].recorded.value.queue], EventSignal(e)))
  }

  predicate CanLaunchCollect(s: State, t: nat, q: nat, explicit: seq<nat>, deps: seq<nat>) {
    t !in s.launches && q < |s.queues| && s.queues[q].lifecycle == Live && ValidDeps(s, explicit)
    && Distinct(deps)
    && (forall e :: e in deps ==> e in explicit && s.events[e].pending)
    && (forall e :: e in explicit && e !in deps ==> !s.events[e].pending || s.events[e].signal == 0)
  }

  predicate CanDefaultCollect(s: State, t: nat, q: nat, explicit: seq<nat>, deps: seq<nat>, hasDeps: bool,
                              implicit: bool, k: nat) {
    t !in s.launches && Free(s, q) && s.queues[q].lifecycle == Live && ValidDeps(s, explicit)
    && k <= |s.queues[q].kernargPool|
    && (implicit ==> forall e :: 0 <= e < |s.events| && s.events[e].pending && s.events[e].copy ==> e in explicit)
    && Distinct(deps) && (deps != [] ==> hasDeps)
    && (forall e :: e in deps ==> e in explicit && s.events[e].pending && e !in s.queues[q].active)
    && (forall e :: e in explicit && e !in deps ==>
          !s.events[e].pending || e in s.queues[q].active || s.events[e].signal == 0)
  }

  predicate CanLaunchGate(s: State, t: nat, n: nat) {
    HasLaunch(s, t) && s.launches[t].stage == Collected && Free(s, s.launches[t].queue)
    && Bound(LaunchQueue(s, t), s.events, s.launches[t]) <= n
  }

  predicate CanLaunchResume(s: State, t: nat) {
    HasLaunch(s, t) && s.launches[t].stage.Waiting? && Free(s, s.launches[t].queue)
    && HasCapacity(LaunchQueue(s, t), s.launches[t].stage.required)
  }

  predicate CanLaunchAcquire(s: State, t: nat, k: nat) {
    Holds(s, t) && s.launches[t].stage.Ready?
    && k <= |LaunchQueue(s, t).kernargPool|
  }

  predicate CanLaunchScan(s: State, t: nat) {
    Holds(s, t) && s.launches[t].stage.Scanning?
  }

  predicate CanLaunchBarrier(s: State, t: nat, i: nat) {
    Holds(s, t) && OwnsFlight(s, t, i) && s.launches[t].stage.Registering? && s.launches[t].stage.todo != []
  }

  predicate CanLaunchDispatch(s: State, t: nat, i: nat) {
    Holds(s, t) && OwnsFlight(s, t, i) && s.launches[t].stage == Registering([])
  }

  predicate CanLaunchFail(s: State, t: nat, i: nat) {
    OwnsFlight(s, t, i) && (Holds(s, t) || Free(s, s.launches[t].queue))
  }

  predicate CanLaunchAbandon(s: State, t: nat) {
    HasLaunch(s, t) && (forall i :: 0 <= i < |LaunchQueue(s, t).inFlight| ==> LaunchQueue(s, t).inFlight[i].thread != t)
    && (Holds(s, t) || Free(s, s.launches[t].queue))
  }

  /** A marker on the default queue first waits for the copies that are pending, except those
      that completed or are named by a barrier on the queue already; a marker on any other
      queue waits for no copy. */
  predicate CanRecordBegin(s: State, e: nat, q: nat, deps: seq<nat>, onDefault: bool) {
    Idle(s, e) && Free(s, q) && s.queues[q].lifecycle == Live && Distinct(deps)
    && (forall d :: d in deps ==> d < |s.events| && s.events[d].pending && s.events[d].copy)
    && (if onDefault
        then forall d :: 0 <= d < |s.events| && s.events[d].pending && s.events[d].copy && d !in deps ==>
          d in s.queues[q].active || s.events[d].signal == 0
        else deps == [])
  }

  predicate CanRecordLock(s: State, e: nat) {
    e < |s.events| && s.events[e].recording.Some? && Free(s, s.events[e].recording.value.queue)
    && s.queues[s.events[e].recording.value.queue].lifecycle == Live
    && HasCapacity(s.queues[s.events[e].recording.value.queue], Chunks(|s.events[e].recording.value.deps|) + 1)
  }

  predicate CanRecordBarrier(s: State, q: nat) {
    q < |s.queues| && s.queues[q].holder.ByRecord? && s.queues[q].holder.todo != []
  }

  predicate CanRecordMarker(s: State, q: nat) {
    q < |s.queues| && s.queues[q].holder.ByRecord? && s.queues[q].holder.todo == []
    && s.queues[q].holder.event < |s.events|
  }

  predicate CanRecordAbandon(s: State, e: nat) {
    e < |s.events| && s.events[e].recording.Some?
    && forall q :: 0 <= q < |s.queues| ==> !(s.queues[q].holder.ByRecord? && s.queues[q].holder.event == e)
  }

  predicate CanCopySubmit(s: State, e: nat, deps: seq<nat>) {
    Idle(s, e) && Distinct(deps) && e !in deps
    && forall d :: d in deps ==> d < |s.events| && s.events[d].pending
  }

  predicate CanEventWaitBegin(s: State, w: nat, e: nat) {
    w !in s.waits && e < |s.events| && s.events[e].pending
  }

  predicate CanEventWaitEnd(s: State, w: nat) {
    w in s.waits && s.waits[w].event < |s.events| && s.events[s.waits[w].event].signal == 0
  }

  predicate CanWaitBegin(s: State, q: nat) {
    Free(s, q) && (s.queues[q].pendingDispatches != [] || s.queues[q].pendingEvents != [])
  }

  predicate CanWaitEnd(s: State, q: nat, i: nat, j: nat) {
    Free(s, q) && i < |s.queues[q].progressWaits| && IsZero(s.queues[q], s.events, s.queues[q].progressWaits[i])
    && j <= |s.queues[q].deferred|
    && (j < |s.queues[q].deferred| ==> s.queues[q].progressWaits[i] == DispatchSignal(s.queues[q].deferred[j].signal))
    && (j == |s.queues[q].deferred| ==>
          forall d :: d in s.queues[q].deferred ==> s.queues[q].progressWaits[i] != DispatchSignal(d.signal))
  }

  predicate CanSyncBegin(s: State, q: nat, signals: seq<Signal>) {
    Free(s, q) && s.queues[q].lifecycle == Live && signals != []
    && (forall d :: d in s.queues[q].pendingDispatches ==> DispatchSignal(d.signal) in signals)
    && (forall x :: x in signals ==>
          match x
          case DispatchSignal(h) => h in Signals(s.queues[q].pendingDispatches)
          case SyncSignal(_) => false
          case EventSignal(e) => e in s.queues[q].pendingEvents)
    && (forall e :: e in s.queues[q].pendingEvents && EventSignal(e) !in signals ==>
          e < |s.events| && s.events[e].signal == 0)
    && PendingCount(s.queues[q]) + Chunks(|signals|) <= s.queues[q].size
  }

  predicate CanSyncBarrier(s: State, q: nat) {
    q < |s.queues| && s.queues[q].holder.BySync? && s.queues[q].holder.signals != []
  }

  predicate CanSyncEnd(s: State, q: nat) {
    q < |s.queues| && s.queues[q].holder.BySync? && s.queues[q].holder.signals == []
  }

  predicate CanTailMarker(s: State, q: nat) {
    Free(s, q) && HasCapacity(s.queues[q], 1)
  }

  predicate CanSyncFinish(s: State, q: nat, i: nat) {
    Free(s, q) && i < |s.queues[q].pendingSyncs|
    && IsZero(s.queues[q], s.events, SyncSignal(s.queues[q].pendingSyncs[i].completion))
  }

  predicate CanDestroyBegin(s: State, q: nat) {
    Free(s, q) && s.queues[q].lifecycle == Live
  }

  predicate CanDestroyPin(s: State, q: nat) {
    Free(s, q) && s.queues[q].lifecycle == Destroying && NoLaunchOn(s, q) && s.queues[q].synchronizers == 0
  }

  /** The tail marker finds no room, and nothing is left whose completion could make any. */
  predicate CanDestroyAbandon(s: State, q: nat) {
    Free(s, q) && s.queues[q].lifecycle == DestroyPinned && !HasCapacity(s.queues[q], 1)
    && s.queues[q].pendingDispatches == [] && s.queues[q].pendingEvents == []
  }

  predicate CanDestroyFinish(s: State, q: nat) {
    Free(s, q) && s.queues[q].lifecycle == DestroyPinned && s.queues[q].synchronizers == 1
    && s.queues[q].pendingBarriers == [] && s.queues[q].pendingDispatches == [] && s.queues[q].pendingEvents == []
  }

  function SetQueue(s: State, q: nat, x: Queue): State
    requires q < |s.queues|
  {
    s.(queues := s.queues[q := x])
  }

  function SetEvent(s: State, e: nat, x: Event): State
    requires e < |s.events|
  {
    s.(events := s.events[e := x])
  }

  function SetStage(s: State, t: nat, g: Stage): State
    requires t in s.launches
  {
    s.(launches := s.launches[t := s.launches[t].(stage := g)])
  }

  function NewQueueValue(size: nat): Queue {
    Queue(size, Gpu([], 0, {}), [], [], 0, [], [], [], [], [], [], [], [], [], map[], 0, Live, Unlocked)
  }

  function NewEventValue(): Event {
    Event(1, 0, {}, false, false, None, [], map[], 0, None)
  }

  function CompleteQueue(q: Queue, p: nat): Queue
    requires p < |q.gpu.log|
  {
    var marked := q.(gpu := q.gpu.(done := q.gpu.done + {p}));
    match q.gpu.log[p]
    case Dispatch(h, _, _) =>
      if h < |q.dispatchValues|
      then marked.(dispatchValues := q.dispatchValues[h := Decrement(q.dispatchValues[h])]) else marked
    case BarrierAnd(_, Some(SyncSignal(c))) =>
      if c < |q.syncValues|
      then marked.(syncValues := q.syncValues[c := Decrement(q.syncValues[c])]) else marked
    case _ => marked
  }

  function CompleteEvents(events: seq<Event>, p: Packet): seq<Event> {
    match p
    case BarrierAnd(_, Some(EventSignal(e))) =>
      if e < |events| then events[e := FinishEpoch(events[e])] else events
    case _ => events
  }

  function ReapBarrierQueue(q: Queue, i: nat): Queue
    requires i < |q.pendingBarriers|
  {
    q.(pendingBarriers := SwapRemove(q.pendingBarriers, i),
       active := ReleaseActive(q.active, q.pendingBarriers[i].dependencies))
  }

  /** Retire the oldest dispatch: hand it to the threads still waiting on its signal,
      or re-arm the signal and return both resources to the pools. */
  function ReapDispatchQueue(q: Queue): Queue
    requires q.pendingDispatches != []
  {
    var d := q.pendingDispatches[0];
    var q' := q.(pendingDispatches := q.pendingDispatches[1..]);
    if DispatchSignal(d.signal) in q.progressWaits
    then q'.(deferred := q.deferred + [d])
    else Recycle(q', d.signal, d.kernarg)
  }

  function FinishEventState(s: State, e: nat): State
    requires e < |s.events|
  {
    var ev := s.events[e];
    var s1 :=
      if ev.recorded.Some? && ev.recorded.value.queue < |s.queues| then
        var q := ev.recorded.value.queue;
        SetQueue(s, q, s.queues[q].(pendingEvents := DropEvent(s.queues[q].pendingEvents, e)))
      else s;
    var s2 := SetEvent(s1, e, ev.(pending := false, recorded := None, deps := []));
    s2.(events := DropRefs(s2.events, ev.deps))
  }

  function Arm(ev: Event): Event {
    ev.(signal := 1, epoch := ev.epoch + 1, pending := true, recording := None, depQueues := map[])
  }

  function WaitEndQueue(q: Queue, i: nat, j: nat): Queue
    requires i < |q.progressWaits| && j <= |q.deferred|
  {
    var left := RemoveAt(q.progressWaits, i);
    var q' := q.(progressWaits := left, synchronizers := Decrement(q.synchronizers));
    if q.progressWaits[i] !in left && j < |q.deferred|
    then Recycle(q'.(deferred := RemoveAt(q.deferred, j)), q.deferred[j].signal, q.deferred[j].kernarg)
    else q'
  }

  function DoNewQueue(s: State, size: nat): State {
    s.(queues := s.queues + [NewQueueValue(size)])
  }

  function DoNewEvent(s: State): State {
    s.(events := s.events + [NewEventValue()])
  }

  function DoGpuTake(s: State, q: nat): State
    requires CanGpuTake(s, q)
  {
    SetQueue(s, q, s.queues[q].(gpu := s.queues[q].gpu.(taken := s.queues[q].gpu.taken + 1)))
  }

  function DoGpuComplete(s: State, q: nat, p: nat): State
    requires CanGpuComplete(s, q, p)
  {
    SetQueue(s, q, CompleteQueue(s.queues[q], p)).(events := CompleteEvents(s.events, s.queues[q].gpu.log[p]))
  }

  function DoCopyDone(s: State, e: nat): State
    requires CanCopyDone(s, e)
  {
    SetEvent(s, e, FinishEpoch(s.events[e]))
  }

  function DoReapBarrier(s: State, q: nat, i: nat): State
    requires CanReapBarrier(s, q, i)
  {
    SetQueue(s, q, ReapBarrierQueue(s.queues[q], i))
    .(events := ReleaseAll(s.events, q, s.queues[q].pendingBarriers[i].dependencies))
  }

  function DoReapDispatch(s: State, q: nat): State
    requires CanReapDispatch(s, q)
  {
    SetQueue(s, q, ReapDispatchQueue(s.queues[q]))
  }

  function DoFinishEvent(s: State, e: nat): State
    requires CanFinishEvent(s, e)
  {
    FinishEventState(s, e)
  }

  function DoLaunchCollect(s: State, t: nat, q: nat, explicit: seq<nat>, deps: seq<nat>): State
    requires CanLaunchCollect(s, t, q, explicit, deps)
  {
    s.(launches := s.launches[t := Launch(q, Awaits(s, explicit), deps, deps != [], false, false, Collected)])
  }

  function DoDefaultCollect(s: State, t: nat, q: nat, explicit: seq<nat>, deps: seq<nat>, hasDeps: bool,
                            implicit: bool, k: nat): State
    requires CanDefaultCollect(s, t, q, explicit, deps, hasDeps, implicit, k)
  {
    SetQueue(s, q, Acquire(s.queues[q], t, k))
    .(launches := s.launches[t := Launch(q, Awaits(s, explicit), deps, hasDeps, implicit, true, Collected)])
  }

  function DoLaunchGate(s: State, t: nat, n: nat): State
    requires CanLaunchGate(s, t, n)
  {
    var q := s.launches[t].queue;
    var required := Chunks(n) + 1;
    if HasCapacity(s.queues[q], required)
    then SetStage(SetQueue(s, q, s.queues[q].(holder := ByLaunch(t))), t, Ready(required))
    else SetStage(s, t, Waiting(required))
  }

  function DoLaunchResume(s: State, t: nat): State
    requires CanLaunchResume(s, t)
  {
    var q := s.launches[t].queue;
    SetStage(SetQueue(s, q, s.queues[q].(holder := ByLaunch(t))), t, Ready(s.launches[t].stage.required))
  }

  function DoLaunchAcquire(s: State, t: nat, k: nat): State
    requires CanLaunchAcquire(s, t, k)
  {
    if s.launches[t].direct then SetStage(s, t, Registering(s.launches[t].deps))
    else
      var q := s.launches[t].queue;
      SetStage(SetQueue(s, q, Acquire(s.queues[q], t, k)), t, Scanning(s.launches[t].deps, []))
  }

  function DoLaunchScan(s: State, t: nat): State
    requires CanLaunchScan(s, t)
  {
    var g := s.launches[t].stage;
    if g.rest == [] then SetStage(s, t, Registering(g.found))
    else if NeedsBarrier(LaunchQueue(s, t), s.events, g.rest[0])
    then SetStage(s, t, Scanning(g.rest[1..], g.found + [g.rest[0]]))
    else SetStage(s, t, Scanning(g.rest[1..], g.found))
  }

  function DoLaunchBarrier(s: State, t: nat, i: nat): State
    requires CanLaunchBarrier(s, t, i)
  {
    var q := s.launches[t].queue;
    var todo := s.launches[t].stage.todo;
    SetStage(SetQueue(s, q,
      PublishDependencies(s.queues[q], DispatchSignal(s.queues[q].inFlight[i].signal), Head(todo))),
      t, Registering(Rest(todo)))
    .(events := RetainAll(s.events, q, Head(todo)))
  }

  function DoLaunchDispatch(s: State, t: nat, i: nat): State
    requires CanLaunchDispatch(s, t, i)
  {
    var l := s.launches[t];
    var x := s.queues[l.queue];
    var f := x.inFlight[i];
    var bit := x.pendingDispatches != [] || (if l.implicit then x.pendingBarriers != [] else l.hasDeps);
    SetQueue(s, l.queue,
      Append(x, Dispatch(f.signal, bit, l.awaits))
      .(pendingDispatches := x.pendingDispatches + [PendingDispatch(f.signal, f.kernarg, |x.gpu.log|)],
        inFlight := RemoveAt(x.inFlight, i), holder := Unlocked))
    .(launches := s.launches - {t})
  }

  function DoLaunchFail(s: State, t: nat, i: nat): State
    requires CanLaunchFail(s, t, i)
  {
    var q := s.launches[t].queue;
    var x := s.queues[q];
    SetQueue(s, q, x.(signalPool := x.signalPool + [x.inFlight[i].signal],
                      kernargPool := x.kernargPool + [x.inFlight[i].kernarg],
                      inFlight := RemoveAt(x.inFlight, i),
                      holder := if Holds(s, t) then Unlocked else x.holder))
    .(launches := s.launches - {t})
  }

  function DoLaunchAbandon(s: State, t: nat): State
    requires CanLaunchAbandon(s, t)
  {
    var q := s.launches[t].queue;
    SetQueue(s, q, s.queues[q].(holder := if Holds(s, t) then Unlocked else s.queues[q].holder))
    .(launches := s.launches - {t})
  }

  function DoRecordBegin(s: State, e: nat, q: nat, deps: seq<nat>, onDefault: bool): State
    requires CanRecordBegin(s, e, q, deps, onDefault)
  {
    SetEvent(s, e, s.events[e].(recording := Some(Recording(q, deps))))
  }

  function DoRecordLock(s: State, e: nat): State
    requires CanRecordLock(s, e)
  {
    var r := s.events[e].recording.value;
    SetQueue(s, r.queue, s.queues[r.queue].(holder := ByRecord(e, r.deps)))
  }

  function DoRecordBarrier(s: State, q: nat): State
    requires CanRecordBarrier(s, q)
  {
    var h := s.queues[q].holder;
    SetQueue(s, q, PublishDependencies(s.queues[q], EventSignal(h.event), Head(h.todo))
                   .(holder := ByRecord(h.event, Rest(h.todo))))
    .(events := RetainAll(s.events, q, Head(h.todo)))
  }

  function DoRecordMarker(s: State, q: nat): State
    requires CanRecordMarker(s, q)
  {
    var e := s.queues[q].holder.event;
    var x := s.queues[q];
    SetEvent(
      SetQueue(s, q, Append(x, BarrierAnd([], Some(EventSignal(e))))
                     .(pendingEvents := x.pendingEvents + [e], holder := Unlocked)),
      e, Arm(s.events[e]).(copy := false, recorded := Some(Record(q, |x.gpu.log|))))
  }

  function DoRecordAbandon(s: State, e: nat): State
    requires CanRecordAbandon(s, e)
  {
    SetEvent(s, e, s.events[e].(recording := None))
  }

  function DoCopySubmit(s: State, e: nat, deps: seq<nat>): State
    requires CanCopySubmit(s, e, deps)
  {
    s.(events := AddRefs(s.events[e := Arm(s.events[e]).(copy := true, recorded := None, deps := deps)], deps))
  }

  function DoEventWaitBegin(s: State, w: nat, e: nat): State
    requires CanEventWaitBegin(s, w, e)
  {
    var q := match s.events[e].recorded case Some(r) => Some(r.queue) case None => None;
    var s1 := s.(waits := s.waits[w := Wait(e, s.events[e].epoch, q)]);
    if q.Some? && q.value < |s.queues|
    then SetQueue(s1, q.value, s.queues[q.value].(synchronizers := s.queues[q.value].synchronizers + 1)) else s1
  }

  function DoEventWaitEnd(s: State, w: nat): State
    requires CanEventWaitEnd(s, w)
  {
    var q := s.waits[w].queue;
    var s1 := s.(waits := s.waits - {w});
    if q.Some? && q.value < |s.queues|
    then SetQueue(s1, q.value, s.queues[q.value].(synchronizers := Decrement(s.queues[q.value].synchronizers))) else s1
  }

  function DoWaitBegin(s: State, q: nat): State
    requires CanWaitBegin(s, q)
  {
    var x := s.queues[q];
    var sig := if x.pendingDispatches != [] then DispatchSignal(x.pendingDispatches[0].signal)
               else EventSignal(x.pendingEvents[0]);
    SetQueue(s, q, x.(progressWaits := x.progressWaits + [sig], synchronizers := x.synchronizers + 1))
  }

  function DoWaitEnd(s: State, q: nat, i: nat, j: nat): State
    requires CanWaitEnd(s, q, i, j)
  {
    SetQueue(s, q, WaitEndQueue(s.queues[q], i, j))
  }

  function DoSyncBegin(s: State, q: nat, signals: seq<Signal>): State
    requires CanSyncBegin(s, q, signals)
  {
    var x := s.queues[q];
    SetQueue(s, q, x.(syncValues := x.syncValues + [Chunks(|signals|)],
                      holder := BySync(|x.syncValues|, signals, Signals(x.pendingDispatches))))
  }

  function DoSyncBarrier(s: State, q: nat): State
    requires CanSyncBarrier(s, q)
  {
    var h := s.queues[q].holder;
    SetQueue(s, q, PublishSync(s.queues[q], h.completion, Head(h.signals))
                   .(holder := h.(signals := Rest(h.signals))))
    .(events := RetainAll(s.events, q, EventsIn(Head(h.signals))))
  }

  function DoSyncEnd(s: State, q: nat): State
    requires CanSyncEnd(s, q)
  {
    var x := s.queues[q];
    SetQueue(s, q, x.(pendingSyncs := x.pendingSyncs + [PendingSync(x.holder.completion, x.holder.dispatchDeps)],
                      synchronizers := x.synchronizers + 1, holder := Unlocked))
  }

  function DoTailMarker(s: State, q: nat): State
    requires CanTailMarker(s, q)
  {
    var x := s.queues[q];
    var c := |x.syncValues|;
    SetQueue(s, q, PublishSync(x, c, [])
                   .(syncValues := x.syncValues + [1],
                     pendingSyncs := x.pendingSyncs + [PendingSync(c, [])],
                     synchronizers := x.synchronizers + 1))
  }

  function DoSyncFinish(s: State, q: nat, i: nat): State
    requires CanSyncFinish(s, q, i)
  {
    var x := s.queues[q];
    SetQueue(s, q, x.(pendingSyncs := RemoveAt(x.pendingSyncs, i), synchronizers := Decrement(x.synchronizers)))
  }

  function DoDestroyBegin(s: State, q: nat): State
    requires CanDestroyBegin(s, q)
  {
    SetQueue(s, q, s.queues[q].(lifecycle := Destroying))
  }

  function DoDestroyPin(s: State, q: nat): State
    requires CanDestroyPin(s, q)
  {
    SetQueue(s, q, s.queues[q].(lifecycle := DestroyPinned, synchronizers := 1))
  }

  function DoDestroyAbandon(s: State, q: nat): State
    requires CanDestroyAbandon(s, q)
  {
    SetQueue(s, q, s.queues[q].(lifecycle := Live, synchronizers := Decrement(s.queues[q].synchronizers)))
  }

  function DoDestroyFinish(s: State, q: nat): State
    requires CanDestroyFinish(s, q)
  {
    SetQueue(s, q, s.queues[q].(lifecycle := Destroyed, synchronizers := 0))
  }

  predicate DeviceEnabled(s: State, a: DeviceStep) {
    match a
    case NewQueue(_) => true
    case NewEvent => true
    case GpuTake(q) => CanGpuTake(s, q)
    case GpuComplete(q, p) => CanGpuComplete(s, q, p)
    case CopyDone(e) => CanCopyDone(s, e)
  }

  function DeviceApply(s: State, a: DeviceStep): State
    requires DeviceEnabled(s, a)
  {
    match a
    case NewQueue(size) => DoNewQueue(s, size)
    case NewEvent => DoNewEvent(s)
    case GpuTake(q) => DoGpuTake(s, q)
    case GpuComplete(q, p) => DoGpuComplete(s, q, p)
    case CopyDone(e) => DoCopyDone(s, e)
  }

  predicate ReapEnabled(s: State, a: ReapStep) {
    match a
    case ReapBarrier(q, i) => CanReapBarrier(s, q, i)
    case ReapDispatch(q) => CanReapDispatch(s, q)
    case FinishEvent(e) => CanFinishEvent(s, e)
    case WaitBegin(q) => CanWaitBegin(s, q)
    case WaitEnd(q, i, j) => CanWaitEnd(s, q, i, j)
    case EventWaitBegin(w, e) => CanEventWaitBegin(s, w, e)
    case EventWaitEnd(w) => CanEventWaitEnd(s, w)
  }

  function ReapApply(s: State, a: ReapStep): State
    requires ReapEnabled(s, a)
  {
    match a
    case ReapBarrier(q, i) => DoReapBarrier(s, q, i)
    case ReapDispatch(q) => DoReapDispatch(s, q)
    case FinishEvent(e) => DoFinishEvent(s, e)
    case WaitBegin(q) => DoWaitBegin(s, q)
    case WaitEnd(q, i, j) => DoWaitEnd(s, q, i, j)
    case EventWaitBegin(w, e) => DoEventWaitBegin(s, w, e)
    case EventWaitEnd(w) => DoEventWaitEnd(s, w)
  }

  predicate LaunchingEnabled(s: State, a: LaunchStep) {
    match a
    case LaunchCollect(t, q, explicit, deps) => CanLaunchCollect(s, t, q, explicit, deps)
    case DefaultCollect(t, q, explicit, deps, hasDeps, implicit, k) =>
      CanDefaultCollect(s, t, q, explicit, deps, hasDeps, implicit, k)
    case LaunchGate(t, n) => CanLaunchGate(s, t, n)
    case LaunchResume(t) => CanLaunchResume(s, t)
    case LaunchAcquire(t, k) => CanLaunchAcquire(s, t, k)
    case LaunchScan(t) => CanLaunchScan(s, t)
    case LaunchBarrier(t, i) => CanLaunchBarrier(s, t, i)
    case LaunchDispatch(t, i) => CanLaunchDispatch(s, t, i)
    case LaunchFail(t, i) => CanLaunchFail(s, t, i)
    case LaunchAbandon(t) => CanLaunchAbandon(s, t)
  }

  function LaunchingApply(s: State, a: LaunchStep): State
    requires LaunchingEnabled(s, a)
  {
    match a
    case LaunchCollect(t, q, explicit, deps) => DoLaunchCollect(s, t, q, explicit, deps)
    case DefaultCollect(t, q, explicit, deps, hasDeps, implicit, k) =>
      DoDefaultCollect(s, t, q, explicit, deps, hasDeps, implicit, k)
    case LaunchGate(t, n) => DoLaunchGate(s, t, n)
    case LaunchResume(t) => DoLaunchResume(s, t)
    case LaunchAcquire(t, k) => DoLaunchAcquire(s, t, k)
    case LaunchScan(t) => DoLaunchScan(s, t)
    case LaunchBarrier(t, i) => DoLaunchBarrier(s, t, i)
    case LaunchDispatch(t, i) => DoLaunchDispatch(s, t, i)
    case LaunchFail(t, i) => DoLaunchFail(s, t, i)
    case LaunchAbandon(t) => DoLaunchAbandon(s, t)
  }

  predicate RecordingEnabled(s: State, a: RecordStep) {
    match a
    case RecordBegin(e, q, deps, onDefault) => CanRecordBegin(s, e, q, deps, onDefault)
    case RecordLock(e) => CanRecordLock(s, e)
    case RecordBarrier(q) => CanRecordBarrier(s, q)
    case RecordMarker(q) => CanRecordMarker(s, q)
    case RecordAbandon(e) => CanRecordAbandon(s, e)
    case CopySubmit(e, deps) => CanCopySubmit(s, e, deps)
  }

  function RecordingApply(s: State, a: RecordStep): State
    requires RecordingEnabled(s, a)
  {
    match a
    case RecordBegin(e, q, deps, onDefault) => DoRecordBegin(s, e, q, deps, onDefault)
    case RecordLock(e) => DoRecordLock(s, e)
    case RecordBarrier(q) => DoRecordBarrier(s, q)
    case RecordMarker(q) => DoRecordMarker(s, q)
    case RecordAbandon(e) => DoRecordAbandon(s, e)
    case CopySubmit(e, deps) => DoCopySubmit(s, e, deps)
  }

  predicate SyncingEnabled(s: State, a: SyncStep) {
    match a
    case SyncBegin(q, signals) => CanSyncBegin(s, q, signals)
    case SyncBarrier(q) => CanSyncBarrier(s, q)
    case SyncEnd(q) => CanSyncEnd(s, q)
    case TailMarker(q) => CanTailMarker(s, q)
    case SyncFinish(q, i) => CanSyncFinish(s, q, i)
    case DestroyBegin(q) => CanDestroyBegin(s, q)
    case DestroyPin(q) => CanDestroyPin(s, q)
    case DestroyAbandon(q) => CanDestroyAbandon(s, q)
    case DestroyFinish(q) => CanDestroyFinish(s, q)
  }

  function SyncingApply(s: State, a: SyncStep): State
    requires SyncingEnabled(s, a)
  {
    match a
    case SyncBegin(q, signals) => DoSyncBegin(s, q, signals)
    case SyncBarrier(q) => DoSyncBarrier(s, q)
    case SyncEnd(q) => DoSyncEnd(s, q)
    case TailMarker(q) => DoTailMarker(s, q)
    case SyncFinish(q, i) => DoSyncFinish(s, q, i)
    case DestroyBegin(q) => DoDestroyBegin(s, q)
    case DestroyPin(q) => DoDestroyPin(s, q)
    case DestroyAbandon(q) => DoDestroyAbandon(s, q)
    case DestroyFinish(q) => DoDestroyFinish(s, q)
  }

  predicate Enabled(s: State, a: Step) {
    match a
    case ByDevice(x) => DeviceEnabled(s, x)
    case ByReap(x) => ReapEnabled(s, x)
    case ByLaunching(x) => LaunchingEnabled(s, x)
    case ByRecording(x) => RecordingEnabled(s, x)
    case BySyncing(x) => SyncingEnabled(s, x)
  }

  function Apply(s: State, a: Step): State
    requires Enabled(s, a)
  {
    match a
    case ByDevice(x) => DeviceApply(s, x)
    case ByReap(x) => ReapApply(s, x)
    case ByLaunching(x) => LaunchingApply(s, x)
    case ByRecording(x) => RecordingApply(s, x)
    case BySyncing(x) => SyncingApply(s, x)
  }

  function Init(): State {
    State([], [], map[], map[])
  }
}
