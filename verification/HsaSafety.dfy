/** Re-arming, reservation, counting and destruction, for every step of every run. */
module HsaSafety {
  import opened Common
  import opened HsaState
  import opened HsaSteps
  import opened HsaInvariant
  import opened HsaFrame
  import opened HsaAccounting
  import opened HsaRuns
  import opened HsaProgress
  import opened HsaTheorems
  import HsaReapSteps
  import HsaRecordSteps
  import HsaSyncSteps

  // ------------------------------------------------------- re-arming an event

  /** Nothing the hardware may still read, and no call in flight, refers to the event. */
  ghost predicate Untouched(s: State, e: nat)
    requires e < |s.events|
  {
    && !s.events[e].pending
    && (s.events[e].epoch == 0 || s.events[e].signal == 0)
    && (forall t :: t in s.launches ==> e !in s.launches[t].deps)
    && (forall w :: w in s.waits ==> s.waits[w].event != e)
    && Unlisted(s.events, e)
    && (forall x :: 0 <= x < |s.events| && s.events[x].recording.Some? ==> e !in s.events[x].recording.value.deps)
    && (forall q :: 0 <= q < |s.queues| ==> QueueIgnores(s.queues[q], e))
  }

  ghost predicate QueueIgnores(q: Queue, e: nat) {
    && EventSignal(e) !in q.progressWaits
    && (forall i :: 0 <= i < |q.pendingBarriers| ==> e !in q.pendingBarriers[i].dependencies)
    && (forall p: nat :: p < |q.gpu.log| && p !in q.gpu.done && q.gpu.log[p].BarrierAnd? ==>
          EventSignal(e) !in q.gpu.log[p].deps && q.gpu.log[p].completed != Some(EventSignal(e)))
  }

  lemma IgnoredBy(qi: nat, q: Queue, events: Events, e: nat)
    requires CountsOk(qi, q.pendingBarriers, q.active, events) && NamesOk(q.gpu.log, q.gpu.done, q.pendingBarriers)
    requires MarkersOk(qi, q.gpu.log, q.gpu.done, q.pendingEvents, events)
    requires e < |events| && events[e].depQueues == map[] && !events[e].pending
    requires EventSignal(e) !in q.progressWaits
    ensures QueueIgnores(q, e)
  {
    forall i | 0 <= i < |q.pendingBarriers| ensures e !in q.pendingBarriers[i].dependencies {
      HsaRecordSteps.Unretained(qi, q, events, e, i);
    }
    forall p: nat | p < |q.gpu.log| && p !in q.gpu.done && q.gpu.log[p].BarrierAnd?
      ensures EventSignal(e) !in q.gpu.log[p].deps && q.gpu.log[p].completed != Some(EventSignal(e))
    {
      assert EventSignal(e) in q.gpu.log[p].deps ==> Names(q.pendingBarriers, p, e);
      assert q.gpu.log[p].completed == Some(EventSignal(e)) ==> MarkerOk(qi, q.gpu.log, q.gpu.done, events, e);
    }
  }

  lemma ColdIsUntouched(s: State, e: nat, q: nat)
    requires Inv(s) && e < |s.events| && Cold(s, None, q, {e}) && s.events[e].depQueues == map[] && !s.events[e].pending
    requires Unlisted(s.events, e)
    ensures Untouched(s, e)
  {
    hide QueueIgnores, LaunchGood;
    assert EventGood(s, e);
    forall k | 0 <= k < |s.queues| ensures QueueIgnores(s.queues[k], e) {
      assert EventSignal(e) !in s.queues[k].progressWaits;
      QueueIsOk(s, k);
      IgnoredBy(k, s.queues[k], s.events, e);
    }
  }

  lemma MarkerUntouched(s: State, q: nat)
    requires Good(s) && CanRecordMarker(s, q)
    ensures Untouched(s, s.queues[q].holder.event)
  {
    hide QueueGood, LaunchGood, EventGood, Cold, Untouched, RefsOk, PinsOk, Unlisted;
    var e := s.queues[q].holder.event;
    HsaRecordSteps.MarkerRearms(s, q);
    HsaRecordSteps.HolderRecords(s, q);
    NotListed(s.events, |s.queues|, e);
    HsaRecordSteps.RecordingIsCold(s, e, q);
    ColdIsUntouched(s, e, q);
  }

  lemma CopyUntouched(s: State, e: nat, deps: seq<nat>)
    requires Good(s) && CanCopySubmit(s, e, deps)
    ensures Untouched(s, e)
  {
    hide Inv, Cold, Untouched, PinsOk, RefsOk, Unlisted;
    NoRefs(s, e);
    NotListed(s.events, |s.queues|, e);
    HsaRecordSteps.IdleIsCold(s, e, 0);
    ColdIsUntouched(s, e, 0);
  }

  lemma EpochsOfReap(s: State, a: ReapStep, e: nat)
    requires ReapEnabled(s, a) && e < |s.events|
    ensures e < |ReapApply(s, a).events| && ReapApply(s, a).events[e].epoch == s.events[e].epoch
    ensures s.events[e].pending && !ReapApply(s, a).events[e].pending ==> CanFinishEvent(s, e)
  {
    hide IsZero, SyncNames, RetiresOn, ReapDispatchQueue, WaitEndQueue, ReapBarrierQueue;
  }

  lemma EpochsOfRecording(s: State, a: RecordStep, e: nat)
    requires RecordingEnabled(s, a) && e < |s.events|
    ensures e < |RecordingApply(s, a).events|
    ensures RecordingApply(s, a).events[e].epoch != s.events[e].epoch ==>
      (a.RecordMarker? && s.queues[a.q].holder.event == e) || (a.CopySubmit? && a.e == e)
    ensures s.events[e].pending ==> RecordingApply(s, a).events[e].pending
  {
  }

  lemma EpochsOfOthers(s: State, a: Step, e: nat)
    requires Enabled(s, a) && e < |s.events| && (a.ByDevice? || a.ByLaunching? || a.BySyncing?)
    ensures e < |Apply(s, a).events| && Apply(s, a).events[e].epoch == s.events[e].epoch
    ensures s.events[e].pending ==> Apply(s, a).events[e].pending
  {
    match a
    case ByDevice(x) => EpochsOfDevice(s, x, e);
    case ByLaunching(x) => EpochsOfLaunching(s, x, e);
    case BySyncing(x) => EpochsOfSyncing(s, x, e);
  }

  lemma EpochsOfDevice(s: State, a: DeviceStep, e: nat)
    requires DeviceEnabled(s, a) && e < |s.events|
    ensures e < |DeviceApply(s, a).events| && DeviceApply(s, a).events[e].epoch == s.events[e].epoch
    ensures s.events[e].pending ==> DeviceApply(s, a).events[e].pending
  {
    if a.GpuComplete? { CompleteEpochs(s.events, s.queues[a.q].gpu.log[a.p], e); }
  }

  lemma CompleteEpochs(events: Events, p: Packet, e: nat)
    requires e < |events|
    ensures e < |CompleteEvents(events, p)| && CompleteEvents(events, p)[e].epoch == events[e].epoch
    ensures CompleteEvents(events, p)[e].pending == events[e].pending
  {
  }

  lemma EpochsOfLaunching(s: State, a: LaunchStep, e: nat)
    requires LaunchingEnabled(s, a) && e < |s.events|
    ensures e < |LaunchingApply(s, a).events| && LaunchingApply(s, a).events[e].epoch == s.events[e].epoch
    ensures s.events[e].pending ==> LaunchingApply(s, a).events[e].pending
  {
    hide Acquire, RetainActive, HasCapacity, CanLaunchCollect, Awaits;
  }

  lemma EpochsOfSyncing(s: State, a: SyncStep, e: nat)
    requires SyncingEnabled(s, a) && e < |s.events|
    ensures e < |SyncingApply(s, a).events| && SyncingApply(s, a).events[e].epoch == s.events[e].epoch
    ensures s.events[e].pending ==> SyncingApply(s, a).events[e].pending
  {
  }

  lemma RearmSafe(s: State, a: Step, e: nat)
    requires Good(s) && Enabled(s, a) && e < |s.events|
    ensures e < |Apply(s, a).events|
    ensures Apply(s, a).events[e].epoch != s.events[e].epoch ==> Untouched(s, e)
    ensures s.events[e].pending && !Apply(s, a).events[e].pending ==> CanFinishEvent(s, e)
  {
    hide Inv, Accounted, Untouched, CanFinishEvent;
    match a
    case ByReap(x) => EpochsOfReap(s, x, e);
    case ByRecording(x) =>
      EpochsOfRecording(s, x, e);
      if RecordingApply(s, x).events[e].epoch != s.events[e].epoch {
        if x.RecordMarker? { MarkerUntouched(s, x.q); } else { CopyUntouched(s, e, x.deps); }
      }
    case _ => EpochsOfOthers(s, a, e);
  }

  /** An event is re-armed only when its previous recording has completed and nothing
      refers to it: no launch, no waiting thread, no record in progress, no pending copy,
      no pending barrier, and no packet on any queue that the packet processor has not finished with. */
  lemma EventRearmSafe(s: State, a: Step, e: nat)
    requires Reachable(s) && Enabled(s, a) && e < |s.events|
    ensures e < |Apply(s, a).events|
    ensures Apply(s, a).events[e].epoch != s.events[e].epoch ==> Untouched(s, e)
  {
    hide Reachable, Inv, Accounted, Untouched, Apply, Enabled;
    ReachableGood(s);
    RearmSafe(s, a, e);
  }

  /** A recording that has not completed stays current and pending until it completes. */
  lemma UnfinishedStays(s: State, a: Step, e: nat)
    requires Good(s) && Enabled(s, a) && e < |s.events|
    requires s.events[e].pending && s.events[e].epoch !in s.events[e].finished
    ensures e < |Apply(s, a).events|
    ensures Apply(s, a).events[e].pending && Apply(s, a).events[e].epoch == s.events[e].epoch
  {
    hide QueueGood, LaunchGood, Accounted, Apply, Enabled;
    RearmSafe(s, a, e);
    assert EventGood(s, e);
  }

  // --------------------------------------------------------------- reservations

  /** A launch keeps its queue, its list and its dependencies until it is gone. */
  lemma LaunchStable(s: State, a: Step, t: nat)
    requires Enabled(s, a) && t in s.launches && t in Apply(s, a).launches
    ensures Apply(s, a).launches[t] == s.launches[t].(stage := Apply(s, a).launches[t].stage)
  {
    match a
    case ByLaunching(x) => LaunchStableOwn(s, x, t);
    case ByDevice(x) => DeviceLaunches(s, x);
    case ByReap(x) => ReapLaunches(s, x);
    case ByRecording(x) => RecordingLaunches(s, x);
    case BySyncing(x) => SyncingLaunches(s, x);
  }

  lemma DeviceLaunches(s: State, a: DeviceStep)
    requires DeviceEnabled(s, a)
    ensures DeviceApply(s, a).launches == s.launches
  {
  }

  lemma ReapLaunches(s: State, a: ReapStep)
    requires ReapEnabled(s, a)
    ensures ReapApply(s, a).launches == s.launches
  {
  }

  lemma RecordingLaunches(s: State, a: RecordStep)
    requires RecordingEnabled(s, a)
    ensures RecordingApply(s, a).launches == s.launches
  {
  }

  lemma SyncingLaunches(s: State, a: SyncStep)
    requires SyncingEnabled(s, a)
    ensures SyncingApply(s, a).launches == s.launches
  {
  }

  lemma LaunchStableOwn(s: State, a: LaunchStep, t: nat)
    requires LaunchingEnabled(s, a) && t in s.launches && t in LaunchingApply(s, a).launches
    ensures LaunchingApply(s, a).launches[t] == s.launches[t].(stage := LaunchingApply(s, a).launches[t].stage)
  {
    if a.LaunchGate? || a.LaunchResume? || a.LaunchAcquire? {
      StableGate(s, a, t);
    } else if a.LaunchScan? || a.LaunchBarrier? {
      StableRegister(s, a, t);
    } else {
      StableEnds(s, a, t);
    }
  }

  lemma StableGate(s: State, a: LaunchStep, t: nat)
    requires LaunchingEnabled(s, a) && t in s.launches && (a.LaunchGate? || a.LaunchResume? || a.LaunchAcquire?)
    ensures t in LaunchingApply(s, a).launches
    ensures LaunchingApply(s, a).launches[t] == s.launches[t].(stage := LaunchingApply(s, a).launches[t].stage)
  {
    hide Acquire, HasCapacity, Chunks, Bound;
  }

  lemma StableRegister(s: State, a: LaunchStep, t: nat)
    requires LaunchingEnabled(s, a) && t in s.launches && (a.LaunchScan? || a.LaunchBarrier?)
    ensures t in LaunchingApply(s, a).launches
    ensures LaunchingApply(s, a).launches[t] == s.launches[t].(stage := LaunchingApply(s, a).launches[t].stage)
  {
    hide NeedsBarrier, PublishDependencies, RetainAll;
  }

  lemma StableEnds(s: State, a: LaunchStep, t: nat)
    requires LaunchingEnabled(s, a) && t in s.launches && t in LaunchingApply(s, a).launches
    requires a.LaunchCollect? || a.DefaultCollect? || a.LaunchDispatch? || a.LaunchFail? || a.LaunchAbandon?
    ensures LaunchingApply(s, a).launches[t] == s.launches[t]
  {
  }

  /** A queue drops its last reference to an event only when the event has completed. */
  lemma ActiveDrops(s: State, a: Step, q: nat, e: nat)
    requires Inv(s) && Enabled(s, a) && q < |s.queues| && q < |Apply(s, a).queues| && e < |s.events|
    requires e < |Apply(s, a).events|
    requires e in s.queues[q].active && e !in Apply(s, a).queues[q].active
    ensures Apply(s, a).events[e].signal == 0
  {
    hide Inv;
    match a
    case ByReap(x) => ActiveReap(s, x, q, e);
    case ByDevice(x) => ActiveDevice(s, x, q);
    case ByLaunching(x) => ActiveLaunching(s, x, q);
    case ByRecording(x) => ActiveRecording(s, x, q);
    case BySyncing(x) => ActiveSyncing(s, x, q);
  }

  lemma ActiveReap(s: State, a: ReapStep, q: nat, e: nat)
    requires Inv(s) && ReapEnabled(s, a) && q < |s.queues| && q < |ReapApply(s, a).queues|
    requires e < |s.events| && e < |ReapApply(s, a).events|
    requires e in s.queues[q].active && e !in ReapApply(s, a).queues[q].active
    ensures ReapApply(s, a).events[e].signal == 0
  {
    hide Inv, SyncNames, RetiresOn, ReleaseActive, ReleaseAll, SwapRemove, IsZero, DropRefs, RemoveAt;
    if a.ReapBarrier? && a.q == q { ActiveReapBarrier(s, q, a.i, e); }
  }

  lemma ActiveReapBarrier(s: State, q: nat, i: nat, e: nat)
    requires Inv(s) && CanReapBarrier(s, q, i) && e < |s.events|
    requires e in s.queues[q].active && e !in ReapBarrierQueue(s.queues[q], i).active
    ensures ReleaseAll(s.events, q, s.queues[q].pendingBarriers[i].dependencies)[e].signal == 0
  {
    hide QueueGood, LaunchGood, EventGood, LogOk, NamesOk, CoverOk, AwaitsOk;
    QueueIsOk(s, q);
    HsaReapSteps.RetiredIsDone(q, s.queues[q], s.events, i);
    HsaReapSteps.ReapLaunches(q, s.queues[q], s.events, |s.queues|, i);
  }

  lemma ActiveDevice(s: State, a: DeviceStep, q: nat)
    requires DeviceEnabled(s, a) && q < |s.queues|
    ensures q < |DeviceApply(s, a).queues| && DeviceApply(s, a).queues[q].active == s.queues[q].active
  {
  }

  lemma ActiveLaunching(s: State, a: LaunchStep, q: nat)
    requires LaunchingEnabled(s, a) && q < |s.queues|
    ensures q < |LaunchingApply(s, a).queues|
    ensures forall e :: e in s.queues[q].active ==> e in LaunchingApply(s, a).queues[q].active
  {
    hide Awaits, HasCapacity;
  }

  lemma ActiveRecording(s: State, a: RecordStep, q: nat)
    requires RecordingEnabled(s, a) && q < |s.queues|
    ensures q < |RecordingApply(s, a).queues|
    ensures forall e :: e in s.queues[q].active ==> e in RecordingApply(s, a).queues[q].active
  {
  }

  lemma ActiveSyncing(s: State, a: SyncStep, q: nat)
    requires SyncingEnabled(s, a) && q < |s.queues|
    ensures q < |SyncingApply(s, a).queues|
    ensures forall e :: e in s.queues[q].active ==> e in SyncingApply(s, a).queues[q].active
  {
    hide HasCapacity;
  }

  /** The barrier packets a launch needs only shrink, whatever else happens while it waits
      for capacity with no lock held. */
  lemma NeedShrinks(s: State, a: Step, t: nat)
    requires Reachable(s) && Enabled(s, a) && t in s.launches && t in Apply(s, a).launches
    ensures s.launches[t].queue < |s.queues| && s.launches[t].queue < |Apply(s, a).queues|
    ensures |Filter(Apply(s, a).queues[s.launches[t].queue], Apply(s, a).events, s.launches[t].deps)|
         <= |Filter(s.queues[s.launches[t].queue], s.events, s.launches[t].deps)|
  {
    hide Reachable, Apply, Enabled, Accounted, QueueGood, LaunchOk, QueueAdvances;
    var s' := Apply(s, a);
    ReachableGood(s);
    assert LaunchGood(s, t);
    KeepStep(s, a);
    StepAdvances(s, a);
    var q := s.launches[t].queue;
    forall e | e in s.launches[t].deps && NeedsBarrier(s'.queues[q], s'.events, e)
      ensures NeedsBarrier(s.queues[q], s.events, e) {
      NeedStays(s, a, t, e);
    }
    FilterShrinks(s.queues[q], s.events, s'.queues[q], s'.events, s.launches[t].deps);
  }

  lemma NeedStays(s: State, a: Step, t: nat, e: nat)
    requires Reachable(s) && Enabled(s, a) && Good(s) && Good(Apply(s, a)) && t in s.launches && e in s.launches[t].deps
    requires Advances(s, Apply(s, a)) && s.launches[t].queue < |s.queues|
    requires NeedsBarrier(Apply(s, a).queues[s.launches[t].queue], Apply(s, a).events, e)
    ensures NeedsBarrier(s.queues[s.launches[t].queue], s.events, e)
  {
    hide Reachable, Apply, Enabled, Accounted, QueueGood, QueueAdvances;
    var s' := Apply(s, a);
    var q := s.launches[t].queue;
    assert LaunchGood(s, t);
    assert Pinned(s.events, e);
    EventRearmSafe(s, a, e);
    assert EventGood(s, e) && EventGood(s', e);
    assert EventAdvances(s.events[e], s'.events[e]);
    if e in s.queues[q].active { ActiveDrops(s, a, q, e); }
  }

  /** What was reserved at the gate covers what is left to publish. */
  lemma ReservationCovers(s: State, t: nat)
    requires Reachable(s) && t in s.launches
    ensures s.launches[t].queue < |s.queues|
    ensures var q, g, deps := s.queues[s.launches[t].queue], s.launches[t].stage, s.launches[t].deps;
      && (g.Waiting? && !s.launches[t].direct ==> Chunks(|Filter(q, s.events, deps)|) + 1 <= g.required)
      && (g.Ready? && !s.launches[t].direct ==> HasCapacity(q, Chunks(|Filter(q, s.events, deps)|) + 1))
      && (g.Registering? ==> HasCapacity(q, Chunks(|g.todo|) + 1))
  {
    hide Reachable, Accounted, QueueGood, EventGood, Guarded;
    ReachableGood(s);
    assert LaunchGood(s, t);
  }

  // --------------------------------------------------------- completion signals

  lemma Pooled(q: Queue, h: nat)
    requires Conserved(q) && h in q.signalPool
    ensures h !in Signals(q.pendingDispatches) && h !in Signals(q.deferred) && h !in FlightSignals(q.inFlight)
  {
    assert SignalBag(q)[h] <= 1;
    assert multiset(q.signalPool)[h] >= 1;
    assert multiset(Signals(q.pendingDispatches))[h] == 0;
    assert multiset(Signals(q.deferred))[h] == 0;
    assert multiset(FlightSignals(q.inFlight))[h] == 0;
  }

  /** A pooled completion signal is armed, and no waiting thread, no unfinished barrier
      packet, no dispatch and no launch uses it. */
  lemma PooledIsUnused(s: State, q: nat, h: nat)
    requires Reachable(s) && q < |s.queues| && h in s.queues[q].signalPool
    ensures h < |s.queues[q].dispatchValues| && s.queues[q].dispatchValues[h] == 1
    ensures DispatchSignal(h) !in s.queues[q].progressWaits
    ensures h !in Signals(s.queues[q].pendingDispatches) && h !in Signals(s.queues[q].deferred)
    ensures h !in FlightSignals(s.queues[q].inFlight)
    ensures forall p: nat ::
      p < |s.queues[q].gpu.log| && p !in s.queues[q].gpu.done && s.queues[q].gpu.log[p].BarrierAnd? ==>
      DispatchSignal(h) !in s.queues[q].gpu.log[p].deps
  {
    hide Reachable, Good, BarrierSide, EventSide, SyncOk;
    var x := s.queues[q];
    ReachableQueue(s, q);
    Pooled(x, h);
    forall p: nat | p < |x.gpu.log| && p !in x.gpu.done && x.gpu.log[p].BarrierAnd?
      ensures DispatchSignal(h) !in x.gpu.log[p].deps {
      assert DispatchSignal(h) in x.gpu.log[p].deps ==> Pending(x.pendingDispatches, h, p);
      assert Pending(x.pendingDispatches, h, p) ==>
        h in Signals(x.pendingDispatches) by { PendingSignal(x.pendingDispatches, h, p); }
    }
  }

  lemma PendingSignal(pd: seq<PendingDispatch>, h: nat, p: nat)
    ensures Pending(pd, h, p) ==> h in Signals(pd)
  {
  }

  /** A signal that goes from zero to one went into the pool. */
  lemma RearmedIntoPool(s: State, a: Step, q: nat, h: nat)
    requires Good(s) && Enabled(s, a) && q < |s.queues| && q < |Apply(s, a).queues|
    requires h < |s.queues[q].dispatchValues| && s.queues[q].dispatchValues[h] == 0
    requires h < |Apply(s, a).queues[q].dispatchValues| && Apply(s, a).queues[q].dispatchValues[h] != 0
    ensures h in Apply(s, a).queues[q].signalPool
  {
    hide Inv, Accounted;
    match a
    case ByReap(x) => PoolReap(s, x, q, h);
    case ByDevice(x) => PoolDevice(s, x, q, h);
    case ByLaunching(x) => PoolLaunching(s, x, q, h);
    case ByRecording(x) => PoolRecording(s, x, q);
    case BySyncing(x) => PoolSyncing(s, x, q);
  }

  lemma PoolReap(s: State, a: ReapStep, q: nat, h: nat)
    requires ReapEnabled(s, a) && q < |s.queues| && q < |ReapApply(s, a).queues|
    requires h < |s.queues[q].dispatchValues| && s.queues[q].dispatchValues[h] == 0
    requires h < |ReapApply(s, a).queues[q].dispatchValues| && ReapApply(s, a).queues[q].dispatchValues[h] != 0
    ensures h in ReapApply(s, a).queues[q].signalPool
  {
    hide SyncNames, RetiresOn, IsZero, ReleaseActive, ReleaseAll, SwapRemove, DropRefs;
    match a
    case ReapDispatch(k) =>
      var d := s.queues[k].pendingDispatches[0];
      assert h == d.signal;
      assert ReapApply(s, a).queues[q].signalPool[|s.queues[q].signalPool|] == h;
    case WaitEnd(k, i, j) =>
      assert h == s.queues[k].deferred[j].signal;
      assert ReapApply(s, a).queues[q].signalPool[|s.queues[q].signalPool|] == h;
    case _ =>
  }

  lemma PoolDevice(s: State, a: DeviceStep, q: nat, h: nat)
    requires DeviceEnabled(s, a) && q < |s.queues| && h < |s.queues[q].dispatchValues|
    requires s.queues[q].dispatchValues[h] == 0
    ensures q < |DeviceApply(s, a).queues| && h < |DeviceApply(s, a).queues[q].dispatchValues|
    ensures DeviceApply(s, a).queues[q].dispatchValues[h] == 0
  {
  }

  lemma PoolAcquire(q: Queue, t: nat, k: nat, h: nat)
    requires ArmedOk(q.dispatchValues, q.signalPool, q.inFlight) && k <= |q.kernargPool|
    requires h < |q.dispatchValues| && q.dispatchValues[h] == 0
    ensures h < |Acquire(q, t, k).dispatchValues| && Acquire(q, t, k).dispatchValues[h] == 0
  {
  }

  lemma QueueArmed(s: State, q: nat)
    requires Inv(s) && q < |s.queues|
    ensures ArmedOk(s.queues[q].dispatchValues, s.queues[q].signalPool, s.queues[q].inFlight)
  {
    hide Inv, BarrierSide, SyncSide, EventSide, LogOk, Conserved, DispatchesOk, DeferredOk, WaitsOk;
    QueueIsOk(s, q);
  }

  lemma PoolLaunching(s: State, a: LaunchStep, q: nat, h: nat)
    requires Inv(s) && LaunchingEnabled(s, a) && q < |s.queues| && h < |s.queues[q].dispatchValues|
    requires s.queues[q].dispatchValues[h] == 0
    ensures q < |LaunchingApply(s, a).queues| && h < |LaunchingApply(s, a).queues[q].dispatchValues|
    ensures LaunchingApply(s, a).queues[q].dispatchValues[h] == 0
  {
    hide Acquire, Awaits, HasCapacity, Inv, RetainActive, RetainAll, NeedsBarrier, Chunks, ArmedOk, Bound;
    assert ArmedOk(s.queues[q].dispatchValues, s.queues[q].signalPool, s.queues[q].inFlight) by { QueueArmed(s, q); }
    match a
    case DefaultCollect(t, k, explicit, deps, hasDeps, implicit, n) => if k == q { PoolAcquire(s.queues[q], t, n, h); }
    case LaunchAcquire(t, k) => if s.launches[t].queue == q { PoolAcquire(s.queues[q], t, k, h); }
    case _ => assert LaunchingApply(s, a).queues[q].dispatchValues == s.queues[q].dispatchValues;
  }

  lemma PoolRecording(s: State, a: RecordStep, q: nat)
    requires RecordingEnabled(s, a) && q < |s.queues|
    ensures q < |RecordingApply(s, a).queues|
    ensures RecordingApply(s, a).queues[q].dispatchValues == s.queues[q].dispatchValues
  {
  }

  lemma PoolSyncing(s: State, a: SyncStep, q: nat)
    requires SyncingEnabled(s, a) && q < |s.queues|
    ensures q < |SyncingApply(s, a).queues| && SyncingApply(s, a).queues[q].dispatchValues == s.queues[q].dispatchValues
  {
  }

  /** A completion signal is re-armed only when no thread waits for it and no unfinished
      synchronization packet names it. */
  lemma SignalRearmSafe(s: State, a: Step, q: nat, h: nat)
    requires Reachable(s) && Enabled(s, a) && q < |s.queues| && q < |Apply(s, a).queues|
    requires h < |s.queues[q].dispatchValues| && s.queues[q].dispatchValues[h] == 0
    requires h < |Apply(s, a).queues[q].dispatchValues| && Apply(s, a).queues[q].dispatchValues[h] != 0
    ensures DispatchSignal(h) !in Apply(s, a).queues[q].progressWaits
    ensures forall p: nat :: p < |Apply(s, a).queues[q].gpu.log| && p !in Apply(s, a).queues[q].gpu.done
                             && Apply(s, a).queues[q].gpu.log[p].BarrierAnd? ==>
      DispatchSignal(h) !in Apply(s, a).queues[q].gpu.log[p].deps
  {
    hide Run, Good, Enabled, Apply;
    ReachableGood(s);
    RearmedIntoPool(s, a, q, h);
    ReachesStep(s, a);
    ReachesTrans(Init(), s, Apply(s, a));
    PooledIsUnused(Apply(s, a), q, h);
  }

  /** Every completion signal is in exactly one of the pool, a pending dispatch, a deferred
      dispatch and a launch in flight; so is every kernarg buffer. */
  lemma ResourcesConserved(s: State, q: nat)
    requires Reachable(s) && q < |s.queues|
    ensures forall h: nat :: SignalBag(s.queues[q])[h] == if h < |s.queues[q].dispatchValues| then 1 else 0
    ensures forall k: nat :: KernargBag(s.queues[q])[k] == if k < s.queues[q].kernargs then 1 else 0
  {
    hide Reachable, Good, BarrierSide, EventSide, SyncSide, SignalBag, KernargBag;
    ReachableQueue(s, q);
  }

  /** Completed pending dispatches form a prefix, so reaping from the front strands none. */
  lemma CompletedIsPrefix(s: State, q: nat, i: nat, j: nat)
    requires Reachable(s) && q < |s.queues| && i < j < |s.queues[q].pendingDispatches|
    requires IsZero(s.queues[q], s.events, DispatchSignal(s.queues[q].pendingDispatches[j].signal))
    ensures IsZero(s.queues[q], s.events, DispatchSignal(s.queues[q].pendingDispatches[i].signal))
  {
    hide Reachable, Good, BarrierSide, EventSide, SyncSide;
    var x := s.queues[q];
    ReachableQueue(s, q);
    assert EntryOk(x.gpu.log, x.gpu.done, x.dispatchValues, x.pendingDispatches[i]);
    assert EntryOk(x.gpu.log, x.gpu.done, x.dispatchValues, x.pendingDispatches[j]);
    assert HoldsBack(x.gpu.log, x.pendingDispatches[i].pid, x.pendingDispatches[j].pid);
    assert x.pendingDispatches[i].pid in x.gpu.done;
  }

  // ------------------------------------------------------------------- counting

  /** The event's count for a queue, the queue's own index and the occurrences in its
      pending barriers agree; the total is their sum plus the pending copies. */
  lemma {:induction false} CountsAgree(s: State, e: nat)
    requires Reachable(s) && e < |s.events|
    ensures forall q :: 0 <= q < |s.queues| ==>
      Get(s.events[e].depQueues, q) == Get(s.queues[q].active, e) == DepCount(s.queues[q].pendingBarriers, e)
    ensures s.events[e].depCount == QueueRefs(s.events[e].depQueues, |s.queues|) + CopyRefs(s.events, e)
    ensures forall q :: q in s.events[e].depQueues ==> q < |s.queues| && s.events[e].depQueues[q] > 0
  {
    hide Reachable, Inv, PinsOk, CopyRefs, QueueRefs, DispatchSide, SyncSide, EventSide;
    ReachableGood(s);
    assert RefOk(s.events, |s.queues|, e);
    forall q | 0 <= q < |s.queues|
      ensures Get(s.events[e].depQueues, q) == Get(s.queues[q].active, e) == DepCount(s.queues[q].pendingBarriers, e)
    {
      QueueIsOk(s, q);
    }
    PositiveCounts(s, e);
  }

  lemma PositiveCounts(s: State, e: nat)
    requires Inv(s) && e < |s.events|
    ensures forall q :: q in s.events[e].depQueues ==> s.events[e].depQueues[q] > 0
  {
    hide QueueGood, LaunchGood;
    assert EventGood(s, e);
  }

  // ---------------------------------------------------------------- destruction

  /** When a queue is destroyed nobody uses it: no launch, no waiting thread, no packet the
      processor has not finished, nothing pending or deferred, and no event that records
      it or counts a dependency on it. */
  lemma DestroySafe(s: State, q: nat)
    requires Reachable(s) && CanDestroyFinish(s, q)
    ensures NoLaunchOn(s, q) && s.queues[q].inFlight == []
    ensures s.queues[q].progressWaits == [] && s.queues[q].pendingSyncs == [] && Waiters(s.waits, q) == {}
    ensures s.queues[q].deferred == []
    ensures forall p: nat :: p < |s.queues[q].gpu.log| ==> p in s.queues[q].gpu.done
    ensures forall e :: 0 <= e < |s.events| ==> q !in s.events[e].depQueues
    ensures forall e :: 0 <= e < |s.events| && s.events[e].pending && s.events[e].recorded.Some? ==>
      s.events[e].recorded.value.queue != q
  {
    hide Reachable, Accounted, SyncSide, LaunchGood;
    ReachableGood(s);
    QueueIsOk(s, q);
    var x := s.queues[q];
    HsaSyncSteps.PinnedHasNoLaunch(s, q);
    LastPin(s.queues, s.waits, q) by { PinsOfGood(s); }
    assert x.deferred == [] by { NothingDeferred(x); }
    assert x.inFlight == [] by { NothingInFlight(s, q); }
    forall p: nat | p < |x.gpu.log| ensures p in x.gpu.done {
      assert p !in x.gpu.done ==> Covered(q, x.pendingDispatches, x.pendingBarriers, x.pendingEvents, s.events, p);
    }
    forall e | 0 <= e < |s.events| ensures q !in s.events[e].depQueues {
      assert Get(s.events[e].depQueues, q) == DepCount(x.pendingBarriers, e) == 0;
      PositiveCounts(s, e);
    }
  }

  lemma PinsOfGood(s: State)
    requires Accounted(s)
    ensures PinsOk(s.queues, s.waits)
  {
  }

  lemma FirstIn<T>(s: seq<T>)
    requires s != []
    ensures exists x :: x in s
  {
    assert s[0] in s;
  }

  lemma NothingDeferred(q: Queue)
    requires DispatchSide(q) && q.progressWaits == []
    ensures q.deferred == []
  {
    if q.deferred != [] { FirstIn(q.deferred); }
  }

  lemma NothingInFlight(s: State, q: nat)
    requires Inv(s) && q < |s.queues| && NoLaunchOn(s, q)
    ensures s.queues[q].inFlight == []
  {
    hide QueueOk, LaunchGood, EventGood;
    assert QueueGood(s, q);
    if s.queues[q].inFlight != [] { FirstIn(s.queues[q].inFlight); }
  }
}
