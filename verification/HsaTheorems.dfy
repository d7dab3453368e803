/** What the runtime promises, for every reachable state and every step out of it. */
module HsaTheorems {
  import opened HsaState
  import opened HsaSteps
  import opened HsaInvariant
  import opened HsaFrame
  import opened HsaAccounting
  import opened HsaRuns
  import opened HsaProgress

  lemma ReachableQueue(s: State, q: nat)
    requires Reachable(s) && q < |s.queues|
    ensures Good(s) && QueueOk(q, s.queues[q], s.events) && ValidEvents(s.events, |s.queues|)
  {
    hide Reachable, Inv, Accounted, QueueOk;
    ReachableGood(s);
    QueueIsOk(s, q);
  }

  // ------------------------------------------------------------------- ordering

  /** A packet that was taken, and one that may be taken next, has everything it awaits
      behind it: each awaited recording has completed. */
  lemma TakenAfterDependencies(qi: nat, q: Queue, events: Events, p: nat, o: Occurrence)
    requires LogOk(q.gpu) && AwaitsOk(q.gpu.log, q.gpu.done, events)
    requires p < |q.gpu.log| && (p < q.gpu.taken || (p == q.gpu.taken && CanTake(q.gpu)))
    requires q.gpu.log[p].Dispatch? && o in q.gpu.log[p].awaits
    ensures o.event < |events| && o.epoch in events[o.event].finished
  {
    assert Guarded(q.gpu.log, q.gpu.done, events, o, p, []);
    assert forall r: nat :: r < p && q.gpu.log[r].BarrierAnd? ==> HoldsBack(q.gpu.log, r, p);
  }

  /** In every run, whatever the number of dependencies and however they were cut into
      packets or left out because an earlier barrier names them, a dispatch starts only
      after every recording it was launched against has completed. */
  lemma DispatchOrder(s: State, q: nat, p: nat, o: Occurrence)
    requires Reachable(s) && q < |s.queues|
    requires p < |s.queues[q].gpu.log|
      && (p < s.queues[q].gpu.taken || (p == s.queues[q].gpu.taken && CanTake(s.queues[q].gpu)))
    requires s.queues[q].gpu.log[p].Dispatch? && o in s.queues[q].gpu.log[p].awaits
    ensures o.event < |s.events| && o.epoch in s.events[o.event].finished
  {
    hide Reachable, Good;
    ReachableQueue(s, q);
    TakenAfterDependencies(q, s.queues[q], s.events, p, o);
  }

  /** `finished` records signals: over one step a recording is added exactly when the
      event's signal drops to zero while that recording is the current one. */
  lemma FinishedMeansZero(s: State, a: Step, e: nat, k: nat)
    requires Reachable(s) && Enabled(s, a) && e < |s.events|
    ensures e < |Apply(s, a).events|
    ensures k in Apply(s, a).events[e].finished && k !in s.events[e].finished <==>
      k == s.events[e].epoch == Apply(s, a).events[e].epoch && s.events[e].signal == 1
        && Apply(s, a).events[e].signal == 0
  {
    hide Reachable, Inv, Accounted, Apply, Enabled, QueueAdvances;
    ReachableGood(s);
    StepAdvances(s, a);
    assert EventAdvances(s.events[e], Apply(s, a).events[e]);
    assert k == s.events[e].epoch && s.events[e].signal == 1 && k in s.events[e].finished ==>
      false by { SignalIsHistory(s, e); }
  }

  /** The signal of an event that was ever armed is zero exactly when its current
      recording has completed, and all earlier ones have. */
  lemma SignalIsHistory(s: State, e: nat)
    requires Good(s) && e < |s.events|
    ensures s.events[e].epoch > 0 ==> (s.events[e].signal == 0 <==> s.events[e].epoch in s.events[e].finished)
    ensures forall k :: 0 < k < s.events[e].epoch ==> k in s.events[e].finished
    ensures s.events[e].epoch == 0 ==> s.events[e].finished == {}
  {
    hide Accounted, QueueGood, LaunchGood;
    assert EventGood(s, e);
  }

  // ------------------------------------------------------------------- capacity

  ghost function DispatchPids(pd: seq<PendingDispatch>): (r: set<nat>)
    ensures |r| <= |pd|
    ensures forall i :: 0 <= i < |pd| ==> pd[i].pid in r
  {
    if pd == [] then {} else DispatchPids(pd[..|pd| - 1]) + {pd[|pd| - 1].pid}
  }

  ghost function BarrierPids(pb: seq<PendingBarrier>): (r: set<nat>)
    ensures |r| <= |pb|
    ensures forall i :: 0 <= i < |pb| ==> pb[i].pid in r
  {
    if pb == [] then {} else BarrierPids(pb[..|pb| - 1]) + {pb[|pb| - 1].pid}
  }

  ghost function MarkerPids(pe: seq<nat>, events: Events): (r: set<nat>)
    ensures |r| <= |pe|
    ensures forall e :: e in pe && e < |events| && events[e].recorded.Some? ==> events[e].recorded.value.packet in r
  {
    if pe == [] then {}
    else
      var e := pe[|pe| - 1];
      var rest := MarkerPids(pe[..|pe| - 1], events);
      assert forall x :: x in pe ==> x == e || x in pe[..|pe| - 1];
      if e < |events| && events[e].recorded.Some? then rest + {events[e].recorded.value.packet} else rest
  }

  lemma Interval(a: nat, b: nat, r: set<nat>)
    requires a <= b && forall p :: a <= p < b ==> p in r
    ensures b - a <= |r|
    decreases b - a
  {
    if a < b {
      Interval(a, b - 1, r - {b - 1});
      assert |r - {b - 1}| == |r| - 1;
    }
  }

  /** Packets in the ring never exceed the packets the runtime counts as pending. */
  lemma OutstandingCounted(qi: nat, q: Queue, events: Events)
    requires LogOk(q.gpu)
    requires CoverOk(qi, q.gpu.log, q.gpu.done, q.pendingDispatches, q.pendingBarriers, q.pendingEvents, events)
    ensures |q.gpu.log| - q.gpu.taken <= PendingCount(q)
  {
    var ds, bs, ms := DispatchPids(q.pendingDispatches), BarrierPids(q.pendingBarriers),
      MarkerPids(q.pendingEvents, events);
    forall p | q.gpu.taken <= p < |q.gpu.log| ensures p in ds + bs + ms {
      assert Covered(qi, q.pendingDispatches, q.pendingBarriers, q.pendingEvents, events, p);
    }
    Interval(q.gpu.taken, |q.gpu.log|, ds + bs + ms);
  }

  lemma RingNeverOverfull(s: State, q: nat)
    requires Reachable(s) && q < |s.queues|
    ensures |s.queues[q].gpu.log| - s.queues[q].gpu.taken <= PendingCount(s.queues[q])
  {
    hide Reachable, Good, LogOk, CoverOk;
    ReachableQueue(s, q);
    OutstandingCounted(q, s.queues[q], s.events);
  }

  /** The step adds a packet to queue q. */
  ghost predicate Publishes(s: State, a: Step, q: nat)
    requires Enabled(s, a)
  {
    q < |s.queues| && q < |Apply(s, a).queues| && |Apply(s, a).queues[q].gpu.log| > |s.queues[q].gpu.log|
  }

  /** A launch, record or synchronization that is about to publish has room counted. */
  lemma LaunchRoom(s: State, t: nat)
    requires Inv(s) && t in s.launches && s.launches[t].stage.Registering?
    ensures s.launches[t].queue < |s.queues|
    ensures PendingCount(s.queues[s.launches[t].queue]) + 1 <= s.queues[s.launches[t].queue].size
  {
  }

  lemma HolderRoom(s: State, q: nat)
    requires Inv(s) && q < |s.queues|
    ensures s.queues[q].holder.ByRecord? ==> PendingCount(s.queues[q]) + 1 <= s.queues[q].size
    ensures s.queues[q].holder.BySync? && s.queues[q].holder.signals != [] ==>
      PendingCount(s.queues[q]) + 1 <= s.queues[q].size
  {
    hide QueueOk, LaunchGood, EventGood;
    assert QueueGood(s, q);
  }

  lemma LaunchPublishes(s: State, a: LaunchStep, q: nat)
    requires Inv(s) && LaunchingEnabled(s, a) && Publishes(s, ByLaunching(a), q)
    ensures |LaunchingApply(s, a).queues[q].gpu.log| == |s.queues[q].gpu.log| + 1
    ensures PendingCount(s.queues[q]) + 1 <= s.queues[q].size
  {
    hide Inv, RetainAll, RetainActive, Awaits, NeedsBarrier, HasCapacity, PendingCount, Chunks;
    match a
    case LaunchBarrier(t, i) => LaunchRoom(s, t);
    case LaunchDispatch(t, i) => LaunchRoom(s, t);
    case _ =>
  }

  lemma RecordPublishes(s: State, a: RecordStep, q: nat)
    requires Inv(s) && RecordingEnabled(s, a) && Publishes(s, ByRecording(a), q)
    ensures |RecordingApply(s, a).queues[q].gpu.log| == |s.queues[q].gpu.log| + 1
    ensures PendingCount(s.queues[q]) + 1 <= s.queues[q].size
  {
    hide Inv, RetainAll, RetainActive, Unreferenced, HasCapacity, PendingCount, Chunks;
    match a
    case RecordBarrier(_) => HolderRoom(s, q);
    case RecordMarker(_) => HolderRoom(s, q);
    case _ =>
  }

  lemma SyncPublishes(s: State, a: SyncStep, q: nat)
    requires Inv(s) && SyncingEnabled(s, a) && Publishes(s, BySyncing(a), q)
    ensures |SyncingApply(s, a).queues[q].gpu.log| == |s.queues[q].gpu.log| + 1
    ensures PendingCount(s.queues[q]) + 1 <= s.queues[q].size
  {
    hide Inv, CanSyncBegin, NoLaunchOn, IsZero, RemoveAt, RetainActive, RetainAll;
    match a
    case SyncBarrier(_) => HolderRoom(s, q);
    case _ =>
  }

  lemma NoDevicePublish(s: State, a: DeviceStep, q: nat)
    requires DeviceEnabled(s, a)
    ensures !Publishes(s, ByDevice(a), q)
  {
  }

  lemma NoReapPublish(s: State, a: ReapStep, q: nat)
    requires ReapEnabled(s, a)
    ensures !Publishes(s, ByReap(a), q)
  {
    hide IsZero, SyncNames, RetiresOn, ReleaseAll, ReleaseActive, CanReapBarrier, CanReapDispatch, CanWaitEnd;
  }

  /** No submission ever finds the ring full: whenever a packet is published, the packets
      not yet taken leave a free slot. */
  lemma PublishNeverFull(s: State, a: Step, q: nat)
    requires Reachable(s) && Enabled(s, a) && q < |s.queues| && Publishes(s, a, q)
    ensures |Apply(s, a).queues[q].gpu.log| == |s.queues[q].gpu.log| + 1
    ensures |s.queues[q].gpu.log| - s.queues[q].gpu.taken < s.queues[q].size
  {
    hide Reachable, Inv, Accounted, Publishes;
    ReachableGood(s);
    match a
    case ByDevice(x) => NoDevicePublish(s, x, q);
    case ByReap(x) => NoReapPublish(s, x, q);
    case ByLaunching(x) => RingNeverOverfull(s, q); LaunchPublishes(s, x, q);
    case ByRecording(x) => RingNeverOverfull(s, q); RecordPublishes(s, x, q);
    case BySyncing(x) => RingNeverOverfull(s, q); SyncPublishes(s, x, q);
  }
}
