/** What only ever moves forward: logs grow, completed packets stay completed, recordings
    that completed stay completed. */
module HsaProgress {
  import opened Common
  import opened HsaState
  import opened HsaSteps
  import opened HsaInvariant
  import opened HsaAccounting
  import opened HsaRuns
  import HsaRecordSteps

  ghost predicate QueueAdvances(q: Queue, q': Queue) {
    && q.gpu.log <= q'.gpu.log
    && q.gpu.done <= q'.gpu.done
    && q.gpu.taken <= q'.gpu.taken
    && |q.syncValues| <= |q'.syncValues|
    && q'.size == q.size
  }

  /** A recording joins the finished ones exactly when the event's signal drops to zero. */
  ghost predicate EventAdvances(a: Event, b: Event) {
    && a.finished <= b.finished
    && a.epoch <= b.epoch
    && (forall k :: k in b.finished && k !in a.finished ==> k == a.epoch == b.epoch && a.signal == 1 && b.signal == 0)
    && (a.signal == 1 && b.signal == 0 ==> a.epoch == b.epoch && b.epoch in b.finished)
  }

  ghost predicate QueuesAdvance(queues: seq<Queue>, queues': seq<Queue>) {
    |queues| <= |queues'| && forall q :: 0 <= q < |queues| ==> QueueAdvances(queues[q], queues'[q])
  }

  ghost predicate EventsAdvance(events: Events, events': Events) {
    |events| <= |events'| && forall e :: 0 <= e < |events| ==> EventAdvances(events[e], events'[e])
  }

  ghost predicate Advances(s: State, s': State) {
    QueuesAdvance(s.queues, s'.queues) && EventsAdvance(s.events, s'.events)
  }

  lemma OneQueueAdvances(queues: seq<Queue>, q: nat, q': Queue)
    requires q < |queues| && QueueAdvances(queues[q], q')
    ensures QueuesAdvance(queues, queues[q := q'])
  {
  }

  lemma EventsStay(events: Events)
    ensures EventsAdvance(events, events)
  {
  }

  lemma QueuesStay(queues: seq<Queue>)
    ensures QueuesAdvance(queues, queues)
  {
  }

  /** Events whose signal, epoch and history do not change. */
  lemma CountsAdvance(events: Events, events': Events)
    requires |events'| == |events|
    requires forall e :: 0 <= e < |events| ==>
      events'[e].signal == events[e].signal && events'[e].epoch == events[e].epoch
        && events'[e].finished == events[e].finished
    ensures EventsAdvance(events, events')
  {
  }

  lemma FinishAdvances(s: State, e: nat)
    requires Inv(s) && e < |s.events|
    ensures EventsAdvance(s.events, s.events[e := FinishEpoch(s.events[e])])
  {
    hide QueueGood, LaunchGood;
    assert EventGood(s, e);
  }

  lemma RearmAdvances(events: Events, events': Events, e: nat)
    requires HsaRecordSteps.Rearmed(events, events', e)
    ensures EventsAdvance(events, events')
  {
  }

  lemma AdvanceDevice(s: State, a: DeviceStep)
    requires Good(s) && DeviceEnabled(s, a)
    ensures Advances(s, DeviceApply(s, a))
  {
    hide Inv, Accounted, QueuesAdvance, EventsAdvance;
    var s' := DeviceApply(s, a);
    QueuesStay(s.queues);
    EventsStay(s.events);
    match a
    case NewQueue(size) => assert QueuesAdvance(s.queues, s'.queues) by { QueueAdded(s.queues, NewQueueValue(size)); }
    case NewEvent => assert EventsAdvance(s.events, s'.events) by { EventAdded(s.events); }
    case GpuTake(q) => OneQueueAdvances(s.queues, q, s'.queues[q]);
    case GpuComplete(q, p) =>
      OneQueueAdvances(s.queues, q, s'.queues[q]);
      CompleteAdvances(s, s.queues[q].gpu.log[p]);
    case CopyDone(e) => FinishAdvances(s, e);
  }

  lemma CompleteAdvances(s: State, p: Packet)
    requires Inv(s)
    ensures EventsAdvance(s.events, CompleteEvents(s.events, p))
  {
    hide Inv, EventsAdvance;
    EventsStay(s.events);
    if p.BarrierAnd? && p.completed.Some? && p.completed.value.EventSignal? && p.completed.value.event < |s.events| {
      FinishAdvances(s, p.completed.value.event);
    } else {
      assert CompleteEvents(s.events, p) == s.events;
    }
  }

  lemma QueueAdded(queues: seq<Queue>, q: Queue)
    ensures QueuesAdvance(queues, queues + [q])
  {
  }

  lemma EventAdded(events: Events)
    ensures EventsAdvance(events, events + [NewEventValue()])
  {
  }

  lemma AdvanceReap(s: State, a: ReapStep)
    requires Good(s) && ReapEnabled(s, a)
    ensures Advances(s, ReapApply(s, a))
  {
    hide Inv, Accounted, QueuesAdvance, EventsAdvance, IsZero, SyncNames, FinishEventState, SwapRemove;
    var s' := ReapApply(s, a);
    QueuesStay(s.queues);
    EventsStay(s.events);
    match a
    case ReapBarrier(q, i) =>
      OneQueueAdvances(s.queues, q, s'.queues[q]);
      CountsAdvance(s.events, s'.events);
    case ReapDispatch(q) => OneQueueAdvances(s.queues, q, s'.queues[q]);
    case FinishEvent(e) => AdvanceFinish(s, e);
    case WaitBegin(q) => OneQueueAdvances(s.queues, q, s'.queues[q]);
    case WaitEnd(q, i, j) => OneQueueAdvances(s.queues, q, s'.queues[q]);
    case EventWaitBegin(w, e) => AdvanceEventWait(s, s', s'.waits[w].queue);
    case EventWaitEnd(w) => AdvanceEventWait(s, s', s.waits[w].queue);
  }

  lemma AdvanceFinish(s: State, e: nat)
    requires CanFinishEvent(s, e)
    ensures Advances(s, DoFinishEvent(s, e))
  {
    hide QueuesAdvance, EventsAdvance;
    var s' := DoFinishEvent(s, e);
    CountsAdvance(s.events, s'.events);
    QueuesStay(s.queues);
    if s.events[e].recorded.Some? {
      var q := s.events[e].recorded.value.queue;
      OneQueueAdvances(s.queues, q, s.queues[q].(pendingEvents := DropEvent(s.queues[q].pendingEvents, e)));
    }
  }

  lemma AdvanceEventWait(s: State, s': State, q: Option<nat>)
    requires s'.events == s.events
    requires q.None? || q.value >= |s.queues| ==> s'.queues == s.queues
    requires q.Some? && q.value < |s.queues| ==>
      exists n :: s'.queues == s.queues[q.value := s.queues[q.value].(synchronizers := n)]
    ensures Advances(s, s')
  {
  }

  lemma AdvanceLaunching(s: State, a: LaunchStep)
    requires LaunchingEnabled(s, a)
    ensures Advances(s, LaunchingApply(s, a))
  {
    hide QueuesAdvance, EventsAdvance;
    var s' := LaunchingApply(s, a);
    QueuesStay(s.queues);
    EventsStay(s.events);
    match a
    case LaunchCollect(t, q, explicit, deps) =>
    case DefaultCollect(t, q, explicit, deps, hasDeps, implicit, k) => OneQueueAdvances(s.queues, q, s'.queues[q]);
    case LaunchGate(t, n) =>
      OneQueueAdvances(s.queues, s.launches[t].queue, s.queues[s.launches[t].queue].(holder := ByLaunch(t)));
    case LaunchResume(t) => OneQueueAdvances(s.queues, s.launches[t].queue, s'.queues[s.launches[t].queue]);
    case LaunchAcquire(t, k) =>
      OneQueueAdvances(s.queues, s.launches[t].queue, Acquire(s.queues[s.launches[t].queue], t, k));
    case LaunchScan(t) =>
    case LaunchBarrier(t, i) =>
      OneQueueAdvances(s.queues, s.launches[t].queue, s'.queues[s.launches[t].queue]);
      CountsAdvance(s.events, s'.events);
    case LaunchDispatch(t, i) => OneQueueAdvances(s.queues, s.launches[t].queue, s'.queues[s.launches[t].queue]);
    case LaunchFail(t, i) => OneQueueAdvances(s.queues, s.launches[t].queue, s'.queues[s.launches[t].queue]);
    case LaunchAbandon(t) => OneQueueAdvances(s.queues, s.launches[t].queue, s'.queues[s.launches[t].queue]);
  }

  lemma AdvanceRecording(s: State, a: RecordStep)
    requires Good(s) && RecordingEnabled(s, a)
    ensures Advances(s, RecordingApply(s, a))
  {
    hide Inv, RefsOk, PinsOk, QueuesAdvance, EventsAdvance, HsaRecordSteps.Rearmed;
    var s' := RecordingApply(s, a);
    QueuesStay(s.queues);
    match a
    case RecordBegin(e, q, deps, onDefault) => CountsAdvance(s.events, s'.events);
    case RecordLock(e) =>
      EventsStay(s.events);
      var q := s.events[e].recording.value.queue;
      OneQueueAdvances(s.queues, q, s'.queues[q]);
    case RecordBarrier(q) =>
      OneQueueAdvances(s.queues, q, s'.queues[q]);
      CountsAdvance(s.events, s'.events);
    case RecordMarker(q) =>
      OneQueueAdvances(s.queues, q, s'.queues[q]);
      HsaRecordSteps.KeepRecordMarker(s, q);
      RearmAdvances(s.events, s'.events, s.queues[q].holder.event);
    case RecordAbandon(e) => CountsAdvance(s.events, s'.events);
    case CopySubmit(e, deps) =>
      NoRefs(s, e);
      HsaRecordSteps.KeepCopySubmit(s, e, deps);
      RearmAdvances(s.events, s'.events, e);
  }

  lemma AdvanceSyncing(s: State, a: SyncStep)
    requires SyncingEnabled(s, a)
    ensures Advances(s, SyncingApply(s, a))
  {
    hide QueuesAdvance, EventsAdvance;
    var s' := SyncingApply(s, a);
    EventsStay(s.events);
    match a
    case SyncBegin(q, signals) => OneQueueAdvances(s.queues, q, s'.queues[q]);
    case SyncBarrier(q) =>
      OneQueueAdvances(s.queues, q, s'.queues[q]);
      CountsAdvance(s.events, s'.events);
    case SyncEnd(q) => OneQueueAdvances(s.queues, q, s'.queues[q]);
    case TailMarker(q) => OneQueueAdvances(s.queues, q, s'.queues[q]);
    case SyncFinish(q, i) => OneQueueAdvances(s.queues, q, s'.queues[q]);
    case DestroyBegin(q) => OneQueueAdvances(s.queues, q, s'.queues[q]);
    case DestroyPin(q) => OneQueueAdvances(s.queues, q, s'.queues[q]);
    case DestroyAbandon(q) => OneQueueAdvances(s.queues, q, s'.queues[q]);
    case DestroyFinish(q) => OneQueueAdvances(s.queues, q, s'.queues[q]);
  }

  lemma StepAdvances(s: State, a: Step)
    requires Good(s) && Enabled(s, a)
    ensures Advances(s, Apply(s, a))
  {
    hide Good, Advances;
    match a
    case ByDevice(x) => AdvanceDevice(s, x);
    case ByReap(x) => AdvanceReap(s, x);
    case ByLaunching(x) => AdvanceLaunching(s, x);
    case ByRecording(x) => AdvanceRecording(s, x);
    case BySyncing(x) => AdvanceSyncing(s, x);
  }
}
