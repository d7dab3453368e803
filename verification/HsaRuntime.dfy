/** The retirement and submission loops of a queue as the runtime executes them, on
    state updated in place while the hardware keeps running.  Each loop is shown to be a
    run of the step machine, so what holds for every run holds for the loops; on top of
    that each loop states what it leaves behind. */
module HsaRuntime {
  import opened Common
  import opened HsaState
  import opened HsaSteps
  import opened HsaInvariant
  import opened HsaAccounting
  import opened HsaRuns
  import HsaDeviceSteps
  import HsaFrame

  // ----------------------------------------------------------------- the hardware

  predicate IsHardware(a: DeviceStep) {
    a.GpuTake? || a.GpuComplete? || a.CopyDone?
  }

  /** The hardware changes neither the lists nor the counters the host keeps. */
  ghost predicate HostSame(q: Queue, q': Queue) {
    q' == q.(gpu := q'.gpu, dispatchValues := q'.dispatchValues, syncValues := q'.syncValues)
    && q'.gpu.log == q.gpu.log && |q'.dispatchValues| == |q.dispatchValues| && |q'.syncValues| == |q.syncValues|
  }

  ghost predicate EventSame(a: Event, b: Event) {
    b == a.(signal := b.signal, finished := b.finished)
  }

  /** Signals only fall. */
  ghost predicate Falls(q: Queue, events: Events, q': Queue, events': Events) {
    forall x :: IsZero(q, events, x) ==> IsZero(q', events', x)
  }

  /** No event is recorded, finished or re-armed. */
  ghost predicate Intact(events: Events, events': Events) {
    && |events'| == |events|
    && (forall e :: 0 <= e < |events| ==>
          && events'[e].pending == events[e].pending
          && events'[e].recorded == events[e].recorded
          && events'[e].epoch == events[e].epoch
          && events'[e].deps == events[e].deps && events'[e].depCount <= events[e].depCount)
  }

  /** References to x that are left when the occurrences of x in the list are released. */
  function RefsLeft(events: Events, deps: seq<nat>, x: nat): nat
    requires x < |events|
  {
    if events[x].depCount <= multiset(deps)[x] then 0 else events[x].depCount - multiset(deps)[x]
  }

  /** The event lets go of its own dependencies, one reference for each occurrence.  Only
      retiring barriers of a queue can release more. */
  ghost predicate ReferencesDropped(events: Events, events': Events, e: nat) {
    && |events'| == |events| && e < |events| && events'[e].deps == []
    && (forall x :: 0 <= x < |events| ==> events'[x].depCount <= RefsLeft(events, events[e].deps, x))
    && (events[e].recorded.None? ==> forall x :: 0 <= x < |events| ==>
          events'[x].depCount == RefsLeft(events, events[e].deps, x))
  }

  ghost predicate HardwareOnly(s: State, s': State) {
    && |s'.queues| == |s.queues| && |s'.events| == |s.events|
    && s'.launches == s.launches && s'.waits == s.waits
    && (forall q :: 0 <= q < |s.queues| ==>
      HostSame(s.queues[q], s'.queues[q]) && Falls(s.queues[q], s.events, s'.queues[q], s'.events))
    && (forall e :: 0 <= e < |s.events| ==> EventSame(s.events[e], s'.events[e]))
  }

  lemma EventsFall(events: Events, p: Packet)
    ensures |CompleteEvents(events, p)| == |events|
    ensures forall e :: 0 <= e < |events| ==>
      EventSame(events[e], CompleteEvents(events, p)[e])
        && (events[e].signal == 0 ==> CompleteEvents(events, p)[e].signal == 0)
  {
    if p.BarrierAnd? && p.completed.Some? && p.completed.value.EventSignal? && p.completed.value.event < |events| {
      var e := p.completed.value.event;
      assert CompleteEvents(events, p) == events[e := FinishEpoch(events[e])];
    } else {
      assert CompleteEvents(events, p) == events;
    }
  }

  lemma FallsByValues(q: Queue, events: Events, q': Queue, events': Events)
    requires |q'.dispatchValues| == |q.dispatchValues| && |q'.syncValues| == |q.syncValues| && |events'| == |events|
    requires forall h :: 0 <= h < |q.dispatchValues| && q.dispatchValues[h] == 0 ==> q'.dispatchValues[h] == 0
    requires forall c :: 0 <= c < |q.syncValues| && q.syncValues[c] == 0 ==> q'.syncValues[c] == 0
    requires forall e :: 0 <= e < |events| && events[e].signal == 0 ==> events'[e].signal == 0
    ensures Falls(q, events, q', events')
  {
  }

  lemma CompleteFalls(q: Queue, p: nat)
    requires p < |q.gpu.log|
    ensures HostSame(q, CompleteQueue(q, p))
    ensures forall h :: 0 <= h < |q.dispatchValues| && q.dispatchValues[h] == 0 ==>
      CompleteQueue(q, p).dispatchValues[h] == 0
    ensures forall c :: 0 <= c < |q.syncValues| && q.syncValues[c] == 0 ==> CompleteQueue(q, p).syncValues[c] == 0
  {
  }

  lemma StepHardwareOnly(s: State, a: DeviceStep)
    requires DeviceEnabled(s, a) && IsHardware(a)
    ensures HardwareOnly(s, DeviceApply(s, a))
  {
    hide Falls, IsZero, CanTake;
    var s' := DeviceApply(s, a);
    match a
    case GpuTake(k) =>
      forall q | 0 <= q < |s.queues| ensures Falls(s.queues[q], s.events, s'.queues[q], s'.events) {
        FallsByValues(s.queues[q], s.events, s'.queues[q], s'.events);
      }
    case GpuComplete(k, p) =>
      EventsFall(s.events, s.queues[k].gpu.log[p]);
      CompleteFalls(s.queues[k], p);
      forall q | 0 <= q < |s.queues| ensures Falls(s.queues[q], s.events, s'.queues[q], s'.events) {
        FallsByValues(s.queues[q], s.events, s'.queues[q], s'.events);
      }
    case CopyDone(e) =>
      forall q | 0 <= q < |s.queues| ensures Falls(s.queues[q], s.events, s'.queues[q], s'.events) {
        FallsByValues(s.queues[q], s.events, s'.queues[q], s'.events);
      }
  }

  lemma HardwareTwice(s: State, m: State, s': State)
    requires HardwareOnly(s, m) && HardwareOnly(m, s')
    ensures HardwareOnly(s, s')
  {
    hide IsZero;
  }

  lemma HardwareNone(s: State)
    ensures HardwareOnly(s, s)
  {
  }

  // ---------------------------------------------------------------- the runtime

  class Runtime {
    var queues: seq<Queue>
    var events: seq<Event>
    var launches: map<nat, Launch>
    var waits: map<nat, Wait>

    /** What the hardware does before each load of a signal; any behaviour is a value. */
    var hardware: seq<seq<DeviceStep>>

    ghost function Now(): State
      reads this
    {
      State(queues, events, launches, waits)
    }

    ghost predicate Valid()
      reads this
    {
      Good(Now())
    }

    constructor (hardware: seq<seq<DeviceStep>>)
      ensures Valid() && Now() == Init()
    {
      queues, events, launches, waits, this.hardware := [], [], map[], map[], hardware;
      new;
      InitGood();
    }

    /** Apply one machine step to the fields. */
    method Perform(a: Step)
      requires Valid() && Enabled(Now(), a)
      modifies `queues, `events, `launches, `waits
      ensures Valid() && Now() == Apply(old(Now()), a) && Reaches(old(Now()), Now())
    {
      hide Good, Enabled, Apply, Reaches;
      KeepStep(Now(), a);
      ReachesStep(Now(), a);
      var s := Apply(State(queues, events, launches, waits), a);
      queues, events, launches, waits := s.queues, s.events, s.launches, s.waits;
    }

    /** The hardware runs. */
    method Hardware()
      requires Valid()
      modifies this
      ensures Valid() && Reaches(old(Now()), Now()) && HardwareOnly(old(Now()), Now())
    {
      hide Good, Reaches, HardwareOnly, DeviceEnabled, DeviceApply;
      ReachesSelf(Now());
      HardwareNone(Now());
      if hardware == [] { return; }
      var batch := hardware[0];
      hardware := hardware[1..];
      for i := 0 to |batch|
        invariant Valid() && Reaches(old(Now()), Now()) && HardwareOnly(old(Now()), Now())
      {
        if IsHardware(batch[i]) && DeviceEnabled(State(queues, events, launches, waits), batch[i]) {
          ghost var before := Now();
          StepHardwareOnly(before, batch[i]);
          HardwareTwice(old(Now()), before, Apply(before, ByDevice(batch[i])));
          Perform(ByDevice(batch[i]));
          ReachesTrans(old(Now()), before, Now());
        }
      }
    }

    /** reap_completed_barriers_locked: walk the list, replace a retired entry by the last
        one.  Whatever completes meanwhile, no barrier whose retirement signal was zero on
        entry is left, and nothing else of the queue changes hands. */
    method ReapCompletedBarriers(q: nat)
      requires Valid() && Free(Now(), q)
      modifies this
      ensures Valid() && Reaches(old(Now()), Now()) && Free(Now(), q)
      ensures forall b :: b in queues[q].pendingBarriers ==>
        b in old(queues[q].pendingBarriers) && !IsZero(old(queues[q]), old(events), b.retirement)
      ensures queues[q].pendingDispatches == old(queues[q].pendingDispatches)
      ensures queues[q].pendingEvents == old(queues[q].pendingEvents)
      ensures queues[q].progressWaits == old(queues[q].progressWaits)
      ensures queues[q].pendingSyncs == old(queues[q].pendingSyncs)
      ensures |queues[q].syncValues| == old(|queues[q].syncValues|)
      ensures Falls(old(queues[q]), old(events), queues[q], events) && Intact(old(events), events)
    {
      hide Good, Reaches, Falls, IsZero, HardwareOnly, ReapBarrierQueue, ReleaseAll;
      ghost var start := Now();
      ReachesSelf(start);
      assert Falls(start.queues[q], start.events, queues[q], events) by { FallsSelf(queues[q], events); }
      var index := 0;
      while index < |queues[q].pendingBarriers|
        invariant Valid() && Reaches(start, Now()) && Free(Now(), q)
        invariant q < |start.queues| && index <= |queues[q].pendingBarriers|
        invariant forall b :: b in queues[q].pendingBarriers ==> b in start.queues[q].pendingBarriers
        invariant forall i :: 0 <= i < index ==>
          !IsZero(start.queues[q], start.events, queues[q].pendingBarriers[i].retirement)
        invariant queues[q].pendingDispatches == start.queues[q].pendingDispatches
        invariant queues[q].pendingEvents == start.queues[q].pendingEvents
        invariant queues[q].progressWaits == start.queues[q].progressWaits
        invariant queues[q].pendingSyncs == start.queues[q].pendingSyncs
        invariant |queues[q].syncValues| == |start.queues[q].syncValues|
        invariant Falls(start.queues[q], start.events, queues[q], events) && Intact(start.events, events)
        decreases |queues[q].pendingBarriers| - index
      {
        ghost var before := Now();
        Hardware();
        ReachesTrans(start, before, Now());
        HardwareIntact(before, Now(), q);
        FallsTwice(start, before, Now(), q);
        var barrier := queues[q].pendingBarriers[index];
        if !IsZero(queues[q], events, barrier.retirement) {
          FallsAt(start.queues[q], start.events, queues[q], events, barrier.retirement);
          index := index + 1;
        } else {
          ghost var loaded := Now();
          Perform(ByReap(ReapBarrier(q, index)));
          ReachesTrans(start, loaded, Now());
          ReapBarrierFalls(loaded, q, index);
          FallsTwice(start, loaded, Now(), q);
        }
      }
    }

    /** reap_completed_dispatches_locked: retire from the front while the front has
        completed and no unfinished synchronization names it.  What remains is a suffix.
        Unless a synchronization stopped the walk, no dispatch that had completed on entry
        is left behind. */
    method ReapCompletedDispatches(q: nat) returns (completed: nat)
      requires Valid() && Free(Now(), q)
      modifies this
      ensures Valid() && Reaches(old(Now()), Now()) && Free(Now(), q)
      ensures completed <= |old(queues[q].pendingDispatches)|
      ensures queues[q].pendingDispatches == old(queues[q].pendingDispatches)[completed..]
      ensures queues[q].pendingDispatches == [] || StoppedAt(old(Now()), queues[q].pendingDispatches, q)
      ensures queues[q].pendingBarriers == old(queues[q].pendingBarriers)
      ensures queues[q].pendingEvents == old(queues[q].pendingEvents) && EventsFallen(old(events), events)
    {
      hide Good, Reaches, IsZero, SyncNames, StillZero, SyncsFall, StoppedAt, HardwareOnly, ReapDispatchQueue,
        EventsFallen;
      ghost var start := Now();
      ReachesSelf(start);
      FallenSelf(events);
      assert StillZero(start, Now(), q) && SyncsFall(start.queues[q], queues[q]) by { ZeroSelf(start, q); }
      ghost var pd := queues[q].pendingDispatches;
      completed := 0;
      var more := true;
      while more && queues[q].pendingDispatches != []
        invariant Valid() && Reaches(start, Now()) && Free(Now(), q) && q < |start.queues|
        invariant completed <= |pd| && queues[q].pendingDispatches == pd[completed..]
        invariant queues[q].pendingBarriers == start.queues[q].pendingBarriers
        invariant queues[q].pendingEvents == start.queues[q].pendingEvents && EventsFallen(start.events, events)
        invariant StillZero(start, Now(), q) && SyncsFall(start.queues[q], queues[q])
        invariant more || StoppedAt(start, queues[q].pendingDispatches, q)
        decreases more, |pd| - completed
      {
        ghost var before := Now();
        Hardware();
        ReachesTrans(start, before, Now());
        ZeroHardware(start, before, Now(), q);
        HardwareFallen(start, before, Now(), q);
        var front := queues[q].pendingDispatches[0];
        if !IsZero(queues[q], events, DispatchSignal(front.signal)) {
          FrontUnfinished(start, Now(), q);
          more := false;
        } else if SyncNames(queues[q], front.signal) {
          NamedBefore(start, Now(), q);
          more := false;
        } else {
          ghost var loaded := Now();
          Perform(ByReap(ReapDispatch(q)));
          ReachesTrans(start, loaded, Now());
          ZeroReap(start, loaded, q);
          assert pd[completed..][1..] == pd[completed + 1..];
          completed := completed + 1;
        }
      }
    }

    /** finish_event_wait_locked for a completed event: the barriers its signal retires go
        first, so the signal may be reset afterwards, and the events it depended on lose
        the references it held. */
    method FinishEventWait(e: nat)
      requires Valid() && e < |events| && events[e].pending && events[e].signal == 0
      requires events[e].recorded.Some? ==> Free(Now(), events[e].recorded.value.queue)
      modifies this
      ensures Valid() && Reaches(old(Now()), Now())
      ensures e < |events| && !events[e].pending && events[e].recorded.None? && EventsFallen(old(events), events)
      ensures ReferencesDropped(old(events), events, e)
      ensures old(events[e].recorded.Some?) ==>
                Finished(old(Now()), Now(), e, old(events[e].recorded.value.queue))
    {
      hide Good, Reaches, Falls, RetiresOn, FinishEventState, Finished, EventsFallen, Intact, ReferencesDropped;
      ghost var start := Now();
      ReachesSelf(start);
      assert EventsFallen(start.events, events) && Intact(start.events, events) by { FallenSelf(events); }
      if events[e].recorded.Some? {
        var q := events[e].recorded.value.queue;
        MarkedOnQueue(start, e);
        ReapCompletedBarriers(q);
        IntactEvent(start.events, events, e);
        FinishReady(start, Now(), e, q);
        FallenBy(start.queues[q], start.events, queues[q], events);
      }
      ghost var reaped := Now();
      Perform(ByReap(FinishEvent(e)));
      ReachesTrans(start, reaped, Now());
      FinishLeaves(start, reaped, e);
      FinishDrops(start, reaped, e);
    }

    /** reap_completed_queue_events_locked: finish every event that has completed. */
    method ReapCompletedEvents(q: nat)
      requires Valid() && Free(Now(), q)
      modifies this
      ensures Valid() && Reaches(old(Now()), Now()) && Free(Now(), q)
      ensures |events| == |old(events)|
      ensures forall e :: e in queues[q].pendingEvents ==>
        e in old(queues[q].pendingEvents) && e < |old(events)| && old(events[e].signal) != 0
      ensures queues[q].pendingDispatches == old(queues[q].pendingDispatches)
      ensures forall b :: b in queues[q].pendingBarriers ==> b in old(queues[q].pendingBarriers)
    {
      hide Good, Reaches, Finished, HardwareOnly, EventsFallen, HostSame, DropEvent;
      ghost var start := Now();
      ReachesSelf(start);
      assert EventsFallen(start.events, events) by { FallenSelf(events); }
      var index := 0;
      while index < |queues[q].pendingEvents|
        invariant Valid() && Reaches(start, Now()) && Free(Now(), q) && q < |start.queues|
        invariant index <= |queues[q].pendingEvents| && EventsFallen(start.events, events) && |events| == |start.events|
        invariant forall e :: e in queues[q].pendingEvents ==> e in start.queues[q].pendingEvents
        invariant queues[q].pendingDispatches == start.queues[q].pendingDispatches
        invariant forall b :: b in queues[q].pendingBarriers ==> b in start.queues[q].pendingBarriers
        invariant forall i :: 0 <= i < index ==>
          queues[q].pendingEvents[i] < |start.events| && start.events[queues[q].pendingEvents[i]].signal != 0
        decreases |queues[q].pendingEvents| - index
      {
        ghost var before := Now();
        Hardware();
        ReachesTrans(start, before, Now());
        HardwareFallen(start, before, Now(), q);
        var event := queues[q].pendingEvents[index];
        ListedEvent(Now(), q, index);
        if events[event].signal != 0 {
          NotZeroBefore(start.events, events, event);
          index := index + 1;
        } else {
          ghost var loaded := Now();
          FinishEventWait(event);
          ReachesTrans(start, loaded, Now());
          FallenTwice(start.events, loaded.events, events);
          DroppedAt(loaded, Now(), q, index);
        }
      }
    }

    /** reap_completed_queue_work_locked: barriers before the dispatches whose signals
        retire them, then events.  Nothing that had completed on entry is left, unless an
        unfinished synchronization names the dispatch in front. */
    method ReapCompletedQueueWork(q: nat) returns (completed: nat)
      requires Valid() && Free(Now(), q)
      modifies this
      ensures Valid() && Reaches(old(Now()), Now()) && Free(Now(), q)
      ensures forall b :: b in queues[q].pendingBarriers ==>
        b in old(queues[q].pendingBarriers) && !IsZero(old(queues[q]), old(events), b.retirement)
      ensures completed <= |old(queues[q].pendingDispatches)|
      ensures queues[q].pendingDispatches == old(queues[q].pendingDispatches)[completed..]
      ensures queues[q].pendingDispatches == [] || StoppedAt(old(Now()), queues[q].pendingDispatches, q)
      ensures forall e :: e in queues[q].pendingEvents ==>
        e in old(queues[q].pendingEvents) && e < |old(events)| && old(events[e].signal) != 0
    {
      hide Good, Reaches, Falls, StoppedAt, Intact, EventsFallen, IsZero;
      ghost var start := Now();
      ReapCompletedBarriers(q);
      assert |events| == |start.events| by { IntactLength(start.events, events); }
      FallenBy(start.queues[q], start.events, queues[q], events);
      ghost var first := Now();
      completed := ReapCompletedDispatches(q);
      if queues[q].pendingDispatches != [] { StoppedEarlier(start, first, queues[q].pendingDispatches, q); }
      ReachesTrans(start, first, Now());
      FallenTwice(start.events, first.events, events);
      ghost var second := Now();
      ReapCompletedEvents(q);
      ReachesTrans(start, second, Now());
      forall e | e in queues[q].pendingEvents ensures e < |start.events| && start.events[e].signal != 0 {
        NotZeroBefore(start.events, second.events, e);
      }
    }
  }

  ghost predicate Reaped(q: Queue, q': Queue, i: nat) {
    && i < |q.pendingBarriers|
    && q'.pendingBarriers == SwapRemove(q.pendingBarriers, i)
    && q'.pendingDispatches == q.pendingDispatches && q'.pendingEvents == q.pendingEvents
      && q'.progressWaits == q.progressWaits
    && q'.pendingSyncs == q.pendingSyncs && |q'.syncValues| == |q.syncValues|
  }

  lemma FallsTwice(s: State, m: State, s': State, q: nat)
    requires q < |s.queues| && q < |m.queues| && q < |s'.queues|
    requires Falls(s.queues[q], s.events, m.queues[q], m.events)
    requires Falls(m.queues[q], m.events, s'.queues[q], s'.events)
    ensures Falls(s.queues[q], s.events, s'.queues[q], s'.events)
  {
    hide IsZero;
  }

  lemma ReleaseIntact(events: Events, q: nat, deps: seq<nat>)
    ensures Intact(events, ReleaseAll(events, q, deps)) && |ReleaseAll(events, q, deps)| == |events|
    ensures forall e :: 0 <= e < |events| ==> ReleaseAll(events, q, deps)[e].signal == events[e].signal
  {
  }

  lemma ReapBarrierFalls(s: State, q: nat, i: nat)
    requires CanReapBarrier(s, q, i)
    ensures Falls(s.queues[q], s.events, DoReapBarrier(s, q, i).queues[q], DoReapBarrier(s, q, i).events)
    ensures Intact(s.events, DoReapBarrier(s, q, i).events)
    ensures Reaped(s.queues[q], DoReapBarrier(s, q, i).queues[q], i) && Free(DoReapBarrier(s, q, i), q)
  {
    hide IsZero, Falls, ReleaseActive, ReleaseAll, Intact;
    ReleaseIntact(s.events, q, s.queues[q].pendingBarriers[i].dependencies);
    FallsByValues(s.queues[q], s.events, DoReapBarrier(s, q, i).queues[q], DoReapBarrier(s, q, i).events);
  }

  lemma HardwareIntact(s: State, s': State, q: nat)
    requires HardwareOnly(s, s') && q < |s.queues|
    ensures Intact(s.events, s'.events) && Falls(s.queues[q], s.events, s'.queues[q], s'.events)
    ensures q < |s'.queues| && (Free(s, q) ==> Free(s', q))
    ensures s'.queues[q].pendingDispatches == s.queues[q].pendingDispatches
    ensures s'.queues[q].pendingBarriers == s.queues[q].pendingBarriers
    ensures s'.queues[q].pendingEvents == s.queues[q].pendingEvents
    ensures s'.queues[q].progressWaits == s.queues[q].progressWaits
    ensures s'.queues[q].pendingSyncs == s.queues[q].pendingSyncs
    ensures |s'.queues[q].syncValues| == |s.queues[q].syncValues|
  {
    hide Falls;
    assert HostSame(s.queues[q], s'.queues[q]);
    forall e | 0 <= e < |s.events|
      ensures s'.events[e] == s.events[e].(signal := s'.events[e].signal, finished := s'.events[e].finished)
    {
      assert EventSame(s.events[e], s'.events[e]);
    }
  }

  lemma FallsSelf(q: Queue, events: Events)
    ensures Falls(q, events, q, events)
  {
  }

  lemma FallsAt(q: Queue, events: Events, q': Queue, events': Events, x: Signal)
    requires Falls(q, events, q', events') && !IsZero(q', events', x)
    ensures !IsZero(q, events, x)
  {
  }

  // ------------------------------------------------------------ reaping dispatches

  /** Pending dispatches that had completed are still seen as completed. */
  ghost predicate StillZero(s: State, s': State, q: nat) {
    q < |s.queues| && q < |s'.queues| &&
    forall d :: d in s'.queues[q].pendingDispatches && IsZero(s.queues[q], s.events, DispatchSignal(d.signal)) ==>
      IsZero(s'.queues[q], s'.events, DispatchSignal(d.signal))
  }

  /** The walk stopped at an unfinished synchronization's dispatch, or nothing that is
      left had completed when it began. */
  ghost predicate StoppedAt(s: State, pd: seq<PendingDispatch>, q: nat) {
    q < |s.queues| && pd != [] &&
    (SyncNames(s.queues[q], pd[0].signal)
     || forall d :: d in pd ==> !IsZero(s.queues[q], s.events, DispatchSignal(d.signal)))
  }

  ghost predicate SyncsFall(q: Queue, q': Queue) {
    && q'.pendingSyncs == q.pendingSyncs
    && |q'.syncValues| == |q.syncValues|
    && (forall c :: 0 <= c < |q.syncValues| && q.syncValues[c] == 0 ==> q'.syncValues[c] == 0)
  }

  lemma ZeroSelf(s: State, q: nat)
    requires q < |s.queues|
    ensures StillZero(s, s, q) && SyncsFall(s.queues[q], s.queues[q])
  {
  }

  lemma ZeroHardware(s: State, m: State, s': State, q: nat)
    requires StillZero(s, m, q) && SyncsFall(s.queues[q], m.queues[q]) && HardwareOnly(m, s')
    ensures StillZero(s, s', q) && SyncsFall(s.queues[q], s'.queues[q])
    ensures s'.queues[q].pendingDispatches == m.queues[q].pendingDispatches
    ensures s'.queues[q].pendingBarriers == m.queues[q].pendingBarriers
    ensures s'.queues[q].pendingEvents == m.queues[q].pendingEvents
    ensures Free(m, q) ==> Free(s', q)
  {
    var x, x' := m.queues[q], s'.queues[q];
    assert HostSame(x, x') && Falls(x, m.events, x', s'.events);
    forall d | d in x'.pendingDispatches && IsZero(s.queues[q], s.events, DispatchSignal(d.signal))
      ensures IsZero(x', s'.events, DispatchSignal(d.signal))
    {
      assert IsZero(x, m.events, DispatchSignal(d.signal));
    }
    forall c | 0 <= c < |s.queues[q].syncValues| && s.queues[q].syncValues[c] == 0 ensures x'.syncValues[c] == 0 {
      assert IsZero(x, m.events, SyncSignal(c));
      assert IsZero(x', s'.events, SyncSignal(c));
    }
  }

  /** Re-arming the reaped signal touches no other pending dispatch. */
  lemma ZeroReap(s: State, m: State, q: nat)
    requires Good(m) && CanReapDispatch(m, q) && StillZero(s, m, q) && SyncsFall(s.queues[q], m.queues[q])
    ensures StillZero(s, DoReapDispatch(m, q), q) && SyncsFall(s.queues[q], DoReapDispatch(m, q).queues[q])
    ensures DoReapDispatch(m, q).queues[q].pendingDispatches == m.queues[q].pendingDispatches[1..]
    ensures DoReapDispatch(m, q).queues[q].pendingBarriers == m.queues[q].pendingBarriers
    ensures DoReapDispatch(m, q).queues[q].pendingEvents == m.queues[q].pendingEvents && Free(DoReapDispatch(m, q), q)
  {
    hide Inv, Accounted, DispatchSide, BarrierSide, SyncSide, EventSide, SyncNames;
    var x, x' := m.queues[q], ReapDispatchQueue(m.queues[q]);
    HsaFrame.QueueIsOk(m, q);
    forall d | d in x'.pendingDispatches && IsZero(s.queues[q], s.events, DispatchSignal(d.signal))
      ensures IsZero(x', m.events, DispatchSignal(d.signal))
    {
      OtherSignal(x, d);
      assert d in x.pendingDispatches;
    }
  }

  lemma OtherSignal(q: Queue, d: PendingDispatch)
    requires DispatchSide(q) && q.pendingDispatches != [] && d in q.pendingDispatches[1..]
    ensures d.signal != q.pendingDispatches[0].signal && d in q.pendingDispatches
  {
    hide DispatchSide;
    var i :| 0 <= i < |q.pendingDispatches[1..]| && q.pendingDispatches[1..][i] == d;
    assert q.pendingDispatches[i + 1] == d;
    FrontSignal(q, i + 1);
  }

  lemma FrontSignal(q: Queue, i: nat)
    requires DispatchSide(q) && 0 < i < |q.pendingDispatches|
    ensures q.pendingDispatches[i].signal != q.pendingDispatches[0].signal
  {
    assert EntryOk(q.gpu.log, q.gpu.done, q.dispatchValues, q.pendingDispatches[0]);
    if q.pendingDispatches[i].signal == q.pendingDispatches[0].signal { HsaDeviceSteps.OnlyUser(q, 0, i); }
  }

  /** An unfinished front means that everything behind it is unfinished. */
  lemma FrontUnfinished(s: State, s': State, q: nat)
    requires Good(s') && StillZero(s, s', q) && s'.queues[q].pendingDispatches != []
    requires !IsZero(s'.queues[q], s'.events, DispatchSignal(s'.queues[q].pendingDispatches[0].signal))
    ensures StoppedAt(s, s'.queues[q].pendingDispatches, q)
  {
    hide Accounted, QueueGood, LaunchGood, EventGood, BarrierSide, SyncSide, EventSide;
    var x := s'.queues[q];
    HsaFrame.QueueIsOk(s', q);
    forall d | d in x.pendingDispatches ensures !IsZero(x, s'.events, DispatchSignal(d.signal)) {
      var i :| 0 <= i < |x.pendingDispatches| && x.pendingDispatches[i] == d;
      assert EntryOk(x.gpu.log, x.gpu.done, x.dispatchValues, x.pendingDispatches[0]);
      assert EntryOk(x.gpu.log, x.gpu.done, x.dispatchValues, x.pendingDispatches[i]);
      assert i > 0 ==> HoldsBack(x.gpu.log, x.pendingDispatches[0].pid, x.pendingDispatches[i].pid);
    }
  }

  lemma NamedBefore(s: State, s': State, q: nat)
    requires q < |s.queues| && q < |s'.queues| && SyncsFall(s.queues[q], s'.queues[q])
    requires s'.queues[q].pendingDispatches != []
    requires SyncNames(s'.queues[q], s'.queues[q].pendingDispatches[0].signal)
    ensures StoppedAt(s, s'.queues[q].pendingDispatches, q)
  {
    var x, x', h := s.queues[q], s'.queues[q], s'.queues[q].pendingDispatches[0].signal;
    var i :| 0 <= i < |x'.pendingSyncs| && SyncConsumer(x', x'.pendingSyncs[i], h);
    assert SyncConsumer(x, x.pendingSyncs[i], h);
  }

  lemma StoppedEarlier(s: State, m: State, pd: seq<PendingDispatch>, q: nat)
    requires q < |s.queues| && StoppedAt(m, pd, q) && Falls(s.queues[q], s.events, m.queues[q], m.events)
    requires m.queues[q].pendingSyncs == s.queues[q].pendingSyncs
    requires |m.queues[q].syncValues| == |s.queues[q].syncValues|
    ensures StoppedAt(s, pd, q)
  {
    var x, x', h := s.queues[q], m.queues[q], pd[0].signal;
    if SyncNames(x', h) {
      var i :| 0 <= i < |x'.pendingSyncs| && SyncConsumer(x', x'.pendingSyncs[i], h);
      assert IsZero(x, s.events, SyncSignal(x.pendingSyncs[i].completion)) ==>
        IsZero(x', m.events, SyncSignal(x.pendingSyncs[i].completion));
      assert SyncConsumer(x, x.pendingSyncs[i], h);
    }
  }

  // ------------------------------------------------------------- finishing events

  /** Queue q lists the event no more and retires nothing on its signal. */
  ghost predicate Finished(s: State, s': State, e: nat, q: nat) {
    && q < |s.queues|
    && Free(s', q)
    && !RetiresOn(s'.queues[q], EventSignal(e))
    && e !in s'.queues[q].pendingEvents
    && s'.queues[q].pendingEvents == DropEvent(s.queues[q].pendingEvents, e)
    && s'.queues[q].pendingDispatches == s.queues[q].pendingDispatches
    && (forall b :: b in s'.queues[q].pendingBarriers ==> b in s.queues[q].pendingBarriers)
  }

  ghost predicate EventsFallen(events: Events, events': Events) {
    |events'| == |events| && forall e :: 0 <= e < |events| && events[e].signal == 0 ==> events'[e].signal == 0
  }

  lemma FallenBy(q: Queue, events: Events, q': Queue, events': Events)
    requires Falls(q, events, q', events') && |events'| == |events|
    ensures EventsFallen(events, events')
  {
    forall e: nat | e < |events| && events[e].signal == 0 ensures events'[e].signal == 0 {
      assert IsZero(q, events, EventSignal(e));
      assert IsZero(q', events', EventSignal(e));
    }
  }

  lemma MarkedOnQueue(s: State, e: nat)
    requires Good(s) && e < |s.events| && s.events[e].pending && s.events[e].recorded.Some?
    ensures s.events[e].recorded.value.queue < |s.queues|
  {
    hide Accounted, QueueGood, LaunchGood;
    assert EventGood(s, e);
  }

  lemma FinishReady(s: State, s': State, e: nat, q: nat)
    requires e < |s.events| && s.events[e].signal == 0 && q < |s.queues| && q < |s'.queues|
    requires forall b :: b in s'.queues[q].pendingBarriers ==> !IsZero(s.queues[q], s.events, b.retirement)
    requires Falls(s.queues[q], s.events, s'.queues[q], s'.events) && |s'.events| == |s.events|
    ensures !RetiresOn(s'.queues[q], EventSignal(e)) && s'.events[e].signal == 0
  {
    assert IsZero(s.queues[q], s.events, EventSignal(e));
    assert IsZero(s'.queues[q], s'.events, EventSignal(e));
    assert forall i :: 0 <= i < |s'.queues[q].pendingBarriers| ==>
      s'.queues[q].pendingBarriers[i] in s'.queues[q].pendingBarriers;
  }

  lemma IntactLength(events: Events, events': Events)
    requires Intact(events, events')
    ensures |events'| == |events|
  {
  }

  lemma IntactEvent(events: Events, events': Events, e: nat)
    requires Intact(events, events') && e < |events|
    ensures |events'| == |events| && events'[e].pending == events[e].pending
    ensures events'[e].recorded == events[e].recorded
  {
  }

  lemma FallenSelf(events: Events)
    ensures EventsFallen(events, events) && Intact(events, events)
  {
  }

  lemma FallenTwice(a: Events, b: Events, c: Events)
    requires EventsFallen(a, b) && EventsFallen(b, c)
    ensures EventsFallen(a, c)
  {
  }

  lemma NotZeroBefore(events: Events, events': Events, e: nat)
    requires EventsFallen(events, events') && e < |events'| && events'[e].signal != 0
    ensures e < |events| && events[e].signal != 0
  {
  }

  lemma HardwareFallen(s: State, m: State, s': State, q: nat)
    requires EventsFallen(s.events, m.events) && HardwareOnly(m, s') && Free(m, q)
    ensures EventsFallen(s.events, s'.events) && Free(s', q) && |s'.events| == |m.events|
    ensures s'.queues[q].pendingEvents == m.queues[q].pendingEvents
    ensures s'.queues[q].pendingDispatches == m.queues[q].pendingDispatches
    ensures s'.queues[q].pendingBarriers == m.queues[q].pendingBarriers
  {
    hide Falls;
    assert HostSame(m.queues[q], s'.queues[q]);
    assert Falls(m.queues[q], m.events, s'.queues[q], s'.events);
    FallenBy(m.queues[q], m.events, s'.queues[q], s'.events);
  }

  /** A listed event is pending and marked on this queue. */
  lemma ListedEvent(s: State, q: nat, i: nat)
    requires Good(s) && q < |s.queues| && i < |s.queues[q].pendingEvents|
    ensures var e := s.queues[q].pendingEvents[i];
      e < |s.events| && s.events[e].pending && s.events[e].recorded.Some? && s.events[e].recorded.value.queue == q
    ensures Distinct(s.queues[q].pendingEvents)
  {
    hide Accounted, QueueGood, LaunchGood, EventGood, DispatchSide, BarrierSide, SyncSide;
    HsaFrame.QueueIsOk(s, q);
    assert MarkerOk(q, s.queues[q].gpu.log, s.queues[q].gpu.done, s.events, s.queues[q].pendingEvents[i]);
  }

  lemma DroppedAt(s: State, s': State, q: nat, i: nat)
    requires q < |s.queues| && i < |s.queues[q].pendingEvents| && Distinct(s.queues[q].pendingEvents)
    requires Finished(s, s', s.queues[q].pendingEvents[i], q)
    ensures Free(s', q)
    ensures s'.queues[q].pendingDispatches == s.queues[q].pendingDispatches
    ensures forall b :: b in s'.queues[q].pendingBarriers ==> b in s.queues[q].pendingBarriers
    ensures |s'.queues[q].pendingEvents| == |s.queues[q].pendingEvents| - 1
    ensures forall k :: 0 <= k < i ==> s'.queues[q].pendingEvents[k] == s.queues[q].pendingEvents[k]
    ensures forall e :: e in s'.queues[q].pendingEvents ==> e in s.queues[q].pendingEvents
  {
    var pe := s.queues[q].pendingEvents;
    var j := IndexOf(pe, pe[i]);
    assert j == i;
  }

  lemma FinishDrops(start: State, s: State, e: nat)
    requires CanFinishEvent(s, e) && Intact(start.events, s.events)
      && (s.events[e].recorded.None? ==> s.events == start.events)
    ensures ReferencesDropped(start.events, DoFinishEvent(s, e).events, e)
  {
    hide RetiresOn, DropEvent;
  }

  lemma FinishLeaves(start: State, s: State, e: nat)
    requires Good(s) && CanFinishEvent(s, e) && EventsFallen(start.events, s.events)
    requires s.events[e].recorded.Some? ==>
      s.events[e].recorded.value.queue < |start.queues|
      && s.queues[s.events[e].recorded.value.queue].pendingEvents
        == start.queues[s.events[e].recorded.value.queue].pendingEvents
      && s.queues[s.events[e].recorded.value.queue].pendingDispatches
        == start.queues[s.events[e].recorded.value.queue].pendingDispatches
      && (forall b :: b in s.queues[s.events[e].recorded.value.queue].pendingBarriers ==>
            b in start.queues[s.events[e].recorded.value.queue].pendingBarriers)
    ensures e < |DoFinishEvent(s, e).events| && EventsFallen(start.events, DoFinishEvent(s, e).events)
    ensures !DoFinishEvent(s, e).events[e].pending && DoFinishEvent(s, e).events[e].recorded.None?
    ensures s.events[e].recorded.Some? ==> Finished(start, DoFinishEvent(s, e), e, s.events[e].recorded.value.queue)
  {
    hide Accounted, QueueGood, LaunchGood, EventGood, DispatchSide, BarrierSide, SyncSide;
    if s.events[e].recorded.Some? {
      var q := s.events[e].recorded.value.queue;
      HsaFrame.QueueIsOk(s, q);
      Dropped(s.queues[q].pendingEvents, e);
    }
  }
}
