/** The loops of the hsakmt backend on state updated in place. */
module HsakmtRuntime {
  import opened Common
  import opened Hsakmt
  import opened HsakmtOps
  import opened HsakmtRuns

  /** Only the hardware ran: host lists are the same and signals only fell. */
  ghost predicate HardwareOnly(s: State, s': State) {
    && |s'.queues| == |s.queues| && |s'.events| == |s.events|
    && (forall q :: 0 <= q < |s.queues| ==> HostSame(s.queues[q], s'.queues[q]))
    && (forall e :: 0 <= e < |s.events| ==> EventSame(s.events[e], s'.events[e]))
  }

  ghost predicate HostSame(q: Queue, q': Queue) {
    && q' == q.(taken := q'.taken, done := q'.done, values := q'.values)
    && |q'.values| == |q.values|
    && (forall h :: 0 <= h < |q.values| && q.values[h] == 0 ==> q'.values[h] == 0)
  }

  ghost predicate EventSame(a: Event, b: Event) {
    b == a.(signal := b.signal) && (a.signal == 0 ==> b.signal == 0)
  }

  lemma GpuHardwareOnly(s: State, a: GpuStep)
    requires GpuEnabled(s, a)
    ensures HardwareOnly(s, GpuNext(s, a)) && Settles(s, GpuNext(s, a))
  {
  }

  lemma HardwareTwice(s: State, m: State, s': State)
    requires HardwareOnly(s, m) && HardwareOnly(m, s')
    ensures HardwareOnly(s, s')
  {
  }

  /** What was zero for queue q stays zero; its dispatches are the same. */
  ghost predicate Falls(s: State, s': State, q: nat) {
    && q < |s.queues| && q < |s'.queues|
    && (forall x :: IsZero(s.queues[q], s.events, x) ==> IsZero(s'.queues[q], s'.events, x))
  }

  lemma HardwareFalls(s: State, s': State, q: nat)
    requires HardwareOnly(s, s') && q < |s.queues|
    ensures Falls(s, s', q) && HostSame(s.queues[q], s'.queues[q])
  {
  }

  lemma FallsTwice(s: State, m: State, s': State, q: nat)
    requires Falls(s, m, q) && Falls(m, s', q)
    ensures Falls(s, s', q)
  {
  }

  /** No event was armed, finished or moved. */
  ghost predicate Intact(events: Events, events': Events) {
    && |events'| == |events|
    && (forall e :: 0 <= e < |events| ==>
          events'[e] == events[e].(signal := events'[e].signal, depCount := events'[e].depCount))
  }

  lemma RetireBarrierFalls(s: State, q: nat, i: nat)
    requires q < |s.queues| && i < |s.queues[q].barriers|
    ensures Falls(s, RetireBarrier(s, q, i), q) && Intact(s.events, RetireBarrier(s, q, i).events)
  {
  }

  lemma StillRetired(s: State, s': State, q: nat, b: Pending)
    requires Falls(s, s', q) && s'.queues[q].dispatches == s.queues[q].dispatches
    ensures Retired(s.queues[q], s.events, b) ==> Retired(s'.queues[q], s'.events, b)
  {
  }

  /** Reaping, finishing and hardware progress: nothing is armed, added or given back. */
  ghost predicate Settles(s: State, s': State) {
    && |s'.queues| == |s.queues| && |s'.events| == |s.events|
    && (forall q :: 0 <= q < |s.queues| ==> QueueSettles(s.queues[q], s'.queues[q]))
    && (forall e :: 0 <= e < |s.events| ==> EventSettles(s.events[e], s'.events[e]))
  }

  ghost predicate QueueSettles(q: Queue, q': Queue) {
    && q'.log == q.log && q'.taken >= q.taken
    && (q'.barriers != [] ==> q.barriers != [])
    && |q'.dispatches| <= |q.dispatches| && |q'.pendingEvents| <= |q.pendingEvents|
  }

  ghost predicate EventSettles(a: Event, b: Event) {
    && (b.pending ==> a.pending) && b.depCount <= a.depCount && b.released == a.released
    && (a.completed ==> b.completed) && (a.pending && !b.pending ==> b.completed)
    && (a.signal == 0 ==> b.signal == 0)
  }

  lemma SettlesTwice(s: State, m: State, s': State)
    requires Settles(s, m) && Settles(m, s')
    ensures Settles(s, s')
  {
    forall q | 0 <= q < |s.queues| ensures QueueSettles(s.queues[q], s'.queues[q]) {
      assert QueueSettles(s.queues[q], m.queues[q]) && QueueSettles(m.queues[q], s'.queues[q]);
    }
    forall e | 0 <= e < |s.events| ensures EventSettles(s.events[e], s'.events[e]) {
      assert EventSettles(s.events[e], m.events[e]) && EventSettles(m.events[e], s'.events[e]);
    }
  }

  lemma RetireBarrierSettles(s: State, q: nat, i: nat)
    requires q < |s.queues| && i < |s.queues[q].barriers|
    ensures Settles(s, RetireBarrier(s, q, i))
  {
  }

  lemma RetireDispatchSettles(s: State, q: nat)
    requires CanRetire(s, q)
    ensures Settles(s, RetireDispatch(s, q))
  {
  }

  lemma FinishSettles(s: State, e: nat)
    requires CanFinish(s, e)
    ensures Settles(s, FinishEvent(s, e))
  {
    RemoveShorter(s.queues[s.events[e].recorded.value].pendingEvents, e);
  }

  lemma {:induction false} RemoveShorter(pe: seq<nat>, e: nat)
    ensures |Remove(pe, e)| == if e in pe then |pe| - 1 else |pe|
  {
    if pe != [] && pe[0] != e { RemoveShorter(pe[1..], e); }
  }

  lemma IdleSettles(s: State, s': State, e: nat)
    requires Settles(s, s') && Idle(s, e)
    ensures Idle(s', e)
  {
    assert EventSettles(s.events[e], s'.events[e]);
  }

  /** The result of an operation on an event: carried out, refused by the ring after the
      event was armed, or stopped before anything was armed. */
  datatype Outcome = Done | Refused | Stopped

  predicate Consumes(q: Queue, e: nat) {
    exists i :: 0 <= i < |q.barriers| && e in q.barriers[i].deps
  }

  class Runtime {
    var queues: seq<Queue>
    var events: seq<Event>

    /** What the hardware does at each opportunity. */
    var hardware: seq<seq<GpuStep>>

    ghost function Now(): State
      reads this
    {
      State(queues, events)
    }

    /** The state was produced by a run. */
    ghost predicate Valid()
      reads this
    {
      Reachable(Now())
    }

    constructor (hardware: seq<seq<GpuStep>>)
      ensures Valid() && Now() == Init() && this.hardware == hardware
    {
      queues, events, this.hardware := [], [], hardware;
      new;
      Start();
    }

    method CreateQueue() returns (q: nat)
      requires Valid()
      modifies `queues
      ensures Valid() && q == old(|queues|) && queues == old(queues) + [FreshQueue()]
    {
      hide Reachable;
      Extend(Now(), NewQueue);
      q := |queues|;
      queues := queues + [FreshQueue()];
    }

    method CreateEvent() returns (e: nat)
      requires Valid()
      modifies `events
      ensures Valid() && e == old(|events|) && events == old(events) + [FreshEvent()]
    {
      hide Reachable;
      Extend(Now(), NewEvent);
      e := |events|;
      events := events + [FreshEvent()];
    }

    method Hardware()
      requires Valid()
      modifies this
      ensures Valid() && HardwareOnly(old(Now()), Now()) && Settles(old(Now()), Now())
      ensures hardware == if old(hardware) == [] then [] else old(hardware)[1..]
    {
      hide Reachable, GpuEnabled, GpuNext, HardwareOnly, Settles;
      assert HardwareOnly(Now(), Now()) && Settles(Now(), Now()) by { Nothing(Now()); }
      if hardware == [] { return; }
      var batch := hardware[0];
      hardware := hardware[1..];
      for i := 0 to |batch|
        invariant Valid() && HardwareOnly(old(Now()), Now()) && Settles(old(Now()), Now())
        invariant hardware == old(hardware)[1..]
      {
        if GpuEnabled(State(queues, events), batch[i]) {
          Extend(Now(), Gpu(batch[i]));
          GpuHardwareOnly(Now(), batch[i]);
          HardwareTwice(old(Now()), Now(), GpuNext(Now(), batch[i]));
          SettlesTwice(old(Now()), Now(), GpuNext(Now(), batch[i]));
          var s := GpuNext(State(queues, events), batch[i]);
          queues, events := s.queues, s.events;
        }
      }
    }

    /** reap_completed_light_rocr_barriers_locked.  Every barrier whose dispatch had
        completed on entry is gone. */
    method ReapBarriers(q: nat)
      requires Valid() && q < |queues|
      modifies this
      ensures Valid() && q < |queues| && Settles(old(Now()), Now())
      ensures Falls(old(Now()), Now(), q) && Intact(old(events), events) && |hardware| <= old(|hardware|)
      ensures queues[q].dispatches == old(queues[q].dispatches)
      ensures queues[q].pendingEvents == old(queues[q].pendingEvents)
      ensures forall b :: b in queues[q].barriers ==>
        b in old(queues[q].barriers) && !Retired(old(queues[q]), old(events), b)
    {
      hide Reachable, Falls, Retired, HardwareOnly, Settles, SwapRemove, Release;
      ghost var start := Now();
      assert Falls(start, Now(), q) && Settles(start, Now()) by { Nothing(start); HardwareFalls(start, start, q); }
      var index := 0;
      while index < |queues[q].barriers|
        invariant Valid() && q < |queues| && Falls(start, Now(), q) && Intact(start.events, events)
        invariant Settles(start, Now())
        invariant q < |start.queues| && index <= |queues[q].barriers| && |hardware| <= old(|hardware|)
        invariant queues[q].dispatches == start.queues[q].dispatches
        invariant queues[q].pendingEvents == start.queues[q].pendingEvents
        invariant forall b :: b in queues[q].barriers ==> b in start.queues[q].barriers
        invariant forall i :: 0 <= i < index ==> !Retired(start.queues[q], start.events, queues[q].barriers[i])
        decreases |queues[q].barriers| - index
      {
        ghost var before := Now();
        Hardware();
        HardwareFalls(before, Now(), q);
        HardwareIntact(before, Now());
        FallsTwice(start, before, Now(), q);
        SettlesTwice(start, before, Now());
        if !Retired(queues[q], events, queues[q].barriers[index]) {
          StillRetired(start, Now(), q, queues[q].barriers[index]);
          index := index + 1;
        } else {
          ghost var loaded := Now();
          Extend(loaded, ReapBarrier(q, index));
          RetireBarrierFalls(loaded, q, index);
          RetireBarrierSettles(loaded, q, index);
          events := Release(events, queues[q].barriers[index].deps);
          queues := queues[q := queues[q].(barriers := SwapRemove(queues[q].barriers, index))];
          assert Now() == RetireBarrier(loaded, q, index);
          FallsTwice(start, loaded, Now(), q);
          SettlesTwice(start, loaded, Now());
        }
      }
    }

    /** reap_completed_light_rocr_dispatches_locked.  No dispatch that had completed on
        entry is left, even if the hardware completes more between the two passes. */
    method ReapDispatches(q: nat)
      requires Valid() && q < |queues|
      modifies this
      ensures Valid() && q < |queues| && Settles(old(Now()), Now()) && Intact(old(events), events)
      ensures |hardware| <= old(|hardware|)
      ensures queues[q].pendingEvents == old(queues[q].pendingEvents)
      ensures exists k ::
        0 <= k <= old(|queues[q].dispatches|) && queues[q].dispatches == old(queues[q].dispatches)[k..]
      ensures forall d :: d in queues[q].dispatches ==>
        d in old(queues[q].dispatches) && !IsZero(old(queues[q]), old(events), d.signal)
    {
      hide Reachable, Falls, Retired, HardwareOnly, Blocks, IsZero, Settles;
      ghost var start := Now();
      ReapBarriers(q);
      var completed := 0;
      var more := true;
      ghost var ds := start.queues[q].dispatches;
      while more && queues[q].dispatches != []
        invariant Valid() && q < |queues| && q < |start.queues| && Falls(start, Now(), q)
        invariant Intact(start.events, events)
        invariant Settles(start, Now()) && |hardware| <= old(|hardware|)
        invariant queues[q].pendingEvents == start.queues[q].pendingEvents
        invariant completed <= |ds| && queues[q].dispatches == ds[completed..]
        invariant forall b :: b in queues[q].barriers ==> !Retired(start.queues[q], start.events, b)
        invariant more || (queues[q].dispatches != []
          && !IsZero(start.queues[q], start.events, queues[q].dispatches[0].signal))
        decreases more, |ds| - completed
      {
        ghost var before := Now();
        Hardware();
        HardwareFalls(before, Now(), q);
        HardwareIntact(before, Now());
        FallsTwice(start, before, Now(), q);
        SettlesTwice(start, before, Now());
        var front := queues[q].dispatches[0];
        if !IsZero(queues[q], events, front.signal) {
          NotYet(start, Now(), q, front.signal);
          more := false;
        } else if Blocks(queues[q], front.pid) {
          BlockedFront(start, queues[q], q, completed);
          more := false;
        } else {
          ghost var loaded := Now();
          Extend(loaded, ReapDispatch(q));
          queues := queues[q := queues[q].(dispatches := queues[q].dispatches[1..])];
          assert Now() == RetireDispatch(loaded, q);
          RetireDispatchFalls(loaded, q);
          RetireDispatchSettles(loaded, q);
          FallsTwice(start, loaded, Now(), q);
          SettlesTwice(start, loaded, Now());
          assert ds[completed..][1..] == ds[completed + 1..];
          completed := completed + 1;
        }
      }
      ReachableInv(start);
      NoneLeft(start, q, completed);
    }

    /** finish_light_rocr_event_wait_locked: retire the completed dispatches of the event's
        queue first.  Afterwards the event is idle and no dispatch borrows its signal. */
    method FinishEventWait(e: nat)
      requires Valid() && e < |events| && events[e].pending && events[e].signal == 0
      modifies this
      ensures Valid() && Settles(old(Now()), Now()) && |hardware| <= old(|hardware|)
      ensures e < |events| && !events[e].pending && events[e].completed
      ensures forall q, d :: 0 <= q < |queues| && d in queues[q].dispatches ==> d.signal != Borrowed(e)
      ensures old(events[e].recorded.Some? && events[e].recorded.value < |queues|)
      ensures old(events[e].recorded.value) < |queues|
      ensures queues[old(events[e].recorded.value)].pendingEvents
        == Remove(old(queues[events[e].recorded.value].pendingEvents), e)
    {
      hide Reachable, QueueOk, CountsOk, IsZero, Settles;
      ghost var start := Now();
      ReachableInv(start);
      var q := events[e].recorded.value;
      ReapDispatches(q);
      assert Intact(start.events, events) && events[e].signal == 0 by { StillZero(start, Now(), e); }
      forall d | d in queues[q].dispatches ensures d.signal != Borrowed(e) {
        assert IsZero(start.queues[q], start.events, Borrowed(e)) by { EventZero(start, q, e); }
      }
      ghost var reaped := Now();
      Extend(reaped, Finish(e));
      FinishSettles(reaped, e);
      queues := queues[q := queues[q].(pendingEvents := Remove(queues[q].pendingEvents, e))];
      events := events[e := events[e].(pending := false, completed := true, recorded := None)];
      assert Now() == FinishEvent(reaped, e);
      SettlesTwice(start, reaped, Now());
      ReachableInv(Now());
      NoBorrower(Now(), e);
    }

    /** reap_completed_light_rocr_events_locked.  A front event that had completed on entry
        is finished. */
    method ReapEvents(q: nat)
      requires Valid() && q < |queues|
      modifies this
      ensures Valid() && Settles(old(Now()), Now()) && |hardware| <= old(|hardware|)
      ensures q < |queues| && |queues[q].pendingEvents| <= old(|queues[q].pendingEvents|)
      ensures old(queues[q].pendingEvents != [] && FrontDone(queues[q], events)) ==>
        |queues[q].pendingEvents| < old(|queues[q].pendingEvents|)
    {
      hide Reachable, HardwareOnly, Settles;
      ghost var start := Now();
      assert Settles(start, start) by { Nothing(start); }
      var more := true;
      ghost var n := |queues[q].pendingEvents|;
      while more && queues[q].pendingEvents != []
        invariant Valid() && Settles(start, Now()) && |hardware| <= old(|hardware|)
        invariant q < |queues| && q < |start.queues| && |queues[q].pendingEvents| <= n
        invariant |queues[q].pendingEvents| == n ==> queues[q].pendingEvents == start.queues[q].pendingEvents
        invariant !more ==> |queues[q].pendingEvents| < n || !FrontDone(start.queues[q], start.events)
        decreases more, |queues[q].pendingEvents|
      {
        ghost var before := Now();
        Hardware();
        SameLists(before, Now(), q);
        SettlesTwice(start, before, Now());
        var e := queues[q].pendingEvents[0];
        FrontPending(Now(), q);
        if events[e].signal != 0 {
          NotYetFront(start, Now(), q);
          more := false;
        } else {
          ghost var loaded := Now();
          FinishEventWait(e);
          SettlesTwice(start, loaded, Now());
        }
      }
    }

    /** Wait for a signal.  The wait fails if the hardware never gets there. */
    method WaitFor(q: nat, x: Signal) returns (ok: bool)
      requires Valid() && q < |queues|
      modifies this
      ensures Valid() && HardwareOnly(old(Now()), Now()) && Settles(old(Now()), Now()) && |hardware| <= old(|hardware|)
      ensures q < |queues| && (ok ==> IsZero(queues[q], events, x))
    {
      hide Reachable, HardwareOnly, Settles, IsZero;
      ghost var start := Now();
      assert HardwareOnly(start, start) && Settles(start, start) by { Nothing(start); }
      while !IsZero(queues[q], events, x) && hardware != []
        invariant Valid() && q < |queues| && |hardware| <= old(|hardware|)
        invariant HardwareOnly(start, Now()) && Settles(start, Now())
        decreases |hardware|
      {
        ghost var before := Now();
        Hardware();
        HardwareTwice(start, before, Now());
        SettlesTwice(start, before, Now());
        SameLists(before, Now(), q);
      }
      ok := IsZero(queues[q], events, x);
    }

    /** The body shared by the two waiting loops of a queue: wait for the front dispatch or
        the front event, then reap.  One of the two lists gets shorter. */
    method WaitFront(q: nat) returns (ok: bool)
      requires Valid() && q < |queues| && (queues[q].dispatches != [] || queues[q].pendingEvents != [])
      modifies this
      ensures Valid() && Settles(old(Now()), Now()) && q < |queues|
      ensures ok ==>
        |queues[q].dispatches| + |queues[q].pendingEvents| < old(|queues[q].dispatches| + |queues[q].pendingEvents|)
    {
      hide Reachable, HardwareOnly, Settles, IsZero;
      ghost var start := Now();
      var x := if queues[q].dispatches != [] then queues[q].dispatches[0].signal
        else Borrowed(queues[q].pendingEvents[0]);
      ok := WaitFor(q, x);
      SameLists(start, Now(), q);
      if !ok { return; }
      ghost var waited := Now();
      ReapDispatches(q);
      SettlesTwice(start, waited, Now());
      ghost var reaped := Now();
      SettlesLists(waited, reaped, q);
      if start.queues[q].dispatches != [] {
        FrontGone(start.queues[q].dispatches, queues[q].dispatches);
      } else {
        StillFront(waited, reaped, q);
      }
      ReapEvents(q);
      SettlesTwice(start, reaped, Now());
      SettlesLists(reaped, Now(), q);
    }

    /** synchronize_light_rocr_queue_locked: afterwards nothing of the queue is pending. */
    method Synchronize(q: nat) returns (ok: bool)
      requires Valid() && q < |queues|
      modifies this
      ensures Valid() && Settles(old(Now()), Now()) && q < |queues|
      ensures ok ==> queues[q].dispatches == [] && queues[q].barriers == [] && queues[q].pendingEvents == []
    {
      hide Reachable, Settles;
      ghost var start := Now();
      assert Settles(start, start) by { Nothing(start); }
      while queues[q].dispatches != [] || queues[q].barriers != [] || queues[q].pendingEvents != []
        invariant Valid() && Settles(start, Now()) && q < |queues|
        decreases |queues[q].dispatches| + |queues[q].pendingEvents|
      {
        if queues[q].dispatches == [] && queues[q].pendingEvents == [] { return false; }
        ghost var before := Now();
        ok := WaitFront(q);
        SettlesTwice(start, before, Now());
        if !ok { return; }
      }
      ok := true;
    }

    /** ensure_light_rocr_queue_capacity_locked: room for `required` more packets between
        the packets the hardware has taken and the end of the ring. */
    method EnsureCapacity(q: nat, required: nat, size: nat) returns (ok: bool)
      requires Valid() && q < |queues|
      modifies this
      ensures Valid() && Settles(old(Now()), Now()) && q < |queues|
      ensures ok ==> 0 < required && |queues[q].log| + required <= queues[q].taken + size
    {
      hide Reachable, Settles;
      ghost var start := Now();
      assert Settles(start, start) by { Nothing(start); }
      if required == 0 || required > size { return false; }
      while true
        invariant Valid() && Settles(start, Now()) && q < |queues|
        decreases |queues[q].dispatches| + |queues[q].pendingEvents|
      {
        ghost var before := Now();
        ReapDispatches(q);
        ghost var reaped := Now();
        SettlesTwice(start, before, reaped);
        SettlesTwice(before, before, reaped) by { Nothing(before); }
        ReapEvents(q);
        SettlesTwice(start, reaped, Now());
        SettlesTwice(before, reaped, Now());
        SettlesLists(before, Now(), q);
        if |queues[q].log| - queues[q].taken <= size - required { return true; }
        if queues[q].dispatches == [] && queues[q].pendingEvents == [] { return false; }
        ghost var full := Now();
        ok := WaitFront(q);
        SettlesTwice(start, full, Now());
        if !ok { return; }
      }
    }

    /** wait_for_light_rocr_event_locked. */
    method WaitEvent(e: nat) returns (ok: bool)
      requires Valid() && e < |events|
      modifies this
      ensures Valid() && Settles(old(Now()), Now())
      ensures e < |events| && (ok ==> !events[e].pending)
    {
      hide Reachable, HardwareOnly, Settles, QueueOk, CountsOk;
      ghost var start := Now();
      assert Settles(start, start) by { Nothing(start); }
      if !events[e].pending { return true; }
      ReachableInv(start);
      ok := WaitFor(events[e].recorded.value, Borrowed(e));
      HardwareEvents(start, Now(), e);
      if !ok { return; }
      ghost var waited := Now();
      FinishEventWait(e);
      SettlesTwice(start, waited, Now());
    }

    /** A queue that still holds a barrier naming the event. */
    method FindConsumer(e: nat) returns (q: nat)
      requires Valid() && e < |events| && events[e].depCount != 0
      ensures q < |queues| && Consumes(queues[q], e)
    {
      hide Reachable, QueueOk;
      ReachableInv(Now());
      SomeConsumer(Now(), e);
      q := 0;
      while !Consumes(queues[q], e)
        invariant q < |queues|
        invariant exists k :: q <= k < |queues| && Consumes(queues[k], e)
        decreases |queues| - q
      {
        q := q + 1;
      }
    }

    /** wait_for_light_rocr_event_consumers_locked. */
    method WaitConsumers(e: nat) returns (ok: bool)
      requires Valid() && e < |events|
      modifies this
      ensures Valid() && Settles(old(Now()), Now())
      ensures e < |events| && (ok ==> events[e].depCount == 0)
    {
      hide Reachable, Settles;
      ghost var start := Now();
      assert Settles(start, start) by { Nothing(start); }
      while events[e].depCount != 0
        invariant Valid() && Settles(start, Now()) && e < |events|
        decreases Busy(queues)
      {
        ghost var before := Now();
        var q := FindConsumer(e);
        ok := Synchronize(q);
        SettlesTwice(start, before, Now());
        LessBusy(before, Now(), q);
        if !ok { return; }
      }
      ok := true;
    }

    /** The wait for the event and the wait for everything that depends on it, as record,
        copy and destroy perform them before they touch the signal. */
    method Quiesce(e: nat) returns (ok: bool)
      requires Valid() && e < |events| && !events[e].released
      modifies this
      ensures Valid() && Settles(old(Now()), Now()) && (ok ==> Idle(Now(), e))
    {
      hide Reachable;
      ghost var start := Now();
      ok := WaitEvent(e);
      if !ok { return; }
      ghost var finished := Now();
      ok := WaitConsumers(e);
      SettlesTwice(start, finished, Now());
    }

    /** lr_event_record.  The signal is armed in a state that only settled since the call,
        in which nothing the hardware or the host holds refers to it. */
    method RecordEvent(q: nat, e: nat, size: nat, accepted: bool) returns (r: Outcome, ghost at: State)
      requires Valid()
      modifies this
      ensures Valid() && Settles(old(Now()), at)
      ensures r.Stopped? ==> Now() == at
      ensures !r.Stopped? ==> CanRecord(at, q, e) && Untouched(at, e)
      ensures r.Done? ==> Now() == Recorded(at, q, e)
      ensures r.Refused? ==> Now() == at.(events := Failed(at.events, Some(e)))
    {
      hide Reachable, Settles, Untouched;
      ghost var start := Now();
      at := start;
      assert Settles(start, start) by { Nothing(start); }
      if e >= |events| || events[e].released { return Stopped, at; }
      var ok := Quiesce(e);
      at := Now();
      if !ok || q >= |queues| { return Stopped, at; }
      ok := EnsureCapacity(q, 1, size);
      SettlesTwice(start, at, Now());
      IdleSettles(at, Now(), e);
      at := Now();
      if !ok { return Stopped, at; }
      ArmOrReleaseSafe(at, RefusedRecord(q, e), e);
      if accepted {
        Extend(at, Record(q, e));
        var x := queues[q];
        events := events[e := events[e].(signal := 1, pending := true, completed := false, recorded := Some(q),
                                         packet := |x.log|)];
        queues := queues[q := x.(log := x.log + [Marker(e)], pendingEvents := x.pendingEvents + [e])];
        r := Done;
      } else {
        Extend(at, RefusedRecord(q, e));
        events := events[e := events[e].(signal := 0)];
        r := Refused;
      }
    }

    /** lr_event_destroy.  The signal is given back only when nothing refers to it. */
    method DestroyEvent(e: nat) returns (ok: bool, ghost at: State)
      requires Valid()
      modifies this
      ensures Valid() && Settles(old(Now()), at)
      ensures !ok ==> Now() == at
      ensures ok ==>
        Idle(at, e) && Untouched(at, e) && Now() == at.(events := GiveBack(at.events, e)) && Untouched(Now(), e)
    {
      hide Reachable, Settles, Untouched;
      at := Now();
      assert Settles(at, at) by { Nothing(at); }
      if e >= |events| || events[e].released { return false, at; }
      ok := Quiesce(e);
      at := Now();
      if ok {
        ArmOrReleaseSafe(at, Destroy(e), e);
        Extend(at, Destroy(e));
        events := events[e := events[e].(released := true)];
        ReleasedUntouched(Now(), e);
      }
    }

    /** collect_light_rocr_event_dependencies_locked: every dependency must be a distinct live
        event that was recorded once; those that are still running are returned. */
    method CollectDependencies(deps: seq<nat>, completion: Option<nat>) returns (ok: bool, waiting: seq<nat>)
      requires Valid()
      modifies this
      ensures Valid() && Settles(old(Now()), Now()) && HardwareOnly(old(Now()), Now())
      ensures ok <==> Distinct(deps) && forall e :: e in deps ==> Awaitable(Now(), completion, e)
      ensures ok ==> forall e :: e in deps && e !in waiting ==> !events[e].pending || events[e].signal == 0
      ensures forall e :: e in waiting ==> e in deps && Awaitable(Now(), completion, e)
    {
      hide Reachable, HardwareOnly, Settles;
      ghost var start := Now();
      assert HardwareOnly(start, start) && Settles(start, start) by { Nothing(start); }
      waiting := [];
      for i := 0 to |deps|
        invariant Valid() && Settles(start, Now()) && HardwareOnly(start, Now())
        invariant Distinct(deps[..i]) && forall e :: e in deps[..i] ==> Awaitable(Now(), completion, e)
        invariant forall e :: e in deps[..i] && e !in waiting ==> !events[e].pending || events[e].signal == 0
        invariant forall e :: e in waiting ==> e in deps[..i]
      {
        var e := deps[i];
        if !(e < |events| && Some(e) != completion && !events[e].released && (events[e].pending || events[e].completed))
           || e in deps[..i] {
          assert e in deps;
          return false, [];
        }
        ghost var before := Now();
        Hardware();
        HardwareTwice(start, before, Now());
        SettlesTwice(start, before, Now());
        StillAwaitable(before, Now());
        assert deps[..i + 1] == deps[..i] + [e];
        assert Awaitable(Now(), completion, e);
        if events[e].pending && events[e].signal != 0 { waiting := waiting + [e]; }
      }
      assert deps[..|deps|] == deps;
      ok := true;
    }

    /** Register a dispatch, its barriers and its completion event. */
    method StageSubmission(q: nat, deps: seq<nat>, completion: Option<nat>)
      requires CanSubmit(Now(), q, deps, completion)
      modifies `queues, `events
      ensures Now() == Stage(old(Now()), q, deps, completion)
    {
      hide Cut, CompletionSignal, Entries, Retain, Flat;
      var x, cs := queues[q], Cut(deps);
      var pid := |x.log| + |cs|;
      FlatCut(deps);
      var barriers, retained := RegisterBarriers(x.barriers, events, cs, |x.log|, pid);
      queues := queues[q := x.(values := if completion.Some? then x.values else x.values + [1],
                               dispatches := x.dispatches + [Dispatch(CompletionSignal(x, completion), pid)],
                               barriers := barriers,
                               pendingEvents := if completion.Some? then x.pendingEvents + [completion.value]
                                 else x.pendingEvents)];
      events := ArmCompletion(retained, q, pid, completion);
    }

    /** Take a registration back. */
    method UndoSubmission(q: nat, deps: seq<nat>, completion: Option<nat>, previous: Previous, ghost start: State)
      requires CanSubmit(start, q, deps, completion) && Now() == Stage(start, q, deps, completion)
      requires completion.Some? ==>
        start.events[completion.value].recorded.None? && previous == PreviousOf(start.events[completion.value])
      modifies `queues, `events
      ensures queues == start.queues && events == Failed(start.events, completion)
    {
      hide Cut, CompletionSignal, Entries, Retain, Flat;
      ghost var x := start.queues[q];
      var y, cs := queues[q], Cut(deps);
      var base := |y.log|;
      FlatCut(deps);
      DisarmRetained(start.events, q, base + |cs|, deps, completion, previous);
      var bs, released := UnregisterBarriers(y.barriers, DisarmCompletion(events, completion, previous), cs, base,
                                             base + |cs|, x.barriers, Failed(start.events, completion));
      events := released;
      queues := queues[q := y.(dispatches := y.dispatches[..|y.dispatches| - 1],
                               values := if completion.Some? then y.values else y.values[..|y.values| - 1],
                               barriers := bs,
                               pendingEvents := if completion.Some? then y.pendingEvents[..|y.pendingEvents| - 1]
                                 else y.pendingEvents)];
      assert queues[q] == x;
    }

    /** submit_light_rocr_kernel_locked, once there is room in the ring: register the
        dispatch, its barriers and its completion event, hand the batch to the ring, and
        undo the registration if the ring does not accept it.  The undo is complete exactly
        when there is no completion event or its signal was zero: a fresh event, whose
        signal is created as one, is left with a zero signal. */
    method Submit(q: nat, deps: seq<nat>, completion: Option<nat>, accepted: bool)
      requires Valid() && CanSubmit(Now(), q, deps, completion)
      modifies `queues, `events
      ensures Valid() && (completion.Some? ==> old(Untouched(Now(), completion.value)))
      ensures accepted ==> Now() == Submitted(old(Now()), q, deps, completion)
      ensures !accepted ==> queues == old(queues) && events == Failed(old(events), completion)
      ensures !accepted ==> (events == old(events) <==> completion.None? || old(events[completion.value].signal) == 0)
    {
      hide Reachable, Untouched, Cut, Batch, StageQueue, StageEvents, QueueOk, CountsOk;
      ghost var start := Now();
      if completion.Some? {
        ArmOrReleaseSafe(start, HsakmtRuns.Submit(q, deps, completion), completion.value);
        ReachableInv(start);
      }
      var previous := if completion.Some? then PreviousOf(events[completion.value]) else Previous(0, false);
      var log := queues[q].log + Batch(queues[q], deps, completion);
      StageSubmission(q, deps, completion);
      if accepted {
        queues := queues[q := queues[q].(log := log)];
        Extend(start, HsakmtRuns.Submit(q, deps, completion));
      } else {
        UndoSubmission(q, deps, completion, previous, start);
        Extend(start, HsakmtRuns.RefusedSubmit(q, deps, completion));
      }
    }

    /** A kernel launch or an asynchronous copy: quiesce the completion event, collect the
        dependencies, make room, submit.  The completion signal is armed only when nothing
        refers to it, and the packets fit between the hardware and the end of the ring. */
    method Enqueue(q: nat, deps: seq<nat>, completion: Option<nat>, size: nat, accepted: bool)
      returns (r: Outcome, waiting: seq<nat>, ghost at: State)
      requires Valid()
      modifies this
      ensures Valid() && Settles(old(Now()), at)
      ensures r.Stopped? ==> Now() == at
      ensures !r.Stopped? ==>
        CanSubmit(at, q, waiting, completion) && |at.queues[q].log| + |Cut(waiting)| + 1 <= at.queues[q].taken + size
      ensures !r.Stopped? && completion.Some? ==> Untouched(at, completion.value)
      ensures !r.Stopped? ==> Distinct(deps) && forall e :: e in deps && e !in waiting ==>
        e < |at.events| && Passed(at, e)
      ensures r.Done? ==> Now() == Submitted(at, q, waiting, completion)
      ensures r.Refused? ==> Now() == at.(events := Failed(at.events, completion))
    {
      hide Reachable, Settles, Untouched, HardwareOnly, Cut;
      at := Now();
      waiting := [];
      ghost var start := Now();
      assert Settles(start, start) by { Nothing(start); }
      if q >= |queues| || (completion.Some? && (completion.value >= |events| || events[completion.value].released)) {
        return Stopped, waiting, at;
      }
      var ok := true;
      if completion.Some? {
        ok := Quiesce(completion.value);
        at := Now();
        SettlesSizes(start, at);
        if !ok { return Stopped, waiting, at; }
      }
      ok, waiting := CollectDependencies(deps, completion);
      ghost var collected := Now();
      SettlesTwice(start, at, collected);
      SettlesSizes(at, collected);
      if completion.Some? { IdleSettles(at, collected, completion.value); }
      at := collected;
      if !ok { return Stopped, waiting, at; }
      ok := EnsureCapacity(q, (|waiting| + 4) / 5 + 1, size);
      SettlesTwice(start, collected, Now());
      SettlesSizes(collected, Now());
      if completion.Some? { IdleSettles(collected, Now(), completion.value); }
      StillAvailable(collected, Now(), completion, waiting);
      StillPassed(collected, Now(), completion, deps, waiting);
      at := Now();
      if !ok { return Stopped, waiting, at; }
      Submit(q, waiting, completion, accepted);
      r := if accepted then Done else Refused;
    }
  }

  /** The refused submission of a fresh event, through the operations: the event's signal
      was created as one and is zero afterwards. */
  method RefusedFreshSubmission() returns (r: Runtime)
    ensures fresh(r) && r.Valid()
    ensures r.queues == [FreshQueue()] && r.events == [FreshEvent().(signal := 0)] && r.events != [FreshEvent()]
  {
    hide Reachable;
    r := new Runtime([]);
    var q := r.CreateQueue();
    var e := r.CreateEvent();
    r.Submit(q, [], Some(e), false);
  }

  ghost predicate FrontDone(q: Queue, events: Events) {
    q.pendingEvents != [] && q.pendingEvents[0] < |events| && events[q.pendingEvents[0]].signal == 0
  }

  predicate Awaitable(s: State, completion: Option<nat>, e: nat) {
    e < |s.events| && Some(e) != completion && !s.events[e].released && (s.events[e].pending || s.events[e].completed)
  }

  /** The event has completed: it was finished, or its signal is zero already. */
  predicate Passed(s: State, e: nat)
    requires e < |s.events|
  {
    (!s.events[e].pending && s.events[e].completed) || s.events[e].signal == 0
  }

  lemma StillAwaitable(s: State, s': State)
    requires HardwareOnly(s, s')
    ensures forall completion, e :: Awaitable(s, completion, e) ==> Awaitable(s', completion, e)
    ensures forall e :: 0 <= e < |s.events| && (!s.events[e].pending || s.events[e].signal == 0) ==>
      !s'.events[e].pending || s'.events[e].signal == 0
  {
  }

  lemma StillAvailable(s: State, s': State, completion: Option<nat>, waiting: seq<nat>)
    requires Settles(s, s') && forall e :: e in waiting ==> Awaitable(s, completion, e)
    ensures forall e :: e in waiting ==> e < |s'.events| && !s'.events[e].released
  {
    forall e | e in waiting ensures e < |s'.events| && !s'.events[e].released {
      assert Awaitable(s, completion, e);
      assert EventSettles(s.events[e], s'.events[e]);
    }
  }

  lemma SettlesSizes(s: State, s': State)
    requires Settles(s, s')
    ensures |s'.queues| == |s.queues| && |s'.events| == |s.events|
  {
  }

  lemma StillPassed(s: State, s': State, completion: Option<nat>, deps: seq<nat>, waiting: seq<nat>)
    requires Settles(s, s') && forall e :: e in deps ==> Awaitable(s, completion, e)
    requires forall e :: e in deps && e !in waiting ==>
      e < |s.events| && (!s.events[e].pending || s.events[e].signal == 0)
    ensures forall e :: e in deps && e !in waiting ==> e < |s'.events| && Passed(s', e)
  {
    forall e | e in deps && e !in waiting ensures e < |s'.events| && Passed(s', e) {
      assert Awaitable(s, completion, e);
      assert EventSettles(s.events[e], s'.events[e]);
    }
  }

  /** The queues that still hold barriers. */
  ghost function Busy(queues: seq<Queue>): set<nat> {
    set q: nat | q < |queues| && queues[q].barriers != []
  }

  lemma LessBusy(s: State, s': State, q: nat)
    requires Settles(s, s') && q < |s.queues| && s.queues[q].barriers != []
    ensures s'.queues[q].barriers == [] ==> Busy(s'.queues) < Busy(s.queues)
  {
    forall k | k in Busy(s'.queues) ensures k in Busy(s.queues) {
      assert QueueSettles(s.queues[k], s'.queues[k]);
    }
    assert q in Busy(s.queues);
  }

  lemma {:induction false} SomeUse(bs: seq<Pending>, e: nat)
    requires Uses(bs, e) > 0
    ensures exists i :: 0 <= i < |bs| && e in bs[i].deps
  {
    var n := |bs| - 1;
    if e !in bs[n].deps {
      SomeUse(bs[..n], e);
      var i :| 0 <= i < n && e in bs[..n][i].deps;
      assert e in bs[i].deps;
    }
  }

  lemma {:induction false} SomeUser(queues: seq<Queue>, e: nat)
    requires AllUses(queues, e) > 0
    ensures exists q :: 0 <= q < |queues| && Consumes(queues[q], e)
  {
    var n := |queues| - 1;
    if Uses(queues[n].barriers, e) > 0 {
      SomeUse(queues[n].barriers, e);
      assert Consumes(queues[n], e);
    } else {
      SomeUser(queues[..n], e);
      var q :| 0 <= q < n && Consumes(queues[..n][q], e);
      assert Consumes(queues[q], e);
    }
  }

  lemma SomeConsumer(s: State, e: nat)
    requires CountsOk(s.queues, s.events) && e < |s.events| && s.events[e].depCount != 0
    ensures exists q :: 0 <= q < |s.queues| && Consumes(s.queues[q], e)
  {
    SomeUser(s.queues, e);
  }

  lemma SameLists(s: State, s': State, q: nat)
    requires HardwareOnly(s, s') && q < |s.queues|
    ensures q < |s'.queues| && s'.queues[q].dispatches == s.queues[q].dispatches
    ensures s'.queues[q].pendingEvents == s.queues[q].pendingEvents && s'.queues[q].barriers == s.queues[q].barriers
  {
    assert HostSame(s.queues[q], s'.queues[q]);
  }

  lemma SettlesLists(s: State, s': State, q: nat)
    requires Settles(s, s') && q < |s.queues|
    ensures q < |s'.queues|
    ensures |s'.queues[q].dispatches| <= |s.queues[q].dispatches|
    ensures |s'.queues[q].pendingEvents| <= |s.queues[q].pendingEvents|
  {
    assert QueueSettles(s.queues[q], s'.queues[q]);
  }

  lemma StillZero(s: State, s': State, e: nat)
    requires Settles(s, s') && e < |s.events| && s.events[e].signal == 0
    ensures e < |s'.events| && s'.events[e].signal == 0
  {
    assert EventSettles(s.events[e], s'.events[e]);
  }

  lemma HardwareEvents(s: State, s': State, e: nat)
    requires HardwareOnly(s, s') && e < |s.events|
    ensures e < |s'.events| && s'.events[e] == s.events[e].(signal := s'.events[e].signal)
  {
    assert EventSame(s.events[e], s'.events[e]);
  }

  lemma FrontGone(ds: seq<Dispatch>, left: seq<Dispatch>)
    requires ds != [] && (exists k :: 0 <= k <= |ds| && left == ds[k..]) && ds[0] !in left
    ensures |left| < |ds|
  {
    var k :| 0 <= k <= |ds| && left == ds[k..];
    assert ds[0..] == ds && ds[0] in ds;
    assert k != 0;
  }

  lemma FrontPending(s: State, q: nat)
    requires Reachable(s) && q < |s.queues| && s.queues[q].pendingEvents != []
    ensures var e := s.queues[q].pendingEvents[0];
      e < |s.events| && s.events[e].pending && s.events[e].recorded == Some(q)
    ensures |Remove(s.queues[q].pendingEvents, s.queues[q].pendingEvents[0])| == |s.queues[q].pendingEvents| - 1
  {
    hide Reachable, CountsOk;
    ReachableInv(s);
    var x := s.queues[q];
    assert QueueOk(q, x, s.events);
    assert EventOk(q, x.log, x.done, s.events, x.pendingEvents[0]);
  }

  lemma NotYetFront(s: State, s': State, q: nat)
    requires Settles(s, s') && q < |s.queues| && s'.queues[q].pendingEvents != []
    requires s'.queues[q].pendingEvents[0] < |s'.events| && s'.events[s'.queues[q].pendingEvents[0]].signal != 0
    ensures s.queues[q].pendingEvents == s'.queues[q].pendingEvents ==> !FrontDone(s.queues[q], s.events)
  {
    var e := s'.queues[q].pendingEvents[0];
    assert EventSettles(s.events[e], s'.events[e]);
  }

  lemma StillFront(s: State, s': State, q: nat)
    requires Settles(s, s') && q < |s.queues| && s'.queues[q].pendingEvents == s.queues[q].pendingEvents != []
    requires IsZero(s.queues[q], s.events, Borrowed(s.queues[q].pendingEvents[0]))
    ensures FrontDone(s'.queues[q], s'.events)
  {
    StillZero(s, s', s.queues[q].pendingEvents[0]);
  }

  lemma Nothing(s: State)
    ensures HardwareOnly(s, s) && Settles(s, s)
  {
  }

  lemma HardwareIntact(s: State, s': State)
    requires HardwareOnly(s, s')
    ensures Intact(s.events, s'.events)
  {
  }

  lemma NotYet(s: State, s': State, q: nat, x: Signal)
    requires Falls(s, s', q) && !IsZero(s'.queues[q], s'.events, x)
    ensures !IsZero(s.queues[q], s.events, x)
  {
  }

  lemma RetireDispatchFalls(s: State, q: nat)
    requires CanRetire(s, q)
    ensures Falls(s, RetireDispatch(s, q), q)
  {
  }

  /** A barrier that is left points to a dispatch that had not completed on entry. */
  lemma BlockedFront(s: State, q': Queue, q: nat, k: nat)
    requires q < |s.queues| && k < |s.queues[q].dispatches| && q'.dispatches == s.queues[q].dispatches[k..]
    requires Blocks(q', q'.dispatches[0].pid)
    requires forall b :: b in q'.barriers ==> !Retired(s.queues[q], s.events, b)
    ensures !IsZero(s.queues[q], s.events, q'.dispatches[0].signal)
  {
    var i :| 0 <= i < |q'.barriers| && q'.barriers[i].retirement == q'.dispatches[0].pid;
    assert q'.barriers[i] in q'.barriers;
    assert q'.dispatches[0] == s.queues[q].dispatches[k];
  }

  /** Completed dispatches form a prefix, so a front that had not completed means that
      nothing behind it had. */
  lemma NoneLeft(s: State, q: nat, k: nat)
    requires Inv(s) && q < |s.queues| && k <= |s.queues[q].dispatches|
    requires k == |s.queues[q].dispatches| || !IsZero(s.queues[q], s.events, s.queues[q].dispatches[k].signal)
    ensures forall d :: d in s.queues[q].dispatches[k..] ==>
      d in s.queues[q].dispatches && !IsZero(s.queues[q], s.events, d.signal)
  {
    hide CountsOk, IsZero;
    var x := s.queues[q];
    assert QueueOk(q, x, s.events);
    forall d | d in x.dispatches[k..] ensures d in x.dispatches && !IsZero(x, s.events, d.signal) {
      var i :| 0 <= i < |x.dispatches[k..]| && x.dispatches[k..][i] == d;
      assert d == x.dispatches[k + i];
      PrefixDone(q, x, s.events, k, k + i);
    }
  }

  lemma PrefixDone(qi: nat, q: Queue, events: Events, i: nat, j: nat)
    requires QueueOk(qi, q, events) && i <= j < |q.dispatches| && !IsZero(q, events, q.dispatches[i].signal)
    ensures !IsZero(q, events, q.dispatches[j].signal)
  {
    hide BarriersOk, NamesOk, EventsOk, ValuesOk;
    ZeroIsDone(qi, q, events, i);
    ZeroIsDone(qi, q, events, j);
    EntryAt(qi, q, events, i);
    EntryAt(qi, q, events, j);
    assert i < j ==> HoldsBack(q.log, q.dispatches[i].pid, q.dispatches[j].pid);
  }

  lemma EventZero(s: State, q: nat, e: nat)
    requires q < |s.queues| && e < |s.events| && s.events[e].signal == 0
    ensures IsZero(s.queues[q], s.events, Borrowed(e))
  {
  }

  lemma NoBorrower(s: State, e: nat)
    requires Inv(s) && e < |s.events| && !s.events[e].pending
    ensures forall q, d :: 0 <= q < |s.queues| && d in s.queues[q].dispatches ==> d.signal != Borrowed(e)
  {
  }

  // --------------------------------------------------------------- failed submits

  /** The completion event of a submission being staged, and the undo of that. */
  function ArmCompletion(events: Events, q: nat, pid: nat, completion: Option<nat>): Events
    requires completion.Some? ==> completion.value < |events|
  {
    if completion.Some? then
      events[completion.value := events[completion.value].(signal := 1, pending := true, completed := false,
                                                           recorded := Some(q), packet := pid)]
    else events
  }

  /** What a submission saves of the completion event. */
  datatype Previous = Previous(packet: nat, completed: bool)

  function PreviousOf(e: Event): Previous {
    Previous(e.packet, e.completed)
  }

  function DisarmCompletion(events: Events, completion: Option<nat>, previous: Previous): Events
    requires completion.Some? ==> completion.value < |events|
  {
    if completion.Some? then
      events[completion.value := events[completion.value].(recorded := None, pending := false,
                                                           completed := previous.completed,
                                                              signal := 0, packet := previous.packet)]
    else events
  }

  lemma DisarmRetained(events: Events, q: nat, pid: nat, deps: seq<nat>, completion: Option<nat>, previous: Previous)
    requires completion.Some? ==>
      completion.value < |events| && completion.value !in deps && !events[completion.value].pending
      && events[completion.value].recorded.None? && previous == PreviousOf(events[completion.value])
    ensures DisarmCompletion(ArmCompletion(Retain(events, deps), q, pid, completion), completion, previous)
         == Retain(Failed(events, completion), deps)
  {
  }

  /** One barrier entry per packet, its events retained. */
  method RegisterBarriers(bs: seq<Pending>, events: Events, cs: seq<seq<nat>>, base: nat, pid: nat)
    returns (barriers: seq<Pending>, retained: Events)
    ensures barriers == bs + Entries(cs, base, pid) && retained == Retain(events, Flat(cs))
  {
    barriers, retained := bs, events;
    RetainNone(events);
    for index := 0 to |cs|
      invariant barriers == bs + Entries(cs[..index], base, pid)
      invariant retained == Retain(events, Flat(cs[..index]))
    {
      RetainTwice(events, Flat(cs[..index]), cs[index]);
      assert cs[..index + 1][..index] == cs[..index];
      assert Entries(cs[..index + 1], base, pid)
        == Entries(cs[..index], base, pid) + [Pending(pid, cs[index], base + index)];
      retained := Retain(retained, cs[index]);
      barriers := barriers + [Pending(pid, cs[index], base + index)];
    }
    assert cs[..|cs|] == cs;
  }

  /** Pop the entries again, last first, releasing what each retained. */
  method UnregisterBarriers(barriers: seq<Pending>, retained: Events, cs: seq<seq<nat>>, base: nat, pid: nat,
                            ghost was: seq<Pending>, ghost before: Events)
    returns (bs: seq<Pending>, events: Events)
    requires barriers == was + Entries(cs, base, pid) && retained == Retain(before, Flat(cs))
    ensures bs == was && events == before
  {
    hide Retain, Release, Entries;
    bs, events := barriers, retained;
    var left := |cs|;
    assert cs[..|cs|] == cs;
    while left > 0
      invariant 0 <= left <= |cs|
      invariant bs == was + Entries(cs[..left], base, pid)
      invariant events == Retain(before, Flat(cs[..left]))
    {
      assert cs[..left][..left - 1] == cs[..left - 1];
      assert Entries(cs[..left], base, pid)
        == Entries(cs[..left - 1], base, pid) + [Pending(pid, cs[left - 1], base + left - 1)];
      ReleaseLast(before, Flat(cs[..left - 1]), cs[left - 1]);
      events := Release(events, bs[|bs| - 1].deps);
      bs := bs[..|bs| - 1];
      left := left - 1;
    }
    RetainNone(before);
  }
}
