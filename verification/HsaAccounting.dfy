/** Reference accounting.  An event's total dependency count is the sum of its per-queue
    counts plus the pending copies that list it; a queue's synchronizer count is the
    number of threads that still use it. */
module HsaAccounting {
  import opened Common
  import opened HsaState
  import opened HsaSteps
  import opened HsaInvariant
  import opened HsaFrame
  import opened HsaReapSteps
  import opened HsaWaitSteps

  // --------------------------------------------------------------- the counts

  /** Sum of the per-queue counts over the first n queues. */
  function QueueRefs(m: map<nat, nat>, n: nat): nat {
    if n == 0 then 0 else QueueRefs(m, n - 1) + Get(m, n - 1)
  }

  /** How often pending copies list the event. */
  function CopyRefs(events: Events, e: nat): nat {
    if events == [] then 0
    else CopyRefs(events[..|events| - 1], e) + multiset(events[|events| - 1].deps)[e]
  }

  ghost predicate RefOk(events: Events, n: nat, e: nat)
    requires e < |events|
  {
    && events[e].depCount == QueueRefs(events[e].depQueues, n) + CopyRefs(events, e)
    && (forall k :: k in events[e].depQueues ==> k < n)
  }

  /** Only a pending copy lists events, and none of them is being recorded. */
  ghost predicate CopyOk(events: Events, ev: Event) {
    && (ev.deps != [] ==> ev.pending && ev.copy)
    && (forall d :: d in ev.deps ==> d < |events| && events[d].recording.None?)
  }

  ghost predicate RefsOk(events: Events, n: nat) {
    && (forall e :: 0 <= e < |events| ==> RefOk(events, n, e))
    && (forall e :: 0 <= e < |events| ==> CopyOk(events, events[e]))
  }

  function Waiters(waits: map<nat, Wait>, q: nat): set<nat> {
    set w | w in waits && waits[w].queue == Some(q)
  }

  function Pins(q: Queue): nat {
    |q.progressWaits| + |q.pendingSyncs| + if q.lifecycle == DestroyPinned then 1 else 0
  }

  ghost predicate PinsOk(queues: seq<Queue>, waits: map<nat, Wait>) {
    && (forall q :: 0 <= q < |queues| ==> queues[q].synchronizers == Pins(queues[q]) + |Waiters(waits, q)|)
    && (forall w :: w in waits && waits[w].queue.Some? ==> waits[w].queue.value < |queues|)
  }

  ghost predicate Accounted(s: State) {
    RefsOk(s.events, |s.queues|) && PinsOk(s.queues, s.waits)
  }

  // ------------------------------------------------------------- sums of counts

  lemma {:induction false} QueueRefsSame(m: map<nat, nat>, m': map<nat, nat>, n: nat)
    requires forall k: nat :: k < n ==> Get(m', k) == Get(m, k)
    ensures QueueRefs(m', n) == QueueRefs(m, n)
  {
    if n > 0 { QueueRefsSame(m, m', n - 1); }
  }

  lemma {:induction false} QueueRefsUpdate(m: map<nat, nat>, m': map<nat, nat>, n: nat, q: nat)
    requires q < n && forall k: nat :: k != q ==> Get(m', k) == Get(m, k)
    ensures QueueRefs(m', n) + Get(m, q) == QueueRefs(m, n) + Get(m', q)
  {
    if q < n - 1 {
      QueueRefsUpdate(m, m', n - 1, q);
    } else {
      QueueRefsSame(m, m', q);
    }
  }

  lemma {:induction false} QueueRefsAtLeast(m: map<nat, nat>, n: nat, q: nat)
    requires q < n
    ensures QueueRefs(m, n) >= Get(m, q)
  {
    if q < n - 1 { QueueRefsAtLeast(m, n - 1, q); }
  }

  lemma CopyRefsUpdate(events: Events, x: nat, ev: Event, e: nat)
    requires x < |events|
    ensures CopyRefs(events[x := ev], e) + multiset(events[x].deps)[e] == CopyRefs(events, e) + multiset(ev.deps)[e]
  {
    var n := |events| - 1;
    if x < n {
      CopyRefsUpdate(events[..n], x, ev, e);
      assert events[x := ev][..n] == events[..n][x := ev];
    } else {
      assert events[x := ev][..n] == events[..n];
    }
  }

  lemma {:induction false} CopyRefsSame(events: Events, events': Events, e: nat)
    requires |events'| == |events| && forall x :: 0 <= x < |events| ==> events'[x].deps == events[x].deps
    ensures CopyRefs(events', e) == CopyRefs(events, e)
  {
    if events != [] {
      var n := |events| - 1;
      CopyRefsSame(events[..n], events'[..n], e);
    }
  }

  lemma {:induction false} CopyRefsNone(events: Events, e: nat)
    requires forall x :: 0 <= x < |events| ==> e !in events[x].deps
    ensures CopyRefs(events, e) == 0
  {
    if events != [] {
      CopyRefsNone(events[..|events| - 1], e);
    }
  }

  lemma {:induction false} CopyRefsSome(events: Events, x: nat, e: nat)
    requires x < |events| && e in events[x].deps
    ensures CopyRefs(events, e) > 0
  {
    var n := |events| - 1;
    if x < n { CopyRefsSome(events[..n], x, e); }
  }

  /** No pending copy lists the event. */
  ghost predicate Unlisted(events: Events, e: nat) {
    forall x :: 0 <= x < |events| ==> e !in events[x].deps
  }

  /** Neither an event without references nor one being recorded is listed by a copy. */
  lemma NotListed(events: Events, n: nat, e: nat)
    requires RefsOk(events, n) && e < |events| && (events[e].depCount == 0 || events[e].recording.Some?)
    ensures Unlisted(events, e)
  {
    hide QueueRefs, CopyRefs;
    forall x | 0 <= x < |events| ensures e !in events[x].deps {
      assert CopyOk(events, events[x]) && RefOk(events, n, e);
      if e in events[x].deps { CopyRefsSome(events, x, e); }
    }
  }

  /** An event nothing refers to has no per-queue counts left. */
  lemma NoRefs(s: State, e: nat)
    requires Inv(s) && RefsOk(s.events, |s.queues|) && e < |s.events| && s.events[e].depCount == 0
    ensures s.events[e].depQueues == map[]
  {
    hide QueueGood, LaunchGood, QueueRefs, CopyRefs;
    assert EventGood(s, e) && RefOk(s.events, |s.queues|, e);
    var m := s.events[e].depQueues;
    forall k | k in m ensures false {
      QueueRefsAtLeast(m, |s.queues|, k);
    }
    assert m == map[];
  }

  // -------------------------------------------------------- steps of references

  /** The reference fields of no event change, and only an event without references starts being recorded. */
  ghost predicate SameRefs(events: Events, events': Events) {
    && |events'| == |events|
    && (forall e :: 0 <= e < |events| ==>
          && events'[e].depCount == events[e].depCount
          && events'[e].depQueues == events[e].depQueues
          && events'[e].deps == events[e].deps
          && (events'[e].recording.Some? ==> events[e].recording.Some? || events[e].depCount == 0)
          && (events[e].deps != [] ==> events'[e].pending == events[e].pending && events'[e].copy == events[e].copy))
  }

  lemma RefsSame(events: Events, events': Events, n: nat)
    requires RefsOk(events, n) && SameRefs(events, events')
    ensures RefsOk(events', n)
  {
    hide QueueRefs, CopyRefs;
    forall e | 0 <= e < |events'| ensures RefOk(events', n, e) && CopyOk(events', events'[e]) {
      assert RefOk(events, n, e) && CopyOk(events, events[e]);
      CopyRefsSame(events, events', e);
      forall d | d in events'[e].deps ensures d < |events| && events'[d].recording.None? {
        assert RefOk(events, n, d);
        CopyRefsSome(events, e, d);
      }
    }
  }

  /** Counts of one queue change, each by the same amount as the total. */
  lemma RefsShift(events: Events, events': Events, n: nat, q: nat)
    requires RefsOk(events, n) && |events'| == |events| && q < n
    requires SameButCounts(events, events')
    requires forall e, k: nat :: 0 <= e < |events| && k != q ==>
      Get(events'[e].depQueues, k) == Get(events[e].depQueues, k)
    requires forall e, k: nat :: 0 <= e < |events| && k != q && k in events'[e].depQueues ==> k in events[e].depQueues
    requires forall e :: 0 <= e < |events| ==>
      events'[e].depCount + Get(events[e].depQueues, q) == events[e].depCount + Get(events'[e].depQueues, q)
    ensures RefsOk(events', n)
  {
    hide QueueRefs, CopyRefs;
    forall e | 0 <= e < |events'| ensures RefOk(events', n, e) && CopyOk(events', events'[e]) {
      assert RefOk(events, n, e) && CopyOk(events, events[e]);
      CopyRefsSame(events, events', e);
      QueueRefsUpdate(events[e].depQueues, events'[e].depQueues, n, q);
    }
  }

  lemma RefsRetain(events: Events, n: nat, q: nat, deps: seq<nat>)
    requires RefsOk(events, n) && q < n
    ensures RefsOk(RetainAll(events, q, deps), n)
  {
    hide RefsOk;
    RefsShift(events, RetainAll(events, q, deps), n, q);
  }

  lemma RefsRelease(events: Events, n: nat, q: nat, deps: seq<nat>)
    requires RefsOk(events, n) && q < n
    requires forall e :: 0 <= e < |events| ==> multiset(deps)[e] <= Get(events[e].depQueues, q)
    ensures RefsOk(ReleaseAll(events, q, deps), n)
  {
    hide QueueRefs, CopyRefs;
    var bag: multiset<nat> := multiset(deps);
    forall e: nat | e < |events| ensures bag[e] <= Get(events[e].depQueues, q) <= events[e].depCount {
      assert RefOk(events, n, e);
      QueueRefsAtLeast(events[e].depQueues, n, q);
    }
    RefsReleaseShift(events, n, q, deps);
  }

  lemma RefsReleaseShift(events: Events, n: nat, q: nat, deps: seq<nat>)
    requires RefsOk(events, n) && q < n
    requires forall e :: 0 <= e < |events| ==> multiset(deps)[e] <= Get(events[e].depQueues, q) <= events[e].depCount
    ensures RefsOk(ReleaseAll(events, q, deps), n)
  {
    hide RefsOk;
    RefsShift(events, ReleaseAll(events, q, deps), n, q);
  }

  /** A finished event drops the references its copy held. */
  lemma RefsFinish(events: Events, n: nat, e: nat)
    requires RefsOk(events, n) && e < |events|
    ensures RefsOk(FinishedEvents(events, e), n)
  {
    hide QueueRefs, CopyRefs;
    var ev := events[e].(pending := false, recorded := None, deps := []);
    var mid := events[e := ev];
    var events' := FinishedEvents(events, e);
    forall x: nat | x < |events| ensures RefOk(events', n, x) && CopyOk(events', events'[x]) {
      assert RefOk(events, n, x) && CopyOk(events, events[x]);
      CopyRefsUpdate(events, e, ev, x);
      CopyRefsSame(mid, events', x);
    }
  }

  /** An asynchronous copy takes a reference to each event it lists. */
  lemma RefsCopy(events: Events, n: nat, e: nat, ev: Event, deps: seq<nat>)
    requires RefsOk(events, n) && e < |events| && events[e].deps == []
    requires ev.deps == deps && ev.pending && ev.copy && ev.depCount == events[e].depCount
    requires ev.depQueues == events[e].depQueues
    requires ev.recording.None? && forall d :: d in deps ==> d < |events| && events[d].recording.None?
    ensures RefsOk(AddRefs(events[e := ev], deps), n)
  {
    hide QueueRefs, CopyRefs;
    var mid := events[e := ev];
    var events' := AddRefs(mid, deps);
    forall x: nat | x < |events| ensures RefOk(events', n, x) && CopyOk(events', events'[x]) {
      assert RefOk(events, n, x) && CopyOk(events, events[x]);
      CopyRefsUpdate(events, e, ev, x);
      CopyRefsSame(mid, events', x);
    }
  }

  lemma RefsNewQueue(events: Events, n: nat)
    requires RefsOk(events, n)
    ensures RefsOk(events, n + 1)
  {
    var m := n + 1;
    forall e | 0 <= e < |events| ensures RefOk(events, m, e) { assert RefOk(events, n, e); }
  }

  lemma {:induction false} NoQueueRefs(n: nat)
    ensures QueueRefs(map[], n) == 0
  {
    if n > 0 { NoQueueRefs(n - 1); }
  }

  lemma RefsNewEvent(events: Events, n: nat)
    requires RefsOk(events, n)
    ensures RefsOk(events + [NewEventValue()], n)
  {
    hide QueueRefs;
    var events' := events + [NewEventValue()];
    assert events'[..|events|] == events;
    NoQueueRefs(n);
    forall x | 0 <= x < |events| ensures CopyOk(events', events'[x]) { assert CopyOk(events, events[x]); }
    forall x | 0 <= x < |events'| ensures RefOk(events', n, x) {
      if x < |events| {
        assert RefOk(events, n, x);
      } else {
        forall y | 0 <= y < |events| ensures x !in events[y].deps { assert CopyOk(events, events[y]); }
        CopyRefsNone(events, x);
      }
    }
  }

  // -------------------------------------------------------------- steps of pins

  lemma PinsStep(queues: seq<Queue>, waits: map<nat, Wait>, q: nat, q': Queue)
    requires PinsOk(queues, waits) && q < |queues|
    requires q'.synchronizers + Pins(queues[q]) == queues[q].synchronizers + Pins(q')
    ensures PinsOk(queues[q := q'], waits)
  {
  }

  lemma PinsNewQueue(queues: seq<Queue>, waits: map<nat, Wait>, size: nat)
    requires PinsOk(queues, waits)
    ensures PinsOk(queues + [NewQueueValue(size)], waits)
  {
    assert Waiters(waits, |queues|) == {};
  }

  /** Queue `at` gains or loses as many waiters as synchronizers. */
  lemma PinsWaiters(queues: seq<Queue>, waits: map<nat, Wait>, waits': map<nat, Wait>, at: nat, n: nat)
    requires PinsOk(queues, waits) && at < |queues|
    requires forall q: nat :: q != at ==> |Waiters(waits', q)| == |Waiters(waits, q)|
    requires n + |Waiters(waits, at)| == queues[at].synchronizers + |Waiters(waits', at)|
    requires forall w :: w in waits' && waits'[w].queue.Some? ==> waits'[w].queue.value < |queues|
    ensures PinsOk(queues[at := queues[at].(synchronizers := n)], waits')
  {
    hide Waiters;
  }

  lemma WaiterAdded(waits: map<nat, Wait>, w: nat, x: Wait, q: nat)
    requires w !in waits
    ensures |Waiters(waits[w := x], q)| == |Waiters(waits, q)| + if x.queue == Some(q) then 1 else 0
  {
    assert Waiters(waits[w := x], q) == if x.queue == Some(q) then Waiters(waits, q) + {w} else Waiters(waits, q);
  }

  lemma WaiterGone(waits: map<nat, Wait>, w: nat, q: nat)
    requires w in waits
    ensures |Waiters(waits, q)| == |Waiters(waits - {w}, q)| + if waits[w].queue == Some(q) then 1 else 0
  {
    if waits[w].queue == Some(q) {
      assert Waiters(waits, q) == Waiters(waits - {w}, q) + {w};
    } else {
      assert Waiters(waits, q) == Waiters(waits - {w}, q);
    }
  }

  lemma PinsWaitBegin(queues: seq<Queue>, waits: map<nat, Wait>, w: nat, x: Wait)
    requires PinsOk(queues, waits) && w !in waits && (x.queue.Some? ==> x.queue.value < |queues|)
    ensures x.queue.None? ==> PinsOk(queues, waits[w := x])
    ensures x.queue.Some? ==>
      PinsOk(queues[x.queue.value := queues[x.queue.value].(synchronizers := queues[x.queue.value].synchronizers + 1)],
             waits[w := x])
  {
    hide Waiters, Pins;
    forall q: nat ensures |Waiters(waits[w := x], q)| == |Waiters(waits, q)| + if x.queue == Some(q) then 1 else 0 {
      WaiterAdded(waits, w, x, q);
    }
    if x.queue.Some? {
      PinsWaiters(queues, waits, waits[w := x], x.queue.value, queues[x.queue.value].synchronizers + 1);
    }
  }

  lemma PinsWaitEnd(queues: seq<Queue>, waits: map<nat, Wait>, w: nat)
    requires PinsOk(queues, waits) && w in waits
    ensures waits[w].queue.None? ==> PinsOk(queues, waits - {w})
    ensures waits[w].queue.Some? ==>
      var at := waits[w].queue.value;
      && at < |queues|
      && PinsOk(queues[at := queues[at].(synchronizers := Decrement(queues[at].synchronizers))], waits - {w})
  {
    hide Waiters, Pins;
    forall q: nat
      ensures |Waiters(waits, q)| == |Waiters(waits - {w}, q)| + if waits[w].queue == Some(q) then 1 else 0 {
      WaiterGone(waits, w, q);
    }
    if waits[w].queue.Some? {
      var at := waits[w].queue.value;
      assert queues[at].synchronizers == Pins(queues[at]) + |Waiters(waits, at)|;
      PinsWaiters(queues, waits, waits - {w}, at, Decrement(queues[at].synchronizers));
    }
  }

  // ------------------------------------------------------------------ all steps

  lemma AccountDevice(s: State, a: DeviceStep)
    requires Inv(s) && Accounted(s) && DeviceEnabled(s, a)
    ensures Accounted(DeviceApply(s, a))
  {
    hide Inv, RefsOk, PinsOk;
    var s' := DeviceApply(s, a);
    match a
    case NewQueue(size) =>
      RefsNewQueue(s.events, |s.queues|);
      PinsNewQueue(s.queues, s.waits, size);
    case NewEvent =>
      RefsNewEvent(s.events, |s.queues|);
    case GpuTake(q) =>
      PinsStep(s.queues, s.waits, q, s'.queues[q]);
    case GpuComplete(q, p) =>
      CompleteRefs(s.events, s.queues[q].gpu.log[p]);
      RefsSame(s.events, s'.events, |s.queues|);
      PinsStep(s.queues, s.waits, q, s'.queues[q]);
    case CopyDone(e) =>
      RefsSame(s.events, s'.events, |s.queues|);
  }

  lemma CompleteRefs(events: Events, p: Packet)
    ensures SameRefs(events, CompleteEvents(events, p))
  {
    if p.BarrierAnd? && p.completed.Some? && p.completed.value.EventSignal? && p.completed.value.event < |events| {
      var e := p.completed.value.event;
      assert CompleteEvents(events, p) == events[e := FinishEpoch(events[e])];
    } else {
      assert CompleteEvents(events, p) == events;
    }
  }

  /** What a pending barrier retains is counted. */
  lemma ReleaseCovered(qi: nat, pb: seq<PendingBarrier>, active: map<nat, nat>, events: Events, i: nat)
    requires CountsOk(qi, pb, active, events) && i < |pb|
    ensures forall e :: 0 <= e < |events| ==> multiset(pb[i].dependencies)[e] <= Get(events[e].depQueues, qi)
  {
    var bag: multiset<nat> := multiset(pb[i].dependencies);
    forall e: nat | e < |events| ensures bag[e] <= Get(events[e].depQueues, qi) {
      CountRemove(pb, i, e);
    }
  }

  lemma AccountReapBarrier(s: State, q: nat, i: nat)
    requires Inv(s) && Accounted(s) && CanReapBarrier(s, q, i)
    ensures Accounted(DoReapBarrier(s, q, i))
  {
    hide RefsOk, PinsOk, DispatchSide, SyncSide, EventSide, BarriersOk, NamesOk;
    var x := s.queues[q];
    QueueIsOk(s, q);
    ReleaseCovered(q, x.pendingBarriers, x.active, s.events, i);
    RefsRelease(s.events, |s.queues|, q, x.pendingBarriers[i].dependencies);
    PinsStep(s.queues, s.waits, q, ReapBarrierQueue(x, i));
  }

  lemma AccountFinish(s: State, e: nat)
    requires Inv(s) && Accounted(s) && CanFinishEvent(s, e)
    ensures Accounted(DoFinishEvent(s, e))
  {
    hide RefsOk, PinsOk, QueueGood, LaunchGood;
    assert EventGood(s, e);
    RefsFinish(s.events, |s.queues|, e);
    if s.events[e].recorded.Some? {
      var q := s.events[e].recorded.value.queue;
      PinsStep(s.queues, s.waits, q, s.queues[q].(pendingEvents := DropEvent(s.queues[q].pendingEvents, e)));
    }
  }

  lemma AccountWaitEnd(s: State, q: nat, i: nat, j: nat)
    requires Accounted(s) && CanWaitEnd(s, q, i, j)
    ensures Accounted(DoWaitEnd(s, q, i, j))
  {
    var x := s.queues[q];
    assert x.synchronizers >= 1;
    assert Pins(WaitEndQueue(x, i, j)) + 1 == Pins(x);
    PinsStep(s.queues, s.waits, q, WaitEndQueue(x, i, j));
  }

  lemma AccountReap(s: State, a: ReapStep)
    requires Inv(s) && Accounted(s) && ReapEnabled(s, a)
    ensures Accounted(ReapApply(s, a))
  {
    hide Inv, RefsOk, PinsOk;
    var s' := ReapApply(s, a);
    match a
    case ReapBarrier(q, i) => AccountReapBarrier(s, q, i);
    case ReapDispatch(q) => PinsStep(s.queues, s.waits, q, s'.queues[q]);
    case FinishEvent(e) => AccountFinish(s, e);
    case WaitBegin(q) => PinsStep(s.queues, s.waits, q, s'.queues[q]);
    case WaitEnd(q, i, j) => AccountWaitEnd(s, q, i, j);
    case EventWaitBegin(w, e) =>
      assert s.events[e].recorded.Some? ==> s.events[e].recorded.value.queue < |s.queues| by { RecordedWhere(s, e); }
      PinsWaitBegin(s.queues, s.waits, w, s'.waits[w]);
    case EventWaitEnd(w) => PinsWaitEnd(s.queues, s.waits, w);
  }

  lemma RecordedWhere(s: State, e: nat)
    requires Inv(s) && e < |s.events|
    ensures s.events[e].recorded.Some? ==> s.events[e].recorded.value.queue < |s.queues|
  {
    assert EventGood(s, e);
  }

  lemma AccountLaunching(s: State, a: LaunchStep)
    requires Accounted(s) && LaunchingEnabled(s, a)
    ensures Accounted(LaunchingApply(s, a))
  {
    hide RefsOk, PinsOk, RetainAll, RetainActive, Awaits, NeedsBarrier, Chunks;
    var s' := LaunchingApply(s, a);
    match a
    case LaunchCollect(t, q, explicit, deps) =>
    case DefaultCollect(t, q, explicit, deps, hasDeps, implicit, k) => PinsStep(s.queues, s.waits, q, s'.queues[q]);
    case LaunchGate(t, n) =>
      PinsStep(s.queues, s.waits, s.launches[t].queue, s.queues[s.launches[t].queue].(holder := ByLaunch(t)));
    case LaunchResume(t) => PinsStep(s.queues, s.waits, s.launches[t].queue, s'.queues[s.launches[t].queue]);
    case LaunchAcquire(t, k) =>
      PinsStep(s.queues, s.waits, s.launches[t].queue, Acquire(s.queues[s.launches[t].queue], t, k));
    case LaunchScan(t) =>
    case LaunchBarrier(t, i) =>
      RefsRetain(s.events, |s.queues|, s.launches[t].queue, Head(s.launches[t].stage.todo));
      PinsStep(s.queues, s.waits, s.launches[t].queue, s'.queues[s.launches[t].queue]);
    case LaunchDispatch(t, i) => PinsStep(s.queues, s.waits, s.launches[t].queue, s'.queues[s.launches[t].queue]);
    case LaunchFail(t, i) => PinsStep(s.queues, s.waits, s.launches[t].queue, s'.queues[s.launches[t].queue]);
    case LaunchAbandon(t) => PinsStep(s.queues, s.waits, s.launches[t].queue, s'.queues[s.launches[t].queue]);
  }

  lemma MarkerRefs(s: State, q: nat)
    requires Inv(s) && Accounted(s) && CanRecordMarker(s, q)
    ensures SameRefs(s.events, DoRecordMarker(s, q).events)
  {
    hide QueueOk, LaunchGood, PinsOk;
    var e := s.queues[q].holder.event;
    assert QueueGood(s, q);
    assert EventGood(s, e);
    assert CopyOk(s.events, s.events[e]);
  }

  lemma AccountCopy(s: State, e: nat, deps: seq<nat>)
    requires Inv(s) && Accounted(s) && CanCopySubmit(s, e, deps)
    ensures Accounted(DoCopySubmit(s, e, deps))
  {
    hide QueueGood, LaunchGood, PinsOk;
    NoRefs(s, e);
    assert CopyOk(s.events, s.events[e]);
    forall d | d in deps ensures s.events[d].recording.None? { assert EventGood(s, d); }
    RefsCopy(s.events, |s.queues|, e, Arm(s.events[e]).(copy := true, recorded := None, deps := deps), deps);
  }

  lemma AccountRecording(s: State, a: RecordStep)
    requires Inv(s) && Accounted(s) && RecordingEnabled(s, a)
    ensures Accounted(RecordingApply(s, a))
  {
    hide Inv, RefsOk, PinsOk, RetainAll, RetainActive, HasCapacity, Unreferenced, Chunks;
    var s' := RecordingApply(s, a);
    match a
    case RecordBegin(e, q, deps, onDefault) => RefsSame(s.events, s'.events, |s.queues|);
    case RecordLock(e) =>
      var q := s.events[e].recording.value.queue;
      PinsStep(s.queues, s.waits, q, s'.queues[q]);
    case RecordBarrier(q) =>
      RefsRetain(s.events, |s.queues|, q, Head(s.queues[q].holder.todo));
      PinsStep(s.queues, s.waits, q, s'.queues[q]);
    case RecordMarker(q) =>
      MarkerRefs(s, q);
      RefsSame(s.events, s'.events, |s.queues|);
      PinsStep(s.queues, s.waits, q, s'.queues[q]);
    case RecordAbandon(e) => RefsSame(s.events, s'.events, |s.queues|);
    case CopySubmit(e, deps) => AccountCopy(s, e, deps);
  }

  lemma FewerPins(queues: seq<Queue>, waits: map<nat, Wait>, q: nat)
    requires PinsOk(queues, waits) && q < |queues|
    ensures queues[q].synchronizers >= Pins(queues[q])
  {
  }

  /** A queue pinned for destruction with a single synchronizer has no other user. */
  lemma LastPin(queues: seq<Queue>, waits: map<nat, Wait>, q: nat)
    requires PinsOk(queues, waits) && q < |queues| && queues[q].lifecycle == DestroyPinned
    requires queues[q].synchronizers == 1
    ensures queues[q].progressWaits == [] && queues[q].pendingSyncs == [] && Waiters(waits, q) == {}
  {
  }

  lemma AccountSyncing(s: State, a: SyncStep)
    requires Accounted(s) && SyncingEnabled(s, a)
    ensures Accounted(SyncingApply(s, a))
  {
    hide RefsOk, PinsOk;
    var s' := SyncingApply(s, a);
    match a
    case SyncBegin(q, signals) => PinsStep(s.queues, s.waits, q, s'.queues[q]);
    case SyncBarrier(q) =>
      RefsRetain(s.events, |s.queues|, q, EventsIn(Head(s.queues[q].holder.signals)));
      PinsStep(s.queues, s.waits, q, s'.queues[q]);
    case SyncEnd(q) => PinsStep(s.queues, s.waits, q, s'.queues[q]);
    case TailMarker(q) => PinsStep(s.queues, s.waits, q, s'.queues[q]);
    case SyncFinish(q, i) =>
      FewerPins(s.queues, s.waits, q);
      PinsStep(s.queues, s.waits, q, s'.queues[q]);
    case DestroyBegin(q) => PinsStep(s.queues, s.waits, q, s'.queues[q]);
    case DestroyPin(q) => PinsStep(s.queues, s.waits, q, s'.queues[q]);
    case DestroyAbandon(q) =>
      FewerPins(s.queues, s.waits, q);
      PinsStep(s.queues, s.waits, q, s'.queues[q]);
    case DestroyFinish(q) => PinsStep(s.queues, s.waits, q, s'.queues[q]);
  }
}
