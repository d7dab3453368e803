/** Finishing events, and threads that wait with the locks released. */
module HsaWaitSteps {
  import opened Common
  import opened HsaState
  import opened HsaSteps
  import opened HsaInvariant
  import opened HsaFrame
  import HsaDeviceSteps

  // --------------------------------------------------------- finishing an event

  function FinishedEvents(events: Events, e: nat): Events
    requires e < |events|
  {
    DropRefs(events[e := events[e].(pending := false, recorded := None, deps := [])], events[e].deps)
  }

  lemma FinishedEvent(events: Events, e: nat, x: nat)
    requires e < |events| && x < |events| && EventOk(events[x])
    requires events[e].pending && events[e].signal == 0
    ensures EventOk(FinishedEvents(events, e)[x])
    ensures forall k: nat :: !(events[e].recorded.Some? && events[e].recorded.value.queue == k) ==>
      EventKeeps(k, events[x], FinishedEvents(events, e)[x])
    ensures FinishedEvents(events, e)[x].depQueues == events[x].depQueues
  {
  }

  lemma FinishKeeps(events: Events, e: nat, n: nat)
    requires ValidEvents(events, n) && e < |events| && events[e].pending && events[e].signal == 0
    ensures Evolves(events, FinishedEvents(events, e), {})
    ensures ValidEvents(FinishedEvents(events, e), n)
    ensures events[e].recorded.Some? ==> OthersKeep(events[e].recorded.value.queue, events, FinishedEvents(events, e))
    ensures events[e].recorded.None? ==> forall k :: 0 <= k < n ==> EventsKeep(k, events, FinishedEvents(events, e))
  {
    forall x: nat | x < |events|
      ensures EventOk(FinishedEvents(events, e)[x])
      ensures forall k: nat :: !(events[e].recorded.Some? && events[e].recorded.value.queue == k) ==>
        EventKeeps(k, events[x], FinishedEvents(events, e)[x])
      ensures FinishedEvents(events, e)[x].depQueues == events[x].depQueues
    {
      FinishedEvent(events, e, x);
    }
  }

  lemma FinishBarriers(qi: nat, q: Queue, events: Events, e: nat)
    requires BarrierSide(qi, q, events) && e < |events| && !RetiresOn(q, EventSignal(e))
    ensures BarrierSide(qi, q, FinishedEvents(events, e))
  {
  }

  lemma FinishedFields(events: Events, e: nat)
    requires e < |events|
    ensures |FinishedEvents(events, e)| == |events|
    ensures !FinishedEvents(events, e)[e].pending
    ensures forall x :: 0 <= x < |events| && x != e ==>
      FinishedEvents(events, e)[x].pending == events[x].pending
      && FinishedEvents(events, e)[x].recorded == events[x].recorded
      && FinishedEvents(events, e)[x].signal == events[x].signal
  {
  }

  lemma FinishMarkers(qi: nat, q: Queue, events: Events, e: nat)
    requires MarkersOk(qi, q.gpu.log, q.gpu.done, q.pendingEvents, events)
    requires e < |events| && events[e].signal == 0 && events[e].pending
    requires events[e].recorded.Some? && events[e].recorded.value.queue == qi
    ensures MarkersOk(qi, q.gpu.log, q.gpu.done, DropEvent(q.pendingEvents, e), FinishedEvents(events, e))
  {
    hide FinishedEvents, DropEvent;
    Dropped(q.pendingEvents, e);
    FinishedFields(events, e);
    var events' := FinishedEvents(events, e);
    assert MarkerOk(qi, q.gpu.log, q.gpu.done, events, e);
    forall x | x in DropEvent(q.pendingEvents, e) ensures MarkerOk(qi, q.gpu.log, q.gpu.done, events', x) {
      assert MarkerOk(qi, q.gpu.log, q.gpu.done, events, x);
    }
  }

  lemma FinishCover(qi: nat, q: Queue, events: Events, e: nat)
    requires MarkersOk(qi, q.gpu.log, q.gpu.done, q.pendingEvents, events)
    requires CoverOk(qi, q.gpu.log, q.gpu.done, q.pendingDispatches, q.pendingBarriers, q.pendingEvents, events)
    requires e < |events| && events[e].signal == 0 && events[e].pending
    requires events[e].recorded.Some? && events[e].recorded.value.queue == qi
    ensures CoverOk(qi, q.gpu.log, q.gpu.done, q.pendingDispatches, q.pendingBarriers, DropEvent(q.pendingEvents, e),
                    FinishedEvents(events, e))
  {
    Dropped(q.pendingEvents, e);
    var events' := FinishedEvents(events, e);
    assert MarkerOk(qi, q.gpu.log, q.gpu.done, events, e);
    forall p | 0 <= p < |q.gpu.log| && p !in q.gpu.done
      ensures Covered(qi, q.pendingDispatches, q.pendingBarriers, DropEvent(q.pendingEvents, e), events', p)
    {
      assert Covered(qi, q.pendingDispatches, q.pendingBarriers, q.pendingEvents, events, p);
      if x :| x in q.pendingEvents && x < |events| && events[x].recorded == Some(Record(qi, p)) {
        assert x in DropEvent(q.pendingEvents, e) && events'[x].recorded == Some(Record(qi, p));
      }
    }
  }

  lemma FinishAwaits(log: Log, done: set<nat>, events: Events, e: nat)
    requires AwaitsOk(log, done, events) && e < |events|
    ensures AwaitsOk(log, done, FinishedEvents(events, e))
  {
  }

  lemma FinishQueueOk(qi: nat, q: Queue, events: Events, e: nat)
    requires QueueOk(qi, q, events) && q.holder == Unlocked
    requires e < |events| && events[e].signal == 0 && events[e].pending
    requires events[e].recorded.Some? && events[e].recorded.value.queue == qi
    requires !RetiresOn(q, EventSignal(e))
    ensures QueueOk(qi, q.(pendingEvents := DropEvent(q.pendingEvents, e)), FinishedEvents(events, e))
  {
    hide LogOk, Conserved, BarriersOk, MarkersOk, CoverOk, AwaitsOk, SyncOk, SyncDepsOk, DispatchesOk, DeferredOk,
      CountsOk, NamesOk;
    FinishBarriers(qi, q, events, e);
    FinishMarkers(qi, q, events, e);
    FinishCover(qi, q, events, e);
    FinishAwaits(q.gpu.log, q.gpu.done, events, e);
    var q' := q.(pendingEvents := DropEvent(q.pendingEvents, e));
    assert Conserved(q') by { HsaDeviceSteps.SamePlaces(q, q'); }
  }

  lemma KeepFinishEvent(s: State, e: nat)
    requires Inv(s) && CanFinishEvent(s, e)
    ensures Inv(DoFinishEvent(s, e))
  {
    hide QueueOk, LaunchKeeps, Evolves, OthersKeep, ValidEvents, EventsKeep, EventsValid, DropRefs;
    AllEventsValid(s);
    assert ValidEvents(s.events, |s.queues|) by { EventsAreValid(s); }
    FinishKeeps(s.events, e, |s.queues|);
    var events' := FinishedEvents(s.events, e);
    assert EventGood(s, e);
    if s.events[e].recorded.Some? {
      var q := s.events[e].recorded.value.queue;
      var x := s.queues[q];
      QueueIsOk(s, q);
      FinishQueueOk(q, x, s.events, e);
      var q' := x.(pendingEvents := DropEvent(x.pendingEvents, e));
      assert LaunchKeeps(x, q', events') by { NothingRetires(x, q', events'); }
      AssembleStep(s, q, q', events');
    } else {
      assert EventsValid(DoFinishEvent(s, e)) by { EventsAreValidAgain(DoFinishEvent(s, e)); }
      assert |events'| == |s.events|;
      NoHot(s, |s.queues|);
      AssembleEventsOnly(s, DoFinishEvent(s, e), {});
    }
  }

  lemma EventsAreValid(s: State)
    requires EventsValid(s)
    ensures ValidEvents(s.events, |s.queues|)
  {
  }

  lemma EventsAreValidAgain(s: State)
    requires ValidEvents(s.events, |s.queues|)
    ensures EventsValid(s)
  {
  }

  lemma NothingRetires(q: Queue, q': Queue, events': Events)
    requires q'.gpu == q.gpu && q'.active == q.active && q'.lifecycle == q.lifecycle
    ensures LaunchKeeps(q, q', events')
  {
  }

  lemma NoHot(s: State, q: nat)
    ensures Cold(s, None, q, {})
  {
  }

  // ------------------------------------------------------------ progress waits

  /** A step of one queue that neither publishes nor retires packets and leaves events alone. */
  lemma AssembleWaitStep(s: State, q: nat, q': Queue)
    requires Inv(s) && q < |s.queues|
    requires QueueOk(q, q', s.events)
    requires q'.gpu == s.queues[q].gpu && q'.active == s.queues[q].active && q'.lifecycle == s.queues[q].lifecycle
    requires q'.holder == s.queues[q].holder && q'.size == s.queues[q].size && q'.inFlight == s.queues[q].inFlight
    requires PendingCount(q') == PendingCount(s.queues[q])
    requires forall e :: EventSignal(e) in q'.progressWaits ==> Pinned(s.events, e)
    ensures Inv(Put(s, q, q', s.events))
  {
    hide QueueOk, LaunchKeeps, LaunchOk, EventOk;
    var s' := Put(s, q, q', s.events);
    AllEventsValid(s);
    NothingRetires(s.queues[q], q', s.events);
    assert QueueGood(s, q);
    assert QueueGood(s', q);
    assert OthersKeep(q, s.events, s.events);
    Assemble(s, s', None, q, {});
  }

  lemma KeepWaitBegin(s: State, q: nat)
    requires Inv(s) && CanWaitBegin(s, q)
    ensures Inv(DoWaitBegin(s, q))
  {
    var x := s.queues[q];
    QueueIsOk(s, q);
    var q' := DoWaitBegin(s, q).queues[q];
    assert QueueGood(s, q);
    if x.pendingDispatches == [] {
      assert MarkerOk(q, x.gpu.log, x.gpu.done, s.events, x.pendingEvents[0]);
    }
    WaitBeginOk(q, x, s.events, q'.progressWaits);
    AssembleWaitStep(s, q, q');
  }

  lemma WaitBeginOk(qi: nat, q: Queue, events: Events, waits: seq<Signal>)
    requires QueueOk(qi, q, events)
    requires q.pendingDispatches != [] ==> waits == q.progressWaits + [DispatchSignal(q.pendingDispatches[0].signal)]
    requires q.pendingDispatches == [] ==> exists e :: waits == q.progressWaits + [EventSignal(e)]
    ensures QueueOk(qi, q.(progressWaits := waits, synchronizers := q.synchronizers + 1), events)
  {
  }

  // ------------------------------------------------------- end of a progress wait

  lemma RemoveBags(ds: seq<PendingDispatch>, j: nat)
    requires j < |ds|
    ensures multiset(Signals(ds)) == multiset(Signals(RemoveAt(ds, j))) + multiset{ds[j].signal}
    ensures multiset(Kernargs(ds)) == multiset(Kernargs(RemoveAt(ds, j))) + multiset{ds[j].kernarg}
  {
    var r := RemoveAt(ds, j);
    assert Signals(ds) == Signals(ds)[..j] + [ds[j].signal] + Signals(ds)[j + 1..];
    assert Signals(r) == Signals(ds)[..j] + Signals(ds)[j + 1..];
    assert Kernargs(ds) == Kernargs(ds)[..j] + [ds[j].kernarg] + Kernargs(ds)[j + 1..];
    assert Kernargs(r) == Kernargs(ds)[..j] + Kernargs(ds)[j + 1..];
  }

  lemma ReturnToken(pool: multiset<nat>, pending: multiset<nat>, deferred: multiset<nat>, flight: multiset<nat>, x: nat)
    ensures (pool + multiset{x}) + pending + deferred + flight == pool + pending + (deferred + multiset{x}) + flight
  {
  }

  lemma RecycleConserves(q: Queue, j: nat, q': Queue)
    requires j < |q.deferred|
    requires q'.signalPool == q.signalPool + [q.deferred[j].signal]
    requires q'.kernargPool == q.kernargPool + [q.deferred[j].kernarg]
    requires q'.deferred == RemoveAt(q.deferred, j)
    requires q'.pendingDispatches == q.pendingDispatches && q'.inFlight == q.inFlight
    ensures SignalBag(q') == SignalBag(q) && KernargBag(q') == KernargBag(q)
  {
    RemoveBags(q.deferred, j);
    ReturnToken(multiset(q.signalPool), multiset(Signals(q.pendingDispatches)), multiset(Signals(q'.deferred)),
                multiset(FlightSignals(q.inFlight)), q.deferred[j].signal);
    ReturnToken(multiset(q.kernargPool), multiset(Kernargs(q.pendingDispatches)), multiset(Kernargs(q'.deferred)),
                multiset(FlightKernargs(q.inFlight)), q.deferred[j].kernarg);
  }

  /** A deferred dispatch is the only holder of its signal. */
  lemma DeferredAlone(q: Queue, j: nat)
    requires Conserved(q) && j < |q.deferred| && q.deferred[j].signal < |q.dispatchValues|
    ensures q.deferred[j].signal !in q.signalPool
    ensures forall i :: 0 <= i < |q.pendingDispatches| ==> q.pendingDispatches[i].signal != q.deferred[j].signal
    ensures forall d :: d in RemoveAt(q.deferred, j) ==> d.signal != q.deferred[j].signal
    ensures forall f :: f in q.inFlight ==> f.signal != q.deferred[j].signal
  {
    var h := q.deferred[j].signal;
    RemoveBags(q.deferred, j);
    assert SignalBag(q)[h] == 1;
    forall i | 0 <= i < |q.pendingDispatches| ensures q.pendingDispatches[i].signal != h {
      assert Signals(q.pendingDispatches)[i] in multiset(Signals(q.pendingDispatches));
    }
    var r := RemoveAt(q.deferred, j);
    forall d | d in r ensures d.signal != h {
      var k :| 0 <= k < |r| && r[k] == d;
      assert Signals(r)[k] in multiset(Signals(r));
    }
    forall f | f in q.inFlight ensures f.signal != h {
      var k :| 0 <= k < |q.inFlight| && q.inFlight[k] == f;
      assert FlightSignals(q.inFlight)[k] in multiset(FlightSignals(q.inFlight));
    }
  }

  lemma RecycleEntries(q: Queue, i: nat, j: nat)
    requires DispatchSide(q) && j < |q.deferred| && i < |q.progressWaits|
    requires q.progressWaits[i] == DispatchSignal(q.deferred[j].signal)
    requires q.progressWaits[i] !in RemoveAt(q.progressWaits, i)
    ensures DispatchSide(WaitEndQueue(q, i, j))
  {
    var q' := WaitEndQueue(q, i, j);
    var h := q.deferred[j].signal;
    assert q.deferred[j] in q.deferred;
    DeferredAlone(q, j);
    RecycleConserves(q, j, q');
    forall k | 0 <= k < |q.pendingDispatches|
      ensures EntryOk(q.gpu.log, q.gpu.done, q'.dispatchValues, q.pendingDispatches[k]) {
      assert EntryOk(q.gpu.log, q.gpu.done, q.dispatchValues, q.pendingDispatches[k]);
    }
    forall d | d in q'.deferred
      ensures EntryOk(q.gpu.log, q.gpu.done, q'.dispatchValues, d) && DispatchSignal(d.signal) in q'.progressWaits
    {
      assert EntryOk(q.gpu.log, q.gpu.done, q.dispatchValues, d);
      StillThere(q.progressWaits, i, DispatchSignal(d.signal));
    }
    WaitsShrink(q.pendingDispatches, q.deferred, q.progressWaits, i, j);
  }

  lemma StillThere(waits: seq<Signal>, i: nat, x: Signal)
    requires i < |waits| && x in waits && (x != waits[i] || x in RemoveAt(waits, i))
    ensures x in RemoveAt(waits, i)
  {
  }

  lemma WaitsShrink(pd: seq<PendingDispatch>, deferred: seq<PendingDispatch>, waits: seq<Signal>, i: nat, j: nat)
    requires WaitsOk(pd, deferred, waits) && i < |waits| && j < |deferred|
    requires waits[i] == DispatchSignal(deferred[j].signal) && waits[i] !in RemoveAt(waits, i)
    ensures WaitsOk(pd, RemoveAt(deferred, j), RemoveAt(waits, i))
  {
    RemoveBags(deferred, j);
    forall h: nat | DispatchSignal(h) in RemoveAt(waits, i)
      ensures h in Signals(pd) || h in Signals(RemoveAt(deferred, j)) {
      assert DispatchSignal(h) in waits && h != deferred[j].signal;
      if h in Signals(deferred) {
        assert h in multiset(Signals(deferred));
        assert h in multiset(Signals(RemoveAt(deferred, j)));
      }
    }
  }

  lemma KeepEntries(q: Queue, i: nat, j: nat)
    requires DispatchSide(q) && i < |q.progressWaits|
    requires (q.progressWaits[i] in RemoveAt(q.progressWaits, i) && j <= |q.deferred|)
          || (j == |q.deferred| && forall d :: d in q.deferred ==> q.progressWaits[i] != DispatchSignal(d.signal))
    ensures DispatchSide(WaitEndQueue(q, i, j))
  {
  }

  lemma WaitEndOk(qi: nat, q: Queue, events: Events, i: nat, j: nat)
    requires QueueOk(qi, q, events) && i < |q.progressWaits| && j <= |q.deferred|
    requires j < |q.deferred| ==> q.progressWaits[i] == DispatchSignal(q.deferred[j].signal)
    requires j == |q.deferred| ==> forall d :: d in q.deferred ==> q.progressWaits[i] != DispatchSignal(d.signal)
    ensures QueueOk(qi, WaitEndQueue(q, i, j), events)
  {
    hide DispatchSide, BarriersOk, RetireMarkersOk, RetireSyncsOk, NamesOk, CountsOk, EventSide, SyncOk, SyncDepsOk;
    if q.progressWaits[i] !in RemoveAt(q.progressWaits, i) && j < |q.deferred| {
      RecycleEntries(q, i, j);
    } else {
      KeepEntries(q, i, j);
    }
    var q' := WaitEndQueue(q, i, j);
    forall k | 0 <= k < |q.pendingBarriers|
      ensures RetireDispatchOk(|q'.dispatchValues|, q'.pendingDispatches, q'.deferred, q.pendingBarriers[k])
    {
      assert RetireDispatchOk(|q.dispatchValues|, q.pendingDispatches, q.deferred, q.pendingBarriers[k]);
    }
    assert EventSide(qi, q', events) by { SameEventSide(qi, q, q', events); }
  }

  lemma SameEventSide(qi: nat, q: Queue, q': Queue, events: Events)
    requires EventSide(qi, q, events)
    requires q'.gpu == q.gpu && q'.pendingDispatches == q.pendingDispatches
    requires q'.pendingBarriers == q.pendingBarriers && q'.pendingEvents == q.pendingEvents
    ensures EventSide(qi, q', events)
  {
  }

  lemma KeepWaitEnd(s: State, q: nat, i: nat, j: nat)
    requires Inv(s) && CanWaitEnd(s, q, i, j)
    ensures Inv(DoWaitEnd(s, q, i, j))
  {
    hide QueueOk;
    QueueIsOk(s, q);
    WaitEndOk(q, s.queues[q], s.events, i, j);
    assert QueueGood(s, q);
    AssembleWaitStep(s, q, WaitEndQueue(s.queues[q], i, j));
  }

  // ---------------------------------------------------------------- event waits

  lemma OtherWaits(s: State, waits: map<nat, Wait>)
    requires Inv(s) && forall w :: w in waits ==> WaitOk(s, waits[w])
    ensures Inv(s.(waits := waits))
  {
    hide QueueOk, EventOk, LaunchOk;
    var s' := s.(waits := waits);
    forall q | 0 <= q < |s.queues| ensures QueueGood(s', q) { assert QueueGood(s, q); }
    forall e | 0 <= e < |s.events| ensures EventGood(s', e) { assert EventGood(s, e); }
    forall t | t in s.launches ensures LaunchGood(s', t) { assert LaunchGood(s, t); }
  }

  lemma OtherSynchronizers(s: State, q: nat, n: nat)
    requires Inv(s) && q < |s.queues|
    ensures Inv(SetQueue(s, q, s.queues[q].(synchronizers := n)))
  {
    var q' := s.queues[q].(synchronizers := n);
    QueueIsOk(s, q);
    assert QueueOk(q, q', s.events) by { SynchronizersIrrelevant(q, s.queues[q], s.events, n); }
    assert QueueGood(s, q);
    AssembleWaitStep(s, q, q');
  }

  lemma SynchronizersIrrelevant(qi: nat, q: Queue, events: Events, n: nat)
    requires QueueOk(qi, q, events)
    ensures QueueOk(qi, q.(synchronizers := n), events)
  {
  }

  lemma KeepEventWaitBegin(s: State, w: nat, e: nat)
    requires Inv(s) && CanEventWaitBegin(s, w, e)
    ensures Inv(DoEventWaitBegin(s, w, e))
  {
    hide QueueGood, LaunchGood;
    assert EventGood(s, e);
    var s' := DoEventWaitBegin(s, w, e);
    OtherWaits(s, s'.waits);
    if s.events[e].recorded.Some? {
      var q := s.events[e].recorded.value.queue;
      OtherSynchronizers(s.(waits := s'.waits), q, s.queues[q].synchronizers + 1);
    }
  }

  lemma KeepEventWaitEnd(s: State, w: nat)
    requires Inv(s) && CanEventWaitEnd(s, w)
    ensures Inv(DoEventWaitEnd(s, w))
  {
    hide QueueGood, LaunchGood, EventGood;
    var s' := DoEventWaitEnd(s, w);
    OtherWaits(s, s'.waits);
    var q := s.waits[w].queue;
    if q.Some? && q.value < |s.queues| {
      OtherSynchronizers(s.(waits := s'.waits), q.value, Decrement(s.queues[q.value].synchronizers));
    }
  }
}
