/** The packet processor and the copy engine keep the invariant. */
module HsaDeviceSteps {
  import opened Common
  import opened HsaState
  import opened HsaSteps
  import opened HsaInvariant
  import opened HsaFrame

  lemma KeepGpuTake(s: State, q: nat)
    requires Inv(s) && CanGpuTake(s, q)
    ensures Inv(DoGpuTake(s, q))
  {
    var q' := DoGpuTake(s, q).queues[q];
    QueueIsOk(s, q);
    assert LogOk(q'.gpu);
    AssembleQueueStep(s, q, q');
  }

  // -------------------------------------------------------- packet completion

  /** The pending dispatch a running dispatch packet belongs to is the only user of its signal. */
  lemma OnlyUser(q: Queue, i: nat, j: nat)
    requires Conserved(q)
    requires i < |q.pendingDispatches| && j < |q.pendingDispatches|
    requires q.pendingDispatches[i].signal == q.pendingDispatches[j].signal
    requires q.pendingDispatches[i].signal < |q.dispatchValues|
    ensures i == j
  {
    assert SignalBag(q)[q.pendingDispatches[i].signal] == 1;
    if i != j { Twice(Signals(q.pendingDispatches), i, j); }
  }

  lemma Twice(s: seq<nat>, i: nat, j: nat)
    requires i < |s| && j < |s| && i != j && s[i] == s[j]
    ensures multiset(s)[s[i]] >= 2
  {
    var a, b := if i < j then i else j, if i < j then j else i;
    assert s == s[..a] + [s[a]] + s[a + 1..];
    assert s[a + 1..] == s[a + 1..b] + [s[b]] + s[b + 1..];
  }

  lemma NotElsewhere(q: Queue, i: nat)
    requires Conserved(q)
    requires i < |q.pendingDispatches| && q.pendingDispatches[i].signal < |q.dispatchValues|
    ensures q.pendingDispatches[i].signal !in q.signalPool
    ensures forall d :: d in q.deferred ==> d.signal != q.pendingDispatches[i].signal
    ensures forall f :: f in q.inFlight ==> f.signal != q.pendingDispatches[i].signal
  {
    var h := q.pendingDispatches[i].signal;
    assert Signals(q.pendingDispatches)[i] == h;
    assert SignalBag(q)[h] == 1 && multiset(Signals(q.pendingDispatches))[h] >= 1;
    forall d | d in q.deferred ensures d.signal != h {
      var k :| 0 <= k < |q.deferred| && q.deferred[k] == d;
      assert Signals(q.deferred)[k] == d.signal;
      assert multiset(Signals(q.deferred))[d.signal] >= 1;
    }
    forall f | f in q.inFlight ensures f.signal != h {
      var k :| 0 <= k < |q.inFlight| && q.inFlight[k] == f;
      assert FlightSignals(q.inFlight)[k] == f.signal;
      assert multiset(FlightSignals(q.inFlight))[f.signal] >= 1;
    }
  }

  /** The entry that a running dispatch packet belongs to. */
  lemma RunningEntry(qi: nat, q: Queue, events: Events, p: nat) returns (i: nat)
    requires CoverOk(qi, q.gpu.log, q.gpu.done, q.pendingDispatches, q.pendingBarriers, q.pendingEvents, events)
    requires BarriersOk(q.gpu.log, q.gpu.done, events, q.pendingBarriers)
    requires MarkersOk(qi, q.gpu.log, q.gpu.done, q.pendingEvents, events)
    requires p < |q.gpu.log| && p !in q.gpu.done && q.gpu.log[p].Dispatch?
    ensures i < |q.pendingDispatches| && q.pendingDispatches[i].pid == p
  {
    assert Covered(qi, q.pendingDispatches, q.pendingBarriers, q.pendingEvents, events, p);
    forall k | 0 <= k < |q.pendingBarriers| ensures q.pendingBarriers[k].pid != p {
      assert BarrierOk(q.gpu.log, q.gpu.done, events, q.pendingBarriers[k]);
    }
    forall e | e in q.pendingEvents ensures e < |events| && events[e].recorded != Some(Record(qi, p)) {
      assert MarkerOk(qi, q.gpu.log, q.gpu.done, events, e);
    }
    i :| 0 <= i < |q.pendingDispatches| && q.pendingDispatches[i].pid == p;
  }

  lemma CompleteEntries(q: Queue, i: nat, done': set<nat>, values': seq<nat>)
    requires Conserved(q)
    requires DispatchesOk(q.gpu.log, q.gpu.done, q.dispatchValues, q.pendingDispatches)
    requires i < |q.pendingDispatches| && done' == q.gpu.done + {q.pendingDispatches[i].pid}
    requires q.pendingDispatches[i].pid !in q.gpu.done
    requires q.pendingDispatches[i].signal < |q.dispatchValues|
    requires var h := q.pendingDispatches[i].signal; values' == q.dispatchValues[h := Decrement(q.dispatchValues[h])]
    ensures DispatchesOk(q.gpu.log, done', values', q.pendingDispatches)
  {
    assert EntryOk(q.gpu.log, q.gpu.done, q.dispatchValues, q.pendingDispatches[i]);
    forall j | 0 <= j < |q.pendingDispatches|
      ensures EntryOk(q.gpu.log, done', values', q.pendingDispatches[j])
    {
      assert EntryOk(q.gpu.log, q.gpu.done, q.dispatchValues, q.pendingDispatches[j]);
      if q.pendingDispatches[j].signal == q.pendingDispatches[i].signal { OnlyUser(q, i, j); }
    }
  }

  lemma CompleteDispatchSide(qi: nat, q: Queue, events: Events, p: nat)
    requires DispatchSide(q) && CanComplete(q, events, p) && q.gpu.log[p].Dispatch?
    requires CoverOk(qi, q.gpu.log, q.gpu.done, q.pendingDispatches, q.pendingBarriers, q.pendingEvents, events)
    requires BarriersOk(q.gpu.log, q.gpu.done, events, q.pendingBarriers)
    requires MarkersOk(qi, q.gpu.log, q.gpu.done, q.pendingEvents, events)
    ensures DispatchSide(CompleteQueue(q, p))
  {
    var q' := CompleteQueue(q, p);
    var i := RunningEntry(qi, q, events, p);
    assert EntryOk(q.gpu.log, q.gpu.done, q.dispatchValues, q.pendingDispatches[i]);
    NotElsewhere(q, i);
    CompleteEntries(q, i, q'.gpu.done, q'.dispatchValues);
    assert SignalBag(q') == SignalBag(q) && KernargBag(q') == KernargBag(q);
  }

  /** Completing a packet that is no dispatch leaves the dispatch entries alone. */
  lemma MarkDone(log: Log, done: set<nat>, values: seq<nat>, pd: seq<PendingDispatch>,
                 deferred: seq<PendingDispatch>, waits: seq<Signal>, p: nat)
    requires DispatchesOk(log, done, values, pd) && DeferredOk(log, done, values, deferred, waits)
    requires p < |log| && !log[p].Dispatch?
    ensures DispatchesOk(log, done + {p}, values, pd) && DeferredOk(log, done + {p}, values, deferred, waits)
  {
  }

  /** What completing a packet can do to events: finish the recording of a marker. */
  ghost predicate OnlyFinishes(events: Events, events': Events) {
    && |events'| == |events|
    && (forall e :: 0 <= e < |events| ==> events'[e] == events[e] || events'[e] == FinishEpoch(events[e]))
  }

  lemma CompleteBarriers(q: Queue, events: Events, events': Events, p: nat)
    requires BarriersOk(q.gpu.log, q.gpu.done, events, q.pendingBarriers) && CanComplete(q, events, p)
    requires forall x :: 0 <= x < |events| ==> EventOk(events[x])
    requires OnlyFinishes(events, events')
    ensures BarriersOk(q.gpu.log, q.gpu.done + {p}, events', q.pendingBarriers)
  {
  }

  lemma CompleteRetirement(qi: nat, holder: Holder, pb: seq<PendingBarrier>, events: Events, events': Events)
    requires RetireMarkersOk(qi, events, holder, pb) && OnlyFinishes(events, events')
    ensures RetireMarkersOk(qi, events', holder, pb)
  {
  }

  lemma CompleteSync(log: Log, done: set<nat>, values: seq<nat>, values': seq<nat>, holder: Holder, p: nat)
    requires SyncOk(log, done, values, holder) && p < |log| && p !in done
    requires |values'| == |values|
    requires forall c :: 0 <= c < |values| ==>
      values'[c] == if CompletesSync(log[p], c) then Decrement(values[c]) else values[c]
    ensures SyncOk(log, done + {p}, values', holder)
  {
    forall c | 0 <= c < |values|
      ensures values'[c] == |Undone(log, done + {p}, c)| + Unpublished(holder, c)
    {
      if CompletesSync(log[p], c) {
        assert p in Undone(log, done, c);
        assert Undone(log, done + {p}, c) == Undone(log, done, c) - {p};
      } else {
        assert Undone(log, done + {p}, c) == Undone(log, done, c);
      }
    }
  }

  lemma CompleteCover(qi: nat, q: Queue, events: Events, events': Events, p: nat)
    requires CoverOk(qi, q.gpu.log, q.gpu.done, q.pendingDispatches, q.pendingBarriers, q.pendingEvents, events)
    requires OnlyFinishes(events, events')
    ensures CoverOk(qi, q.gpu.log, q.gpu.done + {p}, q.pendingDispatches, q.pendingBarriers, q.pendingEvents, events')
  {
  }

  lemma CompleteAwaits(q: Queue, events: Events, events': Events, p: nat)
    requires AwaitsOk(q.gpu.log, q.gpu.done, events) && CanComplete(q, events, p)
    requires forall x :: 0 <= x < |events| ==> EventOk(events[x])
    requires OnlyFinishes(events, events')
    ensures AwaitsOk(q.gpu.log, q.gpu.done + {p}, events')
  {
  }

  lemma CompleteMarkers(qi: nat, log: Log, done: set<nat>, pendingEvents: seq<nat>, events: Events, p: nat)
    requires MarkersOk(qi, log, done, pendingEvents, events) && p < |log| && p !in done
    ensures MarkersOk(qi, log, done + {p}, pendingEvents, CompleteEvents(events, log[p]))
    ensures log[p].BarrierAnd? && log[p].completed.Some? && log[p].completed.value.EventSignal? ==>
      var e := log[p].completed.value.event;
      e < |events| && events[e].pending && events[e].recorded == Some(Record(qi, p)) && events[e].signal == 1
  {
    var events' := CompleteEvents(events, log[p]);
    if log[p].BarrierAnd? && log[p].completed.Some? && log[p].completed.value.EventSignal? {
      assert log[p].completed.value.event in pendingEvents;
      assert MarkerOk(qi, log, done, events, log[p].completed.value.event);
    }
    forall e | e in pendingEvents
      ensures MarkerOk(qi, log, done + {p}, events', e)
    {
      assert MarkerOk(qi, log, done, events, e);
    }
  }

  lemma CompleteBarrierSide(qi: nat, q: Queue, events: Events, p: nat)
    requires BarrierSide(qi, q, events) && CanComplete(q, events, p)
    requires forall x :: 0 <= x < |events| ==> EventOk(events[x])
    ensures BarrierSide(qi, CompleteQueue(q, p), CompleteEvents(events, q.gpu.log[p]))
  {
    var q', events' := CompleteQueue(q, p), CompleteEvents(events, q.gpu.log[p]);
    CompleteBarriers(q, events, events', p);
    CompleteRetirement(qi, q.holder, q.pendingBarriers, events, events');
    assert CountsOk(qi, q'.pendingBarriers, q'.active, events');
    assert NamesOk(q'.gpu.log, q'.gpu.done, q'.pendingBarriers);
  }

  lemma CompleteSyncSide(q: Queue, events: Events, p: nat)
    requires SyncSide(q) && CanComplete(q, events, p)
    ensures SyncSide(CompleteQueue(q, p))
  {
    var q' := CompleteQueue(q, p);
    CompleteSync(q.gpu.log, q.gpu.done, q.syncValues, q'.syncValues, q.holder, p);
    assert SyncDepsOk(q'.gpu.log, q'.gpu.done, q'.pendingDispatches, q'.pendingSyncs, q'.holder);
  }

  lemma CompleteEventSide(qi: nat, q: Queue, events: Events, p: nat)
    requires EventSide(qi, q, events) && CanComplete(q, events, p)
    requires forall x :: 0 <= x < |events| ==> EventOk(events[x])
    ensures EventSide(qi, CompleteQueue(q, p), CompleteEvents(events, q.gpu.log[p]))
  {
    var events' := CompleteEvents(events, q.gpu.log[p]);
    CompleteCover(qi, q, events, events', p);
    CompleteAwaits(q, events, events', p);
    CompleteMarkers(qi, q.gpu.log, q.gpu.done, q.pendingEvents, events, p);
  }

  lemma MarkLog(g: Gpu, p: nat)
    requires LogOk(g) && p < g.taken
    ensures LogOk(g.(done := g.done + {p}))
  {
  }

  lemma SamePlaces(q: Queue, q': Queue)
    requires Conserved(q)
    requires q'.signalPool == q.signalPool && q'.pendingDispatches == q.pendingDispatches && q'.deferred == q.deferred
    requires q'.inFlight == q.inFlight && q'.kernargPool == q.kernargPool
    requires |q'.dispatchValues| == |q.dispatchValues| && q'.kernargs == q.kernargs
    ensures Conserved(q')
  {
  }

  lemma CompleteOtherSide(q: Queue, events: Events, p: nat)
    requires DispatchSide(q) && CanComplete(q, events, p) && !q.gpu.log[p].Dispatch?
    ensures DispatchSide(CompleteQueue(q, p))
  {
    hide DispatchesOk, DeferredOk, WaitsOk, ArmedOk, Conserved, LogOk;
    var q' := CompleteQueue(q, p);
    MarkDone(q.gpu.log, q.gpu.done, q.dispatchValues, q.pendingDispatches, q.deferred, q.progressWaits, p);
    assert q'.dispatchValues == q.dispatchValues && q'.gpu == q.gpu.(done := q.gpu.done + {p});
    assert LogOk(q'.gpu) by { MarkLog(q.gpu, p); }
    assert Conserved(q') by { SamePlaces(q, q'); }
  }

  lemma CompleteQueueOk(qi: nat, q: Queue, events: Events, p: nat)
    requires QueueOk(qi, q, events) && CanComplete(q, events, p)
    requires forall x :: 0 <= x < |events| ==> EventOk(events[x])
    ensures QueueOk(qi, CompleteQueue(q, p), CompleteEvents(events, q.gpu.log[p]))
  {
    CompleteBarrierSide(qi, q, events, p);
    CompleteSyncSide(q, events, p);
    CompleteEventSide(qi, q, events, p);
    if q.gpu.log[p].Dispatch? { CompleteDispatchSide(qi, q, events, p); } else { CompleteOtherSide(q, events, p); }
  }

  lemma KeepGpuComplete(s: State, q: nat, p: nat)
    requires Inv(s) && CanGpuComplete(s, q, p)
    ensures Inv(DoGpuComplete(s, q, p))
  {
    hide DispatchSide, BarrierSide, SyncSide, LaunchKeeps, OthersKeep, Evolves;
    var x, events' := s.queues[q], CompleteEvents(s.events, s.queues[q].gpu.log[p]);
    QueueIsOk(s, q);
    CompleteQueueOk(q, x, s.events, p);
    CompleteStep(q, x, s.events, |s.queues|, p);
    CompleteLaunches(x, s.events, |s.queues|, p);
    AssembleStep(s, q, CompleteQueue(x, p), events');
  }

  lemma CompleteStep(qi: nat, q: Queue, events: Events, n: nat, p: nat)
    requires ValidEvents(events, n) && CanComplete(q, events, p)
    requires MarkersOk(qi, q.gpu.log, q.gpu.done, q.pendingEvents, events)
    ensures Evolves(events, CompleteEvents(events, q.gpu.log[p]), {})
    ensures ValidEvents(CompleteEvents(events, q.gpu.log[p]), n)
    ensures OthersKeep(qi, events, CompleteEvents(events, q.gpu.log[p]))
  {
    CompleteMarkers(qi, q.gpu.log, q.gpu.done, q.pendingEvents, events, p);
  }

  lemma CompleteLaunches(q: Queue, events: Events, n: nat, p: nat)
    requires ValidEvents(events, n) && CanComplete(q, events, p)
    ensures LaunchKeeps(q, CompleteQueue(q, p), CompleteEvents(events, q.gpu.log[p]))
  {
  }

  // -------------------------------------------------------------- copy engine

  lemma KeepCopyDone(s: State, e: nat)
    requires Inv(s) && CanCopyDone(s, e)
    ensures Inv(DoCopyDone(s, e))
  {
    hide QueueGood, LaunchGood;
    var s' := DoCopyDone(s, e);
    AllEventsValid(s);
    AssembleEventsOnly(s, s', {});
  }

  lemma KeepNewEvent(s: State)
    requires Inv(s)
    ensures Inv(DoNewEvent(s))
  {
    hide QueueGood, LaunchGood;
    var s' := DoNewEvent(s);
    AllEventsValid(s);
    AssembleEventsOnly(s, s', {});
  }

  lemma KeepNewQueue(s: State, size: nat)
    requires Inv(s)
    requires forall e :: 0 <= e < |s.events| ==> |s.queues| !in s.events[e].depQueues
    ensures Inv(DoNewQueue(s, size))
  {
    hide QueueOk, LaunchOk, EventOk;
    var s' := DoNewQueue(s, size);
    var n := |s.queues|;
    forall k | 0 <= k < |s'.queues| ensures QueueGood(s', k) {
      if k < n { assert QueueGood(s, k); } else { NewQueueOk(s, size); }
    }
    forall e | 0 <= e < |s'.events| ensures EventGood(s', e) { assert EventGood(s, e); }
    forall t | t in s'.launches ensures LaunchGood(s', t) { assert LaunchGood(s, t); }
  }

  lemma NewQueueOk(s: State, size: nat)
    requires Inv(s)
    requires forall e :: 0 <= e < |s.events| ==> |s.queues| !in s.events[e].depQueues
    ensures QueueOk(|s.queues|, NewQueueValue(size), s.events)
  {
    AllEventsValid(s);
    EmptyEventSide(|s.queues|, size, s.events);
  }

  lemma EmptyEventSide(n: nat, size: nat, events: Events)
    requires ValidEvents(events, n)
    requires forall e :: 0 <= e < |events| ==> n !in events[e].depQueues
    ensures QueueOk(n, NewQueueValue(size), events)
  {
    var q := NewQueueValue(size);
    assert DispatchSide(q);
    assert BarrierSide(n, q, events);
    assert SyncSide(q);
    assert EventSide(n, q, events);
  }
}
