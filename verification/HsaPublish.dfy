/** Publishing a packet extends the log of a queue.  Conditions about packets already
    there are not affected; the new packet has to be registered. */
module HsaPublish {
  import opened Common
  import opened HsaState
  import opened HsaSteps
  import opened HsaInvariant
  import opened HsaFrame
  import HsaReapSteps

  // ------------------------------------------------- growing the log, by condition

  lemma GrowLog(g: Gpu, p: Packet)
    requires LogOk(g)
    ensures LogOk(g.(log := g.log + [p]))
  {
    var g' := g.(log := g.log + [p]);
    forall r: nat, k: nat | r < k < g'.taken && HoldsBack(g'.log, r, k) ensures r in g'.done {
      assert HoldsBack(g.log, r, k);
    }
  }

  lemma GrowEntries(log: Log, done: set<nat>, values: seq<nat>, pd: seq<PendingDispatch>,
                    deferred: seq<PendingDispatch>, waits: seq<Signal>, p: Packet)
    requires DispatchesOk(log, done, values, pd) && DeferredOk(log, done, values, deferred, waits)
    ensures DispatchesOk(log + [p], done, values, pd) && DeferredOk(log + [p], done, values, deferred, waits)
  {
    forall d | EntryOk(log, done, values, d) ensures EntryOk(log + [p], done, values, d) {}
  }

  lemma GrowBarriers(log: Log, done: set<nat>, events: Events, pb: seq<PendingBarrier>, n: nat, p: Packet)
    requires BarriersOk(log, done, events, pb) && RetireSyncsOk(n, log, pb)
    ensures BarriersOk(log + [p], done, events, pb) && RetireSyncsOk(n, log + [p], pb)
  {
    forall i | 0 <= i < |pb| ensures BarrierOk(log + [p], done, events, pb[i]) {
      assert BarrierOk(log, done, events, pb[i]);
    }
  }

  lemma GrowMarkers(qi: nat, log: Log, done: set<nat>, pe: seq<nat>, events: Events, p: Packet)
    requires MarkersOk(qi, log, done, pe, events)
    requires p.BarrierAnd? ==> p.completed.None? || !p.completed.value.EventSignal?
    ensures MarkersOk(qi, log + [p], done, pe, events)
  {
    forall e | e in pe ensures MarkerOk(qi, log + [p], done, events, e) {
      assert MarkerOk(qi, log, done, events, e);
    }
  }

  lemma GrowCover(qi: nat, log: Log, done: set<nat>, pd: seq<PendingDispatch>, pb: seq<PendingBarrier>,
                  pe: seq<nat>, events: Events,
                  pd': seq<PendingDispatch>, pb': seq<PendingBarrier>, p: Packet)
    requires CoverOk(qi, log, done, pd, pb, pe, events)
    requires pd <= pd' && pb <= pb'
    requires Covered(qi, pd', pb', pe, events, |log|)
    ensures CoverOk(qi, log + [p], done, pd', pb', pe, events)
  {
    forall r | 0 <= r < |log + [p]| && r !in done ensures Covered(qi, pd', pb', pe, events, r) {
      if r < |log| {
        assert Covered(qi, pd, pb, pe, events, r);
        if i :| 0 <= i < |pd| && pd[i].pid == r { assert pd'[i].pid == r; }
        else if i :| 0 <= i < |pb| && pb[i].pid == r { assert pb'[i].pid == r; }
      }
    }
  }

  lemma GrowBlocked(log: Log, done: set<nat>, e: nat, n: nat, m: nat, p: Packet)
    requires Blocked(log, done, e, n) && n <= m
    ensures Blocked(log + [p], done, e, m)
  {
    var r :| 0 <= r < n && r < |log| && r !in done && log[r].BarrierAnd? && EventSignal(e) in log[r].deps;
    assert (log + [p])[r] == log[r];
  }

  lemma GrowGuard(log: Log, done: set<nat>, events: Events, o: Occurrence, n: nat, m: nat, todo: seq<nat>, p: Packet)
    requires Guarded(log, done, events, o, n, todo) && n <= m
    ensures Guarded(log + [p], done, events, o, m, todo)
  {
    if Blocked(log, done, o.event, n) { GrowBlocked(log, done, o.event, n, m, p); }
  }

  lemma GrowAwaits(log: Log, done: set<nat>, events: Events, p: Packet)
    requires AwaitsOk(log, done, events)
    requires p.Dispatch? ==> forall o :: o in p.awaits ==> Guarded(log, done, events, o, |log|, [])
    ensures AwaitsOk(log + [p], done, events)
  {
    forall r, o | 0 <= r < |log + [p]| && (log + [p])[r].Dispatch? && o in (log + [p])[r].awaits
      ensures Guarded(log + [p], done, events, o, r, [])
    {
      assert Guarded(log, done, events, o, r, []);
      GrowGuard(log, done, events, o, r, r, [], p);
    }
  }

  lemma GrowNames(log: Log, done: set<nat>, pb: seq<PendingBarrier>, p: Packet, b: PendingBarrier)
    requires NamesOk(log, done, pb) && b.pid == |log|
    requires forall e: nat :: p.BarrierAnd? && EventSignal(e) in p.deps ==> e in b.dependencies
    ensures NamesOk(log + [p], done, pb + [b])
  {
    forall r: nat, e: nat | r < |log + [p]| && r !in done && (log + [p])[r].BarrierAnd?
      && EventSignal(e) in (log + [p])[r].deps
      ensures Names(pb + [b], r, e)
    {
      if r < |log| {
        assert Names(pb, r, e);
        var i :| 0 <= i < |pb| && pb[i].pid == r && e in pb[i].dependencies;
        assert (pb + [b])[i] == pb[i];
      } else {
        assert (pb + [b])[|pb|] == b;
      }
    }
  }

  lemma GrowUndone(log: Log, done: set<nat>, p: Packet, c: nat)
    requires |log| !in done
    ensures CompletesSync(p, c) ==> |Undone(log + [p], done, c)| == |Undone(log, done, c)| + 1
    ensures !CompletesSync(p, c) ==> Undone(log + [p], done, c) == Undone(log, done, c)
  {
    if CompletesSync(p, c) {
      assert Undone(log + [p], done, c) == Undone(log, done, c) + {|log|};
    }
  }

  lemma GrowPlainSync(log: Log, done: set<nat>, values: seq<nat>, pd: seq<PendingDispatch>,
                      pd': seq<PendingDispatch>, syncs: seq<PendingSync>,
                      holder: Holder, holder': Holder, p: Packet)
    requires SyncOk(log, done, values, holder) && SyncDepsOk(log, done, pd, syncs, holder)
    requires |log| !in done && !holder.BySync? && !holder'.BySync?
    requires pd <= pd'
    requires p.BarrierAnd? ==> (p.completed.None? || !p.completed.value.SyncSignal?) && forall x :: x in p.deps ==>
      x.EventSignal?
    ensures SyncOk(log + [p], done, values, holder') && SyncDepsOk(log + [p], done, pd', syncs, holder')
  {
    forall c: nat ensures Undone(log + [p], done, c) == Undone(log, done, c) { GrowUndone(log, done, p, c); }
    forall r: nat, h: nat | r < |log + [p]| && r !in done && (log + [p])[r].BarrierAnd?
      && DispatchSignal(h) in (log + [p])[r].deps
      ensures Pending(pd', h, r)
    {
      assert Pending(pd, h, r);
      var i :| 0 <= i < |pd| && pd[i].signal == h && pd[i].pid < r;
      assert pd'[i] == pd[i];
    }
  }

  // ---------------------------------------------------------------- counters

  lemma RetainOne(qi: nat, ev: Event, n: nat)
    requires EventOk(ev) && (n > 0 ==> ev.recording.None?)
    ensures EventOk(Retain(ev, qi, n))
    ensures forall k: nat :: k != qi ==> EventKeeps(k, ev, Retain(ev, qi, n))
    ensures ev.recording.Some? ==> Retain(ev, qi, n) == ev
    ensures Get(Retain(ev, qi, n).depQueues, qi) == Get(ev.depQueues, qi) + n
  {
  }

  lemma RetainStep(qi: nat, events: Events, deps: seq<nat>, n: nat)
    requires ValidEvents(events, n)
    requires forall e :: e in deps ==> e < |events| && events[e].recording.None?
    ensures Evolves(events, RetainAll(events, qi, deps), {})
    ensures OthersKeep(qi, events, RetainAll(events, qi, deps))
    ensures ValidEvents(RetainAll(events, qi, deps), n)
  {
    var bag: multiset<nat> := multiset(deps);
    forall e: nat | e < |events|
      ensures EventOk(Retain(events[e], qi, bag[e]))
      ensures forall k: nat :: k != qi ==> EventKeeps(k, events[e], Retain(events[e], qi, bag[e]))
      ensures events[e].recording.Some? ==> Retain(events[e], qi, bag[e]) == events[e]
    {
      RetainOne(qi, events[e], bag[e]);
    }
  }

  lemma RetainCounts(qi: nat, pb: seq<PendingBarrier>, active: map<nat, nat>, events: Events, b: PendingBarrier, n: nat)
    requires CountsOk(qi, pb, active, events) && ValidEvents(events, n)
    requires forall e :: e in b.dependencies ==> e < |events| && events[e].recording.None?
    ensures CountsOk(qi, pb + [b], RetainActive(active, b.dependencies), RetainAll(events, qi, b.dependencies))
  {
    hide ValidEvents, DepCount, Retain;
    var active' := RetainActive(active, b.dependencies);
    var events' := RetainAll(events, qi, b.dependencies);
    forall e: nat ensures DepCount(pb + [b], e) == Get(active', e) {
      HsaReapSteps.CountAppend(pb, b, e);
    }
    forall e: nat | e < |events| ensures Get(events'[e].depQueues, qi) == Get(active', e) {
      RetainedCount(qi, active, events, b.dependencies, e);
    }
    forall e | e in active' ensures active'[e] > 0 && e < |events| {
      PositiveActive(active, b.dependencies, e);
    }
  }

  lemma RetainedCount(qi: nat, active: map<nat, nat>, events: Events, deps: seq<nat>, e: nat)
    requires e < |events| && Get(events[e].depQueues, qi) == Get(active, e)
    ensures Get(RetainAll(events, qi, deps)[e].depQueues, qi) == Get(RetainActive(active, deps), e)
  {
    var bag: multiset<nat> := multiset(deps);
    RetainCount(qi, events[e], bag[e]);
  }

  lemma PositiveActive(active: map<nat, nat>, deps: seq<nat>, e: nat)
    requires e in RetainActive(active, deps) && (e in active ==> active[e] > 0)
    ensures RetainActive(active, deps)[e] > 0
  {
    var bag: multiset<nat> := multiset(deps);
    assert e in deps ==> bag[e] > 0;
    assert RetainActive(active, deps)[e] == Get(active, e) + bag[e];
  }

  lemma RetainCount(qi: nat, ev: Event, n: nat)
    ensures Get(Retain(ev, qi, n).depQueues, qi) == Get(ev.depQueues, qi) + n
  {
  }

  // ------------------------------------------------------- appending to one queue

  lemma AppendDispatchSide(q: Queue, q': Queue, p: Packet)
    requires DispatchSide(q)
    requires q'.gpu == q.gpu.(log := q.gpu.log + [p])
    requires q'.dispatchValues == q.dispatchValues && q'.kernargs == q.kernargs
    requires q'.pendingDispatches == q.pendingDispatches
    requires q'.deferred == q.deferred && q'.signalPool == q.signalPool && q'.kernargPool == q.kernargPool
    requires q'.inFlight == q.inFlight && q'.progressWaits == q.progressWaits
    ensures DispatchSide(q')
  {
    hide LogOk, DispatchesOk, DeferredOk, ArmedOk, WaitsOk;
    GrowLog(q.gpu, p);
    GrowEntries(q.gpu.log, q.gpu.done, q.dispatchValues, q.pendingDispatches, q.deferred, q.progressWaits, p);
    assert SignalBag(q') == SignalBag(q) && KernargBag(q') == KernargBag(q);
  }

  lemma AppendEventSide(qi: nat, q: Queue, q': Queue, events: Events, p: Packet)
    requires EventSide(qi, q, events)
    requires q'.gpu == q.gpu.(log := q.gpu.log + [p])
    requires q'.pendingEvents == q.pendingEvents
    requires q.pendingDispatches <= q'.pendingDispatches && q.pendingBarriers <= q'.pendingBarriers
    requires Covered(qi, q'.pendingDispatches, q'.pendingBarriers, q'.pendingEvents, events, |q.gpu.log|)
    requires p.BarrierAnd? ==> p.completed.None? || !p.completed.value.EventSignal?
    requires p.Dispatch? ==> forall o :: o in p.awaits ==> Guarded(q.gpu.log, q.gpu.done, events, o, |q.gpu.log|, [])
    ensures EventSide(qi, q', events)
  {
    hide MarkersOk, CoverOk, AwaitsOk, Guarded;
    GrowMarkers(qi, q.gpu.log, q.gpu.done, q.pendingEvents, events, p);
    GrowCover(qi, q.gpu.log, q.gpu.done, q.pendingDispatches, q.pendingBarriers, q.pendingEvents, events,
              q'.pendingDispatches, q'.pendingBarriers, p);
    GrowAwaits(q.gpu.log, q.gpu.done, events, p);
  }

  /** The barrier conditions for a new entry `b` for the new packet `p`. */
  ghost predicate EntryFits(qi: nat, q: Queue, events: Events, p: Packet, b: PendingBarrier) {
    && p.BarrierAnd?
    && b.pid == |q.gpu.log|
    && (forall e :: e in b.dependencies <==> EventSignal(e) in p.deps)
    && (forall e :: e in b.dependencies ==> e < |events| && events[e].recording.None?)
    && RetireDispatchOk(|q.dispatchValues|, q.pendingDispatches, q.deferred, b)
    && (b.retirement.SyncSignal? ==> p.completed == Some(b.retirement))
    && RetireMarkerOk(qi, events, q.holder, b)
  }

  lemma AppendBarrierSide(qi: nat, q: Queue, q': Queue, events: Events, n: nat, p: Packet, b: PendingBarrier)
    requires BarrierSide(qi, q, events) && LogOk(q.gpu) && EntryFits(qi, q, events, p, b) && ValidEvents(events, n)
    requires q'.gpu == q.gpu.(log := q.gpu.log + [p]) && q'.pendingBarriers == q.pendingBarriers + [b]
    requires q'.active == RetainActive(q.active, b.dependencies)
    requires q'.dispatchValues == q.dispatchValues && q'.pendingDispatches == q.pendingDispatches
    requires q'.deferred == q.deferred
    requires |q.syncValues| <= |q'.syncValues| && (b.retirement.SyncSignal? ==> b.retirement.handle < |q'.syncValues|)
    requires q'.holder == q.holder || !q.holder.ByRecord?
    ensures BarriersOk(q'.gpu.log, q'.gpu.done, events, q'.pendingBarriers)
    ensures RetireMarkersOk(qi, events, q'.holder, q'.pendingBarriers)
    ensures RetireDispatchesOk(|q'.dispatchValues|, q'.pendingDispatches, q'.deferred, q'.pendingBarriers)
    ensures RetireSyncsOk(|q'.syncValues|, q'.gpu.log, q'.pendingBarriers)
    ensures NamesOk(q'.gpu.log, q'.gpu.done, q'.pendingBarriers)
    ensures CountsOk(qi, q'.pendingBarriers, q'.active, RetainAll(events, qi, b.dependencies))
  {
    hide CountsOk, NamesOk, BarrierOk, ValidEvents, RetireDispatchOk, RetainAll, RetainActive;
    GrowBarriers(q.gpu.log, q.gpu.done, events, q.pendingBarriers, |q.syncValues|, p);
    GrowNames(q.gpu.log, q.gpu.done, q.pendingBarriers, p, b);
    RetainCounts(qi, q.pendingBarriers, q.active, events, b, n);
    NewEntry(q.gpu, events, p, b);
  }

  lemma NewEntry(g: Gpu, events: Events, p: Packet, b: PendingBarrier)
    requires LogOk(g) && p.BarrierAnd? && b.pid == |g.log|
    requires forall e :: e in b.dependencies ==> e < |events| && EventSignal(e) in p.deps
    ensures BarrierOk(g.log + [p], g.done, events, b)
  {
  }

  /** One barrier packet more: every condition holds again once its events are retained. */
  lemma AppendBarrierOk(qi: nat, q: Queue, q': Queue, events: Events, n: nat, p: Packet, b: PendingBarrier)
    requires QueueOk(qi, q, events) && EntryFits(qi, q, events, p, b) && ValidEvents(events, n)
    requires q'.gpu == q.gpu.(log := q.gpu.log + [p]) && q'.pendingBarriers == q.pendingBarriers + [b]
    requires q'.active == RetainActive(q.active, b.dependencies)
    requires q'.dispatchValues == q.dispatchValues && q'.kernargs == q.kernargs
    requires q'.pendingDispatches == q.pendingDispatches
    requires q'.deferred == q.deferred && q'.signalPool == q.signalPool && q'.kernargPool == q.kernargPool
    requires q'.inFlight == q.inFlight && q'.progressWaits == q.progressWaits && q'.pendingEvents == q.pendingEvents
    requires |q.syncValues| <= |q'.syncValues| && (b.retirement.SyncSignal? ==> b.retirement.handle < |q'.syncValues|)
    requires q'.holder == q.holder || !q.holder.ByRecord?
    requires p.completed.None? || !p.completed.value.EventSignal?
    requires SyncSide(q')
    ensures QueueOk(qi, q', RetainAll(events, qi, b.dependencies))
  {
    hide DispatchSide, SyncSide, LogOk, BarriersOk, RetireMarkersOk, RetireDispatchesOk, RetireSyncsOk, NamesOk,
      CountsOk, EventSide, RetainActive, ValidEvents;
    assert LogOk(q.gpu) by { LogIsOk(q); }
    AppendDispatchSide(q, q', p);
    AppendBarrierSide(qi, q, q', events, n, p, b);
    assert q'.pendingBarriers[|q.pendingBarriers|] == b;
    AppendEventSide(qi, q, q', events, p);
    assert HsaReapSteps.SameButCounts(events, RetainAll(events, qi, b.dependencies)) by {
      RetainOnlyCounts(qi, events, b.dependencies);
    }
    HsaReapSteps.CountsIrrelevant(qi, q', events, RetainAll(events, qi, b.dependencies));
  }

  lemma LogIsOk(q: Queue)
    requires DispatchSide(q)
    ensures LogOk(q.gpu)
  {
  }

  lemma RetainOnlyCounts(qi: nat, events: Events, deps: seq<nat>)
    ensures HsaReapSteps.SameButCounts(events, RetainAll(events, qi, deps))
  {
  }

  /** The barrier packets of launches and records. */
  lemma PublishOk(qi: nat, q: Queue, events: Events, n: nat, retirement: Signal, deps: seq<nat>)
    requires QueueOk(qi, q, events) && ValidEvents(events, n) && !q.holder.BySync? && !retirement.SyncSignal?
    requires EntryFits(qi, q, events, BarrierAnd(EventSignals(deps), None),
                       PendingBarrier(retirement, deps, |q.gpu.log|))
    ensures QueueOk(qi, PublishDependencies(q, retirement, deps), RetainAll(events, qi, deps))
  {
    hide DispatchSide, BarrierSide, EventSide, RetainActive, RetainAll, ValidEvents, EntryFits, SyncOk, SyncDepsOk;
    var q' := PublishDependencies(q, retirement, deps);
    var p := BarrierAnd(EventSignals(deps), None);
    assert |q.gpu.log| !in q.gpu.done by { LogIsOk(q); }
    GrowPlainSync(q.gpu.log, q.gpu.done, q.syncValues, q.pendingDispatches, q.pendingDispatches, q.pendingSyncs,
                  q.holder, q.holder, p);
    AppendBarrierOk(qi, q, q', events, n, p, PendingBarrier(retirement, deps, |q.gpu.log|));
  }

  /** A new packet on a queue where only the lists that grew have changed. */
  lemma PublishKeepsLaunches(q: Queue, q': Queue, events': Events)
    requires q.gpu.log <= q'.gpu.log && q'.gpu.done == q.gpu.done && q'.lifecycle == q.lifecycle
    requires forall e :: e in q.active ==> e in q'.active
    ensures LaunchKeeps(q, q', events')
  {
  }

  /** Who holds the lock matters to the conditions only while a synchronization or a
      record is between its packets. */
  lemma ChangeHolder(qi: nat, q: Queue, events: Events, holder: Holder)
    requires QueueOk(qi, q, events) && !q.holder.BySync? && !holder.BySync?
    requires q.holder.ByRecord? ==> holder.ByRecord? && holder.event == q.holder.event
    ensures QueueOk(qi, q.(holder := holder), events)
  {
    hide LogOk, DispatchesOk, DeferredOk, ArmedOk, WaitsOk, IsRange, BarriersOk, RetireDispatchesOk, RetireSyncsOk,
      NamesOk, CountsOk, MarkersOk, CoverOk, AwaitsOk;
    var q' := q.(holder := holder);
    assert SignalBag(q') == SignalBag(q) && KernargBag(q') == KernargBag(q);
    forall i | 0 <= i < |q.pendingBarriers| ensures RetireMarkerOk(qi, events, holder, q.pendingBarriers[i]) {
      assert RetireMarkerOk(qi, events, q.holder, q.pendingBarriers[i]);
    }
    forall c: nat, h: nat | Registered(q.pendingSyncs, q.holder, c, h)
      ensures Registered(q.pendingSyncs, holder, c, h) {}
  }
}
