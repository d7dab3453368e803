/** Retirement: the host drops references only after the packet processor is done
    with them, and re-arms a signal only when nothing names it. */
module HsaReapSteps {
  import opened Common
  import opened HsaState
  import opened HsaSteps
  import opened HsaInvariant
  import opened HsaFrame
  import HsaDeviceSteps

  // ---------------------------------------------------------------- counters

  ghost predicate SameButCounts(events: Events, events': Events) {
    && |events'| == |events|
    && (forall e :: 0 <= e < |events| ==>
          events'[e] == events[e].(depQueues := events'[e].depQueues, depCount := events'[e].depCount))
  }

  /** Everything but the counting condition ignores dependency counts. */
  lemma CountsIrrelevant(qi: nat, q: Queue, events: Events, events': Events)
    requires SameButCounts(events, events')
    requires EventSide(qi, q, events)
    requires BarriersOk(q.gpu.log, q.gpu.done, events, q.pendingBarriers)
    requires RetireMarkersOk(qi, events, q.holder, q.pendingBarriers)
    ensures EventSide(qi, q, events')
    ensures BarriersOk(q.gpu.log, q.gpu.done, events', q.pendingBarriers)
    ensures RetireMarkersOk(qi, events', q.holder, q.pendingBarriers)
  {
  }

  lemma {:induction false} CountAppend(bs: seq<PendingBarrier>, b: PendingBarrier, e: nat)
    ensures DepCount(bs + [b], e) == DepCount(bs, e) + multiset(b.dependencies)[e]
  {
  }

  lemma CountUpdate(bs: seq<PendingBarrier>, i: nat, b: PendingBarrier, e: nat)
    requires i < |bs|
    ensures DepCount(bs[i := b], e) + multiset(bs[i].dependencies)[e] == DepCount(bs, e) + multiset(b.dependencies)[e]
  {
    var n := |bs| - 1;
    if i < n {
      CountUpdate(bs[..n], i, b, e);
      assert bs[i := b][..n] == bs[..n][i := b];
    } else {
      assert bs[i := b][..n] == bs[..n];
    }
  }

  lemma {:induction false} CountRemove(bs: seq<PendingBarrier>, i: nat, e: nat)
    requires i < |bs|
    ensures DepCount(SwapRemove(bs, i), e) + multiset(bs[i].dependencies)[e] == DepCount(bs, e)
  {
    var n := |bs| - 1;
    if i < n {
      CountUpdate(bs, i, bs[n], e);
      var u := bs[i := bs[n]];
      assert u[n] == bs[n];
    }
  }

  // ---------------------------------------------------------- reaping barriers

  /** The retirement signal reaching zero proves the barrier packet was consumed. */
  lemma RetiredIsDone(qi: nat, q: Queue, events: Events, i: nat)
    requires DispatchSide(q) && SyncSide(q) && q.holder == Unlocked
    requires RetireDispatchesOk(|q.dispatchValues|, q.pendingDispatches, q.deferred, q.pendingBarriers)
    requires RetireSyncsOk(|q.syncValues|, q.gpu.log, q.pendingBarriers)
    requires RetireMarkersOk(qi, events, q.holder, q.pendingBarriers)
    requires BarriersOk(q.gpu.log, q.gpu.done, events, q.pendingBarriers)
    requires MarkersOk(qi, q.gpu.log, q.gpu.done, q.pendingEvents, events)
    requires i < |q.pendingBarriers| && IsZero(q, events, q.pendingBarriers[i].retirement)
    ensures q.pendingBarriers[i].pid in q.gpu.done
  {
    var b := q.pendingBarriers[i];
    assert BarrierOk(q.gpu.log, q.gpu.done, events, b);
    match b.retirement
    case DispatchSignal(h) =>
      var d := ZeroEntry(q, h);
      assert RetireDispatchOk(|q.dispatchValues|, q.pendingDispatches, q.deferred, b);
      assert b.pid < d.pid < q.gpu.taken && HoldsBack(q.gpu.log, b.pid, d.pid);
    case SyncSignal(c) =>
      assert |Undone(q.gpu.log, q.gpu.done, c)| == 0;
      assert b.pid !in Undone(q.gpu.log, q.gpu.done, c);
    case EventSignal(e) =>
      assert RetireMarkerOk(qi, events, q.holder, b);
      assert MarkerOk(qi, q.gpu.log, q.gpu.done, events, e);
      assert b.pid < events[e].recorded.value.packet < q.gpu.taken
        && HoldsBack(q.gpu.log, b.pid, events[e].recorded.value.packet);
  }

  /** A completion signal that is zero stands for a dispatch that completed. */
  lemma ZeroEntry(q: Queue, h: nat) returns (d: PendingDispatch)
    requires DispatchSide(q) && h < |q.dispatchValues| && q.dispatchValues[h] == 0
    ensures d in q.pendingDispatches || d in q.deferred
    ensures d.signal == h && d.pid in q.gpu.done
    ensures d in q.pendingDispatches ==> exists i :: 0 <= i < |q.pendingDispatches| && q.pendingDispatches[i] == d
  {
    assert SignalBag(q)[h] == 1;
    assert h !in q.signalPool;
    forall f | f in FlightSignals(q.inFlight) ensures f != h {
      var k :| 0 <= k < |q.inFlight| && FlightSignals(q.inFlight)[k] == f;
      assert q.inFlight[k] in q.inFlight;
    }
    if h in Signals(q.pendingDispatches) {
      var k :| 0 <= k < |q.pendingDispatches| && Signals(q.pendingDispatches)[k] == h;
      d := q.pendingDispatches[k];
      assert EntryOk(q.gpu.log, q.gpu.done, q.dispatchValues, d);
    } else {
      assert h in multiset(Signals(q.deferred));
      var k :| 0 <= k < |q.deferred| && Signals(q.deferred)[k] == h;
      d := q.deferred[k];
      assert EntryOk(q.gpu.log, q.gpu.done, q.dispatchValues, d);
    }
  }

  lemma Survives<T>(s: seq<T>, i: nat, k: nat)
    requires i < |s| && k < |s| && k != i
    ensures s[k] in SwapRemove(s, i)
    ensures exists j :: 0 <= j < |SwapRemove(s, i)| && SwapRemove(s, i)[j] == s[k]
  {
    var r := SwapRemove(s, i);
    if k == |s| - 1 { assert r[i] == s[k]; } else { assert r[k] == s[k]; }
  }

  lemma ReapNames(q: Queue, i: nat)
    requires NamesOk(q.gpu.log, q.gpu.done, q.pendingBarriers)
    requires i < |q.pendingBarriers| && q.pendingBarriers[i].pid in q.gpu.done
    ensures NamesOk(q.gpu.log, q.gpu.done, SwapRemove(q.pendingBarriers, i))
  {
  }

  lemma ReapCover(qi: nat, q: Queue, events: Events, i: nat)
    requires CoverOk(qi, q.gpu.log, q.gpu.done, q.pendingDispatches, q.pendingBarriers, q.pendingEvents, events)
    requires i < |q.pendingBarriers| && q.pendingBarriers[i].pid in q.gpu.done
    ensures CoverOk(qi, q.gpu.log, q.gpu.done, q.pendingDispatches, SwapRemove(q.pendingBarriers, i), q.pendingEvents,
                    events)
  {
  }

  lemma ReapBarrierOthers(qi: nat, q: Queue, events: Events, i: nat)
    requires BarrierSide(qi, q, events) && i < |q.pendingBarriers|
    ensures BarriersOk(q.gpu.log, q.gpu.done, events, SwapRemove(q.pendingBarriers, i))
    ensures RetireDispatchesOk(|q.dispatchValues|, q.pendingDispatches, q.deferred, SwapRemove(q.pendingBarriers, i))
    ensures RetireSyncsOk(|q.syncValues|, q.gpu.log, SwapRemove(q.pendingBarriers, i))
    ensures RetireMarkersOk(qi, events, q.holder, SwapRemove(q.pendingBarriers, i))
  {
  }

  lemma ReapCounts(qi: nat, q: Queue, events: Events, i: nat)
    requires CountsOk(qi, q.pendingBarriers, q.active, events) && i < |q.pendingBarriers|
    ensures CountsOk(qi, SwapRemove(q.pendingBarriers, i),
                     ReleaseActive(q.active, q.pendingBarriers[i].dependencies),
                     ReleaseAll(events, qi, q.pendingBarriers[i].dependencies))
  {
    var pb := SwapRemove(q.pendingBarriers, i);
    var deps := q.pendingBarriers[i].dependencies;
    var active := ReleaseActive(q.active, deps);
    var events' := ReleaseAll(events, qi, deps);
    forall e: nat ensures DepCount(pb, e) == Get(active, e) {
      CountRemove(q.pendingBarriers, i, e);
    }
    var bag: multiset<nat> := multiset(deps);
    forall e: nat | e < |events| ensures Get(events'[e].depQueues, qi) == Get(active, e) {
      ReleaseCount(qi, events[e], bag[e]);
    }
  }

  lemma ReleaseCount(qi: nat, ev: Event, n: nat)
    ensures Get(Release(ev, qi, n).depQueues, qi) == if Get(ev.depQueues, qi) <= n then 0 else Get(ev.depQueues, qi) - n
  {
  }

  lemma ReapBarrierOk(qi: nat, q: Queue, events: Events, i: nat)
    requires QueueOk(qi, q, events) && q.holder == Unlocked
    requires i < |q.pendingBarriers| && q.pendingBarriers[i].pid in q.gpu.done
    ensures QueueOk(qi, ReapBarrierQueue(q, i), ReleaseAll(events, qi, q.pendingBarriers[i].dependencies))
  {
    var q' := ReapBarrierQueue(q, i);
    ReapNames(q, i);
    ReapCover(qi, q, events, i);
    ReapBarrierOthers(qi, q, events, i);
    ReapCounts(qi, q, events, i);
    assert EventSide(qi, q', events);
    CountsIrrelevant(qi, q', events, ReleaseAll(events, qi, q.pendingBarriers[i].dependencies));
    assert SignalBag(q') == SignalBag(q) && KernargBag(q') == KernargBag(q);
  }

  lemma ReleaseOne(qi: nat, ev: Event, n: nat)
    requires EventOk(ev)
    ensures EventOk(Release(ev, qi, n))
    ensures forall k: nat :: k != qi ==> EventKeeps(k, ev, Release(ev, qi, n))
    ensures ev.depQueues == map[] ==> Release(ev, qi, n).depQueues == map[]
  {
  }

  lemma ReleaseStep(qi: nat, events: Events, deps: seq<nat>, n: nat)
    requires ValidEvents(events, n)
    ensures Evolves(events, ReleaseAll(events, qi, deps), {})
    ensures OthersKeep(qi, events, ReleaseAll(events, qi, deps))
    ensures ValidEvents(ReleaseAll(events, qi, deps), n)
  {
    var bag: multiset<nat> := multiset(deps);
    forall e: nat | e < |events|
      ensures EventOk(Release(events[e], qi, bag[e]))
      ensures forall k: nat :: k != qi ==> EventKeeps(k, events[e], Release(events[e], qi, bag[e]))
      ensures events[e].depQueues == map[] ==> Release(events[e], qi, bag[e]).depQueues == map[]
    {
      ReleaseOne(qi, events[e], bag[e]);
    }
  }

  lemma KeepReapBarrier(s: State, q: nat, i: nat)
    requires Inv(s) && CanReapBarrier(s, q, i)
    ensures Inv(DoReapBarrier(s, q, i))
    ensures s.queues[q].pendingBarriers[i].pid in s.queues[q].gpu.done
  {
    var x := s.queues[q];
    var deps := x.pendingBarriers[i].dependencies;
    QueueIsOk(s, q);
    RetiredIsDone(q, x, s.events, i);
    ReapBarrierOk(q, x, s.events, i);
    ReleaseStep(q, s.events, deps, |s.queues|);
    ReapLaunches(q, x, s.events, |s.queues|, i);
    AssembleStep(s, q, ReapBarrierQueue(x, i), ReleaseAll(s.events, q, deps));
  }

  lemma ReapLaunches(qi: nat, q: Queue, events: Events, n: nat, i: nat)
    requires ValidEvents(events, n)
    requires BarriersOk(q.gpu.log, q.gpu.done, events, q.pendingBarriers)
    requires CountsOk(qi, q.pendingBarriers, q.active, events)
    requires i < |q.pendingBarriers| && q.pendingBarriers[i].pid in q.gpu.done
    ensures LaunchKeeps(q, ReapBarrierQueue(q, i), ReleaseAll(events, qi, q.pendingBarriers[i].dependencies))
  {
  }

  // --------------------------------------------------------- reaping dispatches

  lemma FrontBag(s: seq<nat>)
    requires s != []
    ensures multiset(s) == multiset{s[0]} + multiset(s[1..])
  {
    assert s == [s[0]] + s[1..];
  }

  lemma HeadBags(q: Queue)
    requires q.pendingDispatches != []
    ensures multiset(Signals(q.pendingDispatches))
         == multiset{q.pendingDispatches[0].signal} + multiset(Signals(q.pendingDispatches[1..]))
    ensures multiset(Kernargs(q.pendingDispatches))
         == multiset{q.pendingDispatches[0].kernarg} + multiset(Kernargs(q.pendingDispatches[1..]))
  {
    var pd := q.pendingDispatches;
    FrontBag(Signals(pd));
    FrontBag(Kernargs(pd));
    assert Signals(pd)[1..] == Signals(pd[1..]);
    assert Kernargs(pd)[1..] == Kernargs(pd[1..]);
  }

  /** Four places, one token moving from the second to the third or to the first. */
  lemma MoveToken(pool: multiset<nat>, pending: multiset<nat>, deferred: multiset<nat>, flight: multiset<nat>, x: nat)
    ensures pool + pending + (deferred + multiset{x}) + flight == pool + (multiset{x} + pending) + deferred + flight
    ensures (pool + multiset{x}) + pending + deferred + flight == pool + (multiset{x} + pending) + deferred + flight
  {
  }

  lemma ReapConserves(q: Queue)
    requires q.pendingDispatches != []
    ensures SignalBag(ReapDispatchQueue(q)) == SignalBag(q)
    ensures KernargBag(ReapDispatchQueue(q)) == KernargBag(q)
  {
    HeadBags(q);
    var d := q.pendingDispatches[0];
    var rest := q.pendingDispatches[1..];
    MoveToken(multiset(q.signalPool), multiset(Signals(rest)), multiset(Signals(q.deferred)),
              multiset(FlightSignals(q.inFlight)), d.signal);
    MoveToken(multiset(q.kernargPool), multiset(Kernargs(rest)), multiset(Kernargs(q.deferred)),
              multiset(FlightKernargs(q.inFlight)), d.kernarg);
    assert Signals(q.deferred + [d]) == Signals(q.deferred) + [d.signal];
    assert Kernargs(q.deferred + [d]) == Kernargs(q.deferred) + [d.kernarg];
  }

  lemma ReapEntries(q: Queue)
    requires DispatchSide(q) && q.pendingDispatches != [] && q.pendingDispatches[0].pid in q.gpu.done
    ensures DispatchesOk(q.gpu.log, q.gpu.done, ReapDispatchQueue(q).dispatchValues, q.pendingDispatches[1..])
    ensures DeferredOk(q.gpu.log, q.gpu.done, ReapDispatchQueue(q).dispatchValues, ReapDispatchQueue(q).deferred,
                       q.progressWaits)
    ensures ArmedOk(ReapDispatchQueue(q).dispatchValues, ReapDispatchQueue(q).signalPool, q.inFlight)
  {
    var q' := ReapDispatchQueue(q);
    var pd := q.pendingDispatches;
    assert EntryOk(q.gpu.log, q.gpu.done, q.dispatchValues, pd[0]);
    HsaDeviceSteps.NotElsewhere(q, 0);
    forall i | 0 < i < |pd| ensures EntryOk(q.gpu.log, q.gpu.done, q'.dispatchValues, pd[i]) {
      assert EntryOk(q.gpu.log, q.gpu.done, q.dispatchValues, pd[i]);
      if pd[i].signal == pd[0].signal { HsaDeviceSteps.OnlyUser(q, 0, i); }
    }
  }

  lemma ReapWaits(q: Queue)
    requires WaitsOk(q.pendingDispatches, q.deferred, q.progressWaits) && q.pendingDispatches != []
    ensures WaitsOk(q.pendingDispatches[1..], ReapDispatchQueue(q).deferred, q.progressWaits)
  {
    HeadBags(q);
    var d := q.pendingDispatches[0];
    var q' := ReapDispatchQueue(q);
    forall h: nat | DispatchSignal(h) in q.progressWaits
      ensures h in Signals(q'.pendingDispatches) || h in Signals(q'.deferred) {
      if h in Signals(q.deferred) {
        var k :| 0 <= k < |q.deferred| && Signals(q.deferred)[k] == h;
        assert Signals(q'.deferred)[k] == h;
      } else if h == d.signal {
        assert Signals(q'.deferred)[|q.deferred|] == h;
      } else {
        assert h in multiset(Signals(q.pendingDispatches));
        assert h in multiset(Signals(q.pendingDispatches[1..]));
      }
    }
  }

  lemma ReapRetirements(q: Queue)
    requires RetireDispatchesOk(|q.dispatchValues|, q.pendingDispatches, q.deferred, q.pendingBarriers)
    requires q.pendingDispatches != []
    ensures RetireDispatchesOk(|q.dispatchValues|, q.pendingDispatches[1..], ReapDispatchQueue(q).deferred,
                               q.pendingBarriers)
  {
  }

  /** A dispatch no unfinished synchronization names can go; the others stay pending. */
  lemma ReapSyncDeps(q: Queue)
    requires SyncSide(q) && q.holder == Unlocked
    requires q.pendingDispatches != [] && !SyncNames(q, q.pendingDispatches[0].signal)
    ensures SyncDepsOk(q.gpu.log, q.gpu.done, q.pendingDispatches[1..], q.pendingSyncs, q.holder)
  {
    var log, done, pd := q.gpu.log, q.gpu.done, q.pendingDispatches;
    forall p: nat, h: nat | p < |log| && p !in done && log[p].BarrierAnd? && DispatchSignal(h) in log[p].deps
      ensures Pending(pd[1..], h, p)
    {
      var c := log[p].completed.value.handle;
      assert CompletesSync(log[p], c);
      assert p in Undone(log, done, c);
      assert Registered(q.pendingSyncs, q.holder, c, h);
      var y :| 0 <= y < |q.pendingSyncs| && q.pendingSyncs[y].completion == c && h in q.pendingSyncs[y].dispatchDeps;
      assert q.syncValues[c] != 0;
      assert SyncConsumer(q, q.pendingSyncs[y], h);
      var i :| 0 <= i < |pd| && pd[i].signal == h && pd[i].pid < p;
      assert pd[1..][i - 1] == pd[i];
    }
  }

  lemma ReapDispatchCover(qi: nat, q: Queue, events: Events)
    requires CoverOk(qi, q.gpu.log, q.gpu.done, q.pendingDispatches, q.pendingBarriers, q.pendingEvents, events)
    requires q.pendingDispatches != [] && q.pendingDispatches[0].pid in q.gpu.done
    ensures CoverOk(qi, q.gpu.log, q.gpu.done, q.pendingDispatches[1..], q.pendingBarriers, q.pendingEvents, events)
  {
  }

  lemma ReapDispatchOk(qi: nat, q: Queue, events: Events)
    requires QueueOk(qi, q, events) && q.holder == Unlocked
    requires q.pendingDispatches != [] && q.pendingDispatches[0].pid in q.gpu.done
    requires !SyncNames(q, q.pendingDispatches[0].signal)
    ensures QueueOk(qi, ReapDispatchQueue(q), events)
  {
    hide LogOk, IsRange, SignalBag, KernargBag, BarriersOk;
    ReapConserves(q);
    ReapEntries(q);
    ReapWaits(q);
    ReapRetirements(q);
    ReapSyncDeps(q);
    ReapDispatchCover(qi, q, events);
  }

  lemma KeepReapDispatch(s: State, q: nat)
    requires Inv(s) && CanReapDispatch(s, q)
    ensures Inv(DoReapDispatch(s, q))
  {
    var x := s.queues[q];
    QueueIsOk(s, q);
    assert EntryOk(x.gpu.log, x.gpu.done, x.dispatchValues, x.pendingDispatches[0]);
    ReapDispatchOk(q, x, s.events);
    AssembleQueueStep(s, q, ReapDispatchQueue(x));
  }
}
