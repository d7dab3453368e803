/** Queue synchronization and queue destruction keep the invariant. */
module HsaSyncSteps {
  import opened Common
  import opened HsaState
  import opened HsaSteps
  import opened HsaInvariant
  import opened HsaFrame
  import opened HsaPublish
  import opened HsaRecordSteps
  import HsaLaunchSteps
  import HsaWaitSteps

  /** A step of one queue that publishes at most and leaves the events alone. */
  lemma AssembleQuiet(s: State, q: nat, q': Queue)
    requires Inv(s) && q < |s.queues|
    requires QueueOk(q, q', s.events)
    requires HolderOk(Put(s, q, q', s.events), q)
    requires q'.progressWaits == s.queues[q].progressWaits && q'.inFlight == s.queues[q].inFlight
    requires NoLaunchOn(s, q) || LaunchKeeps(s.queues[q], q', s.events)
    requires LockKeeps(s.queues[q], q', None)
    ensures Inv(Put(s, q, q', s.events))
  {
    hide QueueOk, HolderOk, LaunchKeeps, LockKeeps, Evolves, OthersKeep, ValidEvents, Cold, InFlightOk, ProgressOk,
      NoLaunchOn, Inv;
    HsaLaunchSteps.SameEvents(s, q);
    NobodyWaits(s, q, q', s.events);
    assert Cold(s, None, q, {}) by { NothingHot(s, q); }
    AssembleHot(s, q, q', s.events, {});
  }

  // -------------------------------------------------------------------- begin

  /** The signals a synchronization collected: every pending dispatch, every pending
      event that has not completed. */
  ghost predicate Collects(q: Queue, signals: seq<Signal>) {
    forall x :: x in signals ==>
      match x
      case DispatchSignal(h) => h in Signals(q.pendingDispatches)
      case SyncSignal(_) => false
      case EventSignal(e) => e in q.pendingEvents
  }

  function SyncBegun(q: Queue, signals: seq<Signal>): Queue {
    q.(syncValues := q.syncValues + [Chunks(|signals|)],
       holder := BySync(|q.syncValues|, signals, Signals(q.pendingDispatches)))
  }

  lemma BeginSyncSide(q: Queue, signals: seq<Signal>)
    requires SyncSide(q) && q.holder == Unlocked && Collects(q, signals)
    requires DispatchesOk(q.gpu.log, q.gpu.done, q.dispatchValues, q.pendingDispatches)
    ensures SyncSide(SyncBegun(q, signals))
  {
  }

  lemma SyncBegunOk(qi: nat, q: Queue, events: Events, signals: seq<Signal>)
    requires QueueOk(qi, q, events) && q.holder == Unlocked && Collects(q, signals)
    ensures QueueOk(qi, SyncBegun(q, signals), events)
  {
    hide LogOk, IsRange, DispatchesOk, DeferredOk, ArmedOk, WaitsOk, BarriersOk, RetireDispatchesOk, NamesOk,
      CountsOk, SyncSide, EventSide, Collects;
    var q' := SyncBegun(q, signals);
    BeginSyncSide(q, signals);
    assert SignalBag(q') == SignalBag(q) && KernargBag(q') == KernargBag(q);
    assert EventSide(qi, q', events) by { HsaWaitSteps.SameEventSide(qi, q, q', events); }
    forall i | 0 <= i < |q.pendingBarriers| ensures RetireMarkerOk(qi, events, q'.holder, q.pendingBarriers[i]) {
      assert RetireMarkerOk(qi, events, q.holder, q.pendingBarriers[i]);
    }
  }

  lemma KeepSyncBegin(s: State, q: nat, signals: seq<Signal>)
    requires Inv(s) && CanSyncBegin(s, q, signals)
    ensures Inv(DoSyncBegin(s, q, signals))
  {
    hide QueueOk, LaunchKeeps, EventGood, LaunchGood;
    var x := s.queues[q];
    var x' := SyncBegun(x, signals);
    assert QueueGood(s, q);
    SyncBegunOk(q, x, s.events, signals);
    PublishKeepsLaunches(x, x', s.events);
    AssembleQuiet(s, q, x');
  }

  // ------------------------------------------------------------------- packets

  /** A synchronization packet completes one more count of its signal. */
  lemma GrowSyncValues(log: Log, done: set<nat>, values: seq<nat>, holder: Holder, p: Packet, holder': Holder)
    requires SyncOk(log, done, values, holder) && |log| !in done
    requires holder.BySync? && holder.signals != [] && CompletesSync(p, holder.completion)
    requires holder' == holder.(signals := Rest(holder.signals))
    ensures SyncOk(log + [p], done, values, holder')
  {
    forall c: nat
      ensures CompletesSync(p, c) ==> |Undone(log + [p], done, c)| == |Undone(log, done, c)| + 1
      ensures !CompletesSync(p, c) ==> Undone(log + [p], done, c) == Undone(log, done, c)
    {
      GrowUndone(log, done, p, c);
    }
    assert Chunks(|holder.signals|) == 1 + Chunks(|Rest(holder.signals)|);
  }

  lemma GrowSyncDeps(log: Log, done: set<nat>, pd: seq<PendingDispatch>, pe: seq<nat>, syncs: seq<PendingSync>,
                     holder: Holder, p: Packet, holder': Holder)
    requires SyncDepsOk(log, done, pd, syncs, holder) && SyncHolderOk(|log|, pd, pe, holder)
    requires holder.BySync? && p == BarrierAnd(Head(holder.signals), Some(SyncSignal(holder.completion)))
    requires holder' == holder.(signals := Rest(holder.signals))
    ensures SyncDepsOk(log + [p], done, pd, syncs, holder')
    ensures SyncHolderOk(|log| + 1, pd, pe, holder')
  {
    hide Pending;
    forall c: nat, h: nat | Registered(syncs, holder, c, h) ensures Registered(syncs, holder', c, h) {}
    forall h: nat, r: nat, m: nat | Pending(pd, h, r) && r <= m ensures Pending(pd, h, m) { LaterPending(pd, h, r, m); }
    forall x | x in Head(holder.signals) ensures x in holder.signals {}
    forall x | x in Rest(holder.signals) ensures x in holder.signals {}
    forall r: nat, h: nat | r < |log + [p]| && r !in done && (log + [p])[r].BarrierAnd?
      && DispatchSignal(h) in (log + [p])[r].deps
      ensures (log + [p])[r].completed.Some? && (log + [p])[r].completed.value.SyncSignal?
      ensures Registered(syncs, holder', (log + [p])[r].completed.value.handle, h) && Pending(pd, h, r)
    {
      if r == |log| {
        assert DispatchSignal(h) in holder.signals;
      }
    }
  }

  lemma LaterPending(pd: seq<PendingDispatch>, h: nat, r: nat, m: nat)
    requires Pending(pd, h, r) && r <= m
    ensures Pending(pd, h, m)
  {
  }

  lemma SyncBarrierOk(qi: nat, q: Queue, events: Events, n: nat)
    requires QueueOk(qi, q, events) && ValidEvents(events, n) && q.holder.BySync? && q.holder.signals != []
    ensures QueueOk(qi, PublishSync(q, q.holder.completion,
                                    Head(q.holder.signals)).(holder := q.holder.(signals := Rest(q.holder.signals))),
                    RetainAll(events, qi, EventsIn(Head(q.holder.signals))))
    ensures forall e :: e in EventsIn(Head(q.holder.signals)) ==> e < |events| && events[e].recording.None?
  {
    hide DispatchSide, BarrierSide, EventSide, RetainActive, RetainAll, SyncOk, SyncDepsOk, SyncHolderOk,
      EntryFits, ValidEvents;
    var h := q.holder;
    var p := BarrierAnd(Head(h.signals), Some(SyncSignal(h.completion)));
    var b := PendingBarrier(SyncSignal(h.completion), EventsIn(Head(h.signals)), |q.gpu.log|);
    var q' := PublishSync(q, h.completion, Head(h.signals)).(holder := h.(signals := Rest(h.signals)));
    assert |q.gpu.log| !in q.gpu.done by { LogIsOk(q); HsaLaunchSteps.NotDone(q.gpu); }
    assert h.completion < |q.syncValues| by { SyncHandle(q); }
    GrowSyncValues(q.gpu.log, q.gpu.done, q.syncValues, h, p, q'.holder);
    GrowSyncDeps(q.gpu.log, q.gpu.done, q.pendingDispatches, q.pendingEvents, q.pendingSyncs, h, p, q'.holder);
    SyncEntryFits(qi, q, events, n, b);
    AppendBarrierOk(qi, q, q', events, n, p, b);
  }

  lemma SyncHandle(q: Queue)
    requires SyncSide(q) && q.holder.BySync?
    ensures q.holder.completion < |q.syncValues|
  {
  }

  lemma SyncEntryFits(qi: nat, q: Queue, events: Events, n: nat, b: PendingBarrier)
    requires EventSide(qi, q, events) && ValidEvents(events, n) && SyncSide(q) && q.holder.BySync?
    requires b == PendingBarrier(SyncSignal(q.holder.completion), EventsIn(Head(q.holder.signals)), |q.gpu.log|)
    ensures EntryFits(qi, q, events, BarrierAnd(Head(q.holder.signals), Some(SyncSignal(q.holder.completion))), b)
    ensures forall e :: e in b.dependencies ==> e < |events| && events[e].recording.None?
  {
    forall e | e in b.dependencies ensures e < |events| && events[e].recording.None? {
      assert EventSignal(e) in q.holder.signals;
      assert MarkerOk(qi, q.gpu.log, q.gpu.done, events, e);
      assert EventOk(events[e]);
    }
  }

  lemma SyncHolderStays(s: State, q: nat)
    requires Inv(s) && CanSyncBarrier(s, q)
    ensures HolderOk(DoSyncBarrier(s, q), q)
  {
    hide QueueOk, EventGood, LaunchGood, RetainActive;
    assert QueueGood(s, q);
    var h := s.queues[q].holder;
    assert Chunks(|h.signals|) == 1 + Chunks(|Rest(h.signals)|);
  }

  lemma KeepSyncBarrier(s: State, q: nat)
    requires Inv(s) && CanSyncBarrier(s, q)
    ensures Inv(DoSyncBarrier(s, q))
  {
    hide DispatchSide, BarrierSide, SyncSide, EventSide, LaunchKeeps, OthersKeep, Evolves, ValidEvents, Cold,
      RetainAll, RetainActive;
    hide QueueGood, EventGood, LaunchGood, HolderOk, InFlightOk, ProgressOk;
    var x := s.queues[q];
    var h := x.holder;
    var deps := EventsIn(Head(h.signals));
    var s' := DoSyncBarrier(s, q);
    QueueIsOk(s, q);
    SyncBarrierOk(q, x, s.events, |s.queues|);
    RetainStep(q, s.events, deps, |s.queues|);
    HsaLaunchSteps.StillActive(x.active, deps);
    PublishKeepsLaunches(x, s'.queues[q], s'.events);
    NobodyWaits(s, q, s'.queues[q], s'.events);
    SyncHolderStays(s, q);
    assert Cold(s, None, q, {}) by { NothingHot(s, q); }
    AssembleHot(s, q, s'.queues[q], s'.events, {});
  }

  // ----------------------------------------------------------------------- end

  lemma SyncEnded(qi: nat, q: Queue, events: Events, q': Queue)
    requires QueueOk(qi, q, events) && q.holder.BySync? && q.holder.signals == []
    requires q' == q.(pendingSyncs := q.pendingSyncs + [PendingSync(q.holder.completion, q.holder.dispatchDeps)],
                      synchronizers := q.synchronizers + 1, holder := Unlocked)
    ensures QueueOk(qi, q', events)
  {
    hide LogOk, IsRange, DispatchesOk, DeferredOk, ArmedOk, WaitsOk, BarriersOk, RetireDispatchesOk, RetireSyncsOk,
      NamesOk, CountsOk, EventSide, Pending;
    assert SignalBag(q') == SignalBag(q) && KernargBag(q') == KernargBag(q);
    assert EventSide(qi, q', events) by { HsaWaitSteps.SameEventSide(qi, q, q', events); }
    forall i | 0 <= i < |q.pendingBarriers| ensures RetireMarkerOk(qi, events, Unlocked, q.pendingBarriers[i]) {
      assert RetireMarkerOk(qi, events, q.holder, q.pendingBarriers[i]);
    }
    forall c: nat, h: nat | Registered(q.pendingSyncs, q.holder, c, h)
      ensures Registered(q'.pendingSyncs, Unlocked, c, h) {
      if i :| 0 <= i < |q.pendingSyncs| && q.pendingSyncs[i].completion == c && h in q.pendingSyncs[i].dispatchDeps {
        assert q'.pendingSyncs[i] == q.pendingSyncs[i];
      } else {
        assert q'.pendingSyncs[|q.pendingSyncs|] == PendingSync(q.holder.completion, q.holder.dispatchDeps);
      }
    }
  }

  lemma KeepSyncEnd(s: State, q: nat)
    requires Inv(s) && CanSyncEnd(s, q)
    ensures Inv(DoSyncEnd(s, q))
  {
    hide QueueOk, LaunchKeeps, EventGood, LaunchGood;
    var x := s.queues[q];
    var x' := DoSyncEnd(s, q).queues[q];
    assert QueueGood(s, q);
    SyncEnded(q, x, s.events, x');
    PublishKeepsLaunches(x, x', s.events);
    AssembleQuiet(s, q, x');
  }

  // --------------------------------------------------------------- tail markers

  lemma TailSyncSide(q: Queue, q': Queue)
    requires SyncSide(q) && q.holder == Unlocked && LogOk(q.gpu)
    requires q' == PublishSync(q, |q.syncValues|, []).(syncValues := q.syncValues + [1],
                     pendingSyncs := q.pendingSyncs + [PendingSync(|q.syncValues|, [])],
                       synchronizers := q.synchronizers + 1)
    ensures SyncSide(q')
  {
    hide LogOk, Pending, RetainActive;
    var c := |q.syncValues|;
    var log, done := q.gpu.log, q.gpu.done;
    var p := BarrierAnd([], Some(SyncSignal(c)));
    HsaLaunchSteps.NotDone(q.gpu);
    assert Undone(log, done, c) == {};
    forall d: nat
      ensures CompletesSync(p, d) ==> |Undone(log + [p], done, d)| == |Undone(log, done, d)| + 1
      ensures !CompletesSync(p, d) ==> Undone(log + [p], done, d) == Undone(log, done, d)
    {
      GrowUndone(log, done, p, d);
    }
    forall d: nat, h: nat | Registered(q.pendingSyncs, q.holder, d, h)
      ensures Registered(q'.pendingSyncs, q'.holder, d, h) {
      var i :| 0 <= i < |q.pendingSyncs| && q.pendingSyncs[i].completion == d && h in q.pendingSyncs[i].dispatchDeps;
      assert q'.pendingSyncs[i] == q.pendingSyncs[i];
    }
  }

  lemma TailOk(qi: nat, q: Queue, events: Events, n: nat, q': Queue)
    requires QueueOk(qi, q, events) && q.holder == Unlocked && ValidEvents(events, n)
    requires q' == PublishSync(q, |q.syncValues|, []).(syncValues := q.syncValues + [1],
                     pendingSyncs := q.pendingSyncs + [PendingSync(|q.syncValues|, [])],
                       synchronizers := q.synchronizers + 1)
    ensures QueueOk(qi, q', RetainAll(events, qi, []))
  {
    hide DispatchSide, BarrierSide, EventSide, RetainActive, RetainAll, SyncSide, ValidEvents;
    LogIsOk(q);
    TailSyncSide(q, q');
    var c := |q.syncValues|;
    var b := PendingBarrier(SyncSignal(c), [], |q.gpu.log|);
    var p := BarrierAnd([], Some(SyncSignal(c)));
    assert EntryFits(qi, q, events, p, b);
    AppendBarrierOk(qi, q, q', events, n, p, b);
  }

  lemma KeepTailMarker(s: State, q: nat)
    requires Inv(s) && CanTailMarker(s, q)
    ensures Inv(DoTailMarker(s, q))
  {
    hide DispatchSide, BarrierSide, SyncSide, EventSide, LaunchKeeps, EventGood, LaunchGood, RetainActive, ValidEvents;
    var x := s.queues[q];
    var x' := DoTailMarker(s, q).queues[q];
    QueueIsOk(s, q);
    assert QueueGood(s, q);
    TailOk(q, x, s.events, |s.queues|, x');
    assert RetainAll(s.events, q, []) == s.events;
    HsaLaunchSteps.StillActive(x.active, []);
    PublishKeepsLaunches(x, x', s.events);
    AssembleQuiet(s, q, x');
  }

  // -------------------------------------------------------------------- finish

  lemma FinishSyncDeps(q: Queue, i: nat)
    requires SyncSide(q) && q.holder == Unlocked && i < |q.pendingSyncs|
    requires q.pendingSyncs[i].completion < |q.syncValues| && q.syncValues[q.pendingSyncs[i].completion] == 0
    ensures SyncDepsOk(q.gpu.log, q.gpu.done, q.pendingDispatches, RemoveAt(q.pendingSyncs, i), q.holder)
  {
    var log, done := q.gpu.log, q.gpu.done;
    var left := RemoveAt(q.pendingSyncs, i);
    forall p: nat, h: nat | p < |log| && p !in done && log[p].BarrierAnd? && DispatchSignal(h) in log[p].deps
      ensures Registered(left, q.holder, log[p].completed.value.handle, h)
    {
      var c := log[p].completed.value.handle;
      assert CompletesSync(log[p], c);
      assert p in Undone(log, done, c);
      assert Registered(q.pendingSyncs, q.holder, c, h);
      var k :| 0 <= k < |q.pendingSyncs| && q.pendingSyncs[k].completion == c && h in q.pendingSyncs[k].dispatchDeps;
      assert k != i;
      assert left[if k < i then k else k - 1] == q.pendingSyncs[k];
    }
  }

  lemma SyncFinishedOk(qi: nat, q: Queue, events: Events, i: nat, n: nat)
    requires QueueOk(qi, q, events) && q.holder == Unlocked && i < |q.pendingSyncs|
    requires q.pendingSyncs[i].completion < |q.syncValues| && q.syncValues[q.pendingSyncs[i].completion] == 0
    ensures QueueOk(qi, q.(pendingSyncs := RemoveAt(q.pendingSyncs, i), synchronizers := n), events)
  {
    hide LogOk, IsRange, DispatchesOk, DeferredOk, ArmedOk, WaitsOk, BarrierSide, EventSide, SyncOk, SyncDepsOk;
    var q' := q.(pendingSyncs := RemoveAt(q.pendingSyncs, i), synchronizers := n);
    FinishSyncDeps(q, i);
    assert SignalBag(q') == SignalBag(q) && KernargBag(q') == KernargBag(q);
    assert EventSide(qi, q', events) by { HsaWaitSteps.SameEventSide(qi, q, q', events); }
    assert BarrierSide(qi, q', events) by { SameBarrierSide(qi, q, q', events); }
  }

  lemma SameBarrierSide(qi: nat, q: Queue, q': Queue, events: Events)
    requires BarrierSide(qi, q, events)
    requires q'.gpu == q.gpu && q'.pendingBarriers == q.pendingBarriers && q'.active == q.active
    requires q'.holder == q.holder
    requires q'.dispatchValues == q.dispatchValues && q'.pendingDispatches == q.pendingDispatches
    requires q'.deferred == q.deferred
    requires q'.syncValues == q.syncValues
    ensures BarrierSide(qi, q', events)
  {
  }

  lemma KeepSyncFinish(s: State, q: nat, i: nat)
    requires Inv(s) && CanSyncFinish(s, q, i)
    ensures Inv(DoSyncFinish(s, q, i))
  {
    hide QueueOk, LaunchKeeps, EventGood, LaunchGood;
    var x := s.queues[q];
    var x' := DoSyncFinish(s, q, i).queues[q];
    assert QueueGood(s, q);
    SyncFinishedOk(q, x, s.events, i, x'.synchronizers);
    PublishKeepsLaunches(x, x', s.events);
    AssembleQuiet(s, q, x');
  }

  // ------------------------------------------------------------------- destroy

  lemma Relabelled(qi: nat, q: Queue, events: Events, l: Lifecycle, n: nat)
    requires QueueOk(qi, q, events)
    ensures QueueOk(qi, q.(lifecycle := l, synchronizers := n), events)
  {
  }

  lemma KeepDestroyBegin(s: State, q: nat)
    requires Inv(s) && CanDestroyBegin(s, q)
    ensures Inv(DoDestroyBegin(s, q))
  {
    hide QueueOk, EventGood, LaunchGood;
    var x := s.queues[q];
    assert QueueGood(s, q);
    Relabelled(q, x, s.events, Destroying, x.synchronizers);
    AssembleQuiet(s, q, x.(lifecycle := Destroying));
  }

  lemma KeepDestroyPin(s: State, q: nat)
    requires Inv(s) && CanDestroyPin(s, q)
    ensures Inv(DoDestroyPin(s, q))
  {
    hide QueueOk, EventGood, LaunchGood, LaunchKeeps;
    var x := s.queues[q];
    assert QueueGood(s, q);
    Relabelled(q, x, s.events, DestroyPinned, 1);
    AssembleQuiet(s, q, x.(lifecycle := DestroyPinned, synchronizers := 1));
  }

  /** Once a queue is pinned for destruction no launch is left on it. */
  lemma PinnedHasNoLaunch(s: State, q: nat)
    requires Inv(s) && q < |s.queues| && (s.queues[q].lifecycle == DestroyPinned || s.queues[q].lifecycle == Destroyed)
    ensures NoLaunchOn(s, q)
  {
  }

  lemma KeepDestroyAbandon(s: State, q: nat)
    requires Inv(s) && CanDestroyAbandon(s, q)
    ensures Inv(DoDestroyAbandon(s, q))
  {
    hide QueueOk, EventGood, LaunchGood, LaunchKeeps;
    var x := s.queues[q];
    assert QueueGood(s, q);
    PinnedHasNoLaunch(s, q);
    Relabelled(q, x, s.events, Live, Decrement(x.synchronizers));
    AssembleQuiet(s, q, x.(lifecycle := Live, synchronizers := Decrement(x.synchronizers)));
  }

  lemma KeepDestroyFinish(s: State, q: nat)
    requires Inv(s) && CanDestroyFinish(s, q)
    ensures Inv(DoDestroyFinish(s, q))
  {
    hide QueueOk, EventGood, LaunchGood, LaunchKeeps;
    var x := s.queues[q];
    assert QueueGood(s, q);
    PinnedHasNoLaunch(s, q);
    Relabelled(q, x, s.events, Destroyed, 0);
    AssembleQuiet(s, q, x.(lifecycle := Destroyed, synchronizers := 0));
  }
}
