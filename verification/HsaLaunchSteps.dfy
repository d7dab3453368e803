/** A launch keeps the invariant from the moment it collects its dependencies to the
    moment its dispatch is published. */
module HsaLaunchSteps {
  import opened Common
  import opened HsaState
  import opened HsaSteps
  import opened HsaInvariant
  import opened HsaFrame
  import opened HsaPublish
  import HsaReapSteps
  import HsaWaitSteps

  // ---------------------------------------------------------------- assembling

  function Act(s: State, q: nat, q': Queue, events': Events, launches': map<nat, Launch>): State
    requires q < |s.queues|
  {
    State(s.queues[q := q'], events', launches', s.waits)
  }

  ghost predicate OthersSame(launches: map<nat, Launch>, launches': map<nat, Launch>, t: nat) {
    && (forall x :: x in launches' && x != t ==> x in launches && launches'[x] == launches[x])
    && (forall x :: x in launches && x != t ==> x in launches')
  }

  /** A step of launch t on queue q. */
  lemma AssembleAct(s: State, t: nat, q: nat, q': Queue, events': Events, launches': map<nat, Launch>)
    requires Inv(s) && q < |s.queues|
    requires t in s.launches ==> s.launches[t].queue == q
    requires OthersSame(s.launches, launches', t)
    requires QueueOk(q, q', events')
    requires HolderOk(Act(s, q, q', events', launches'), q) && InFlightOk(Act(s, q, q', events', launches'), q)
    requires q'.progressWaits == s.queues[q].progressWaits
    requires LaunchKeeps(s.queues[q], q', events')
    requires LockKeeps(s.queues[q], q', Some(t))
    requires Evolves(s.events, events', {}) && OthersKeep(q, s.events, events') && ValidEvents(events', |s.queues|)
    requires t in launches' ==> LaunchGood(Act(s, q, q', events', launches'), t)
    ensures Inv(Act(s, q, q', events', launches'))
  {
    hide QueueOk, OthersKeep, LaunchKeeps, LockKeeps, EventOk, LaunchOk;
    var s' := Act(s, q, q', events', launches');
    assert QueueGood(s, q);
    assert ProgressOk(s', q);
    Assemble(s, s', Some(t), q, {});
  }

  lemma SameEvents(s: State, q: nat)
    requires Inv(s)
    ensures Evolves(s.events, s.events, {}) && OthersKeep(q, s.events, s.events) && ValidEvents(s.events, |s.queues|)
  {
    AllEventsValid(s);
  }

  /** A step of launch t that leaves the events alone. */
  lemma AssembleQuietAct(s: State, t: nat, q: nat, q': Queue, launches': map<nat, Launch>)
    requires Inv(s) && q < |s.queues|
    requires t in s.launches ==> s.launches[t].queue == q
    requires OthersSame(s.launches, launches', t)
    requires QueueOk(q, q', s.events)
    requires HolderOk(Act(s, q, q', s.events, launches'), q) && InFlightOk(Act(s, q, q', s.events, launches'), q)
    requires q'.progressWaits == s.queues[q].progressWaits
    requires LaunchKeeps(s.queues[q], q', s.events)
    requires LockKeeps(s.queues[q], q', Some(t))
    requires t in launches' ==> LaunchGood(Act(s, q, q', s.events, launches'), t)
    ensures Inv(Act(s, q, q', s.events, launches'))
  {
    hide *;
    SameEvents(s, q);
    AssembleAct(s, t, q, q', s.events, launches');
  }

  // --------------------------------------------------------------- referenced events

  lemma FindDep(bs: seq<PendingBarrier>, e: nat) returns (i: nat)
    requires DepCount(bs, e) > 0
    ensures i < |bs| && e in bs[i].dependencies
  {
    if multiset(bs[|bs| - 1].dependencies)[e] > 0 {
      i := |bs| - 1;
    } else {
      i := FindDep(bs[..|bs| - 1], e);
    }
  }

  /** An event some pending barrier names has completed or is held back by it. */
  lemma ActiveIsBlocked(qi: nat, q: Queue, events: Events, e: nat)
    requires BarriersOk(q.gpu.log, q.gpu.done, events, q.pendingBarriers)
    requires CountsOk(qi, q.pendingBarriers, q.active, events)
    requires e in q.active
    ensures e < |events|
    ensures events[e].epoch in events[e].finished || Blocked(q.gpu.log, q.gpu.done, e, |q.gpu.log|)
  {
    assert DepCount(q.pendingBarriers, e) > 0;
    var i := FindDep(q.pendingBarriers, e);
    assert BarrierOk(q.gpu.log, q.gpu.done, events, q.pendingBarriers[i]);
  }

  /** A dependency that needs no barrier is finished or already held back. */
  lemma NoBarrierNeeded(qi: nat, q: Queue, events: Events, e: nat)
    requires BarriersOk(q.gpu.log, q.gpu.done, events, q.pendingBarriers)
    requires CountsOk(qi, q.pendingBarriers, q.active, events)
    requires e < |events| && EventOk(events[e]) && events[e].epoch > 0 && !NeedsBarrier(q, events, e)
    ensures events[e].epoch in events[e].finished || Blocked(q.gpu.log, q.gpu.done, e, |q.gpu.log|)
  {
    if e in q.active { ActiveIsBlocked(qi, q, events, e); }
  }

  // ----------------------------------------------------------------- collecting

  lemma CollectGuards(s: State, q: nat, explicit: seq<nat>, deps: seq<nat>, o: Occurrence)
    requires Inv(s) && q < |s.queues| && ValidDeps(s, explicit) && o in Awaits(s, explicit)
    requires forall e :: e in explicit && e !in deps ==>
      !s.events[e].pending || e in s.queues[q].active || s.events[e].signal == 0
    ensures Guarded(s.queues[q].gpu.log, s.queues[q].gpu.done, s.events, o, |s.queues[q].gpu.log|, deps)
  {
    hide LaunchGood;
    var x := s.queues[q];
    assert o.event in explicit && o.epoch == s.events[o.event].epoch;
    QueueIsOk(s, q);
    assert EventGood(s, o.event);
    if o.event !in deps && o.event in x.active { ActiveIsBlocked(q, x, s.events, o.event); }
  }

  lemma CollectedGood(s: State, t: nat, q: nat, l: Launch, x: Queue)
    requires Inv(s) && q < |s.queues| && l.queue == q && l.stage == Collected
    requires forall e :: e in l.deps ==> e < |s.events| && s.events[e].pending
    requires forall o :: o in l.awaits ==> Guarded(x.gpu.log, x.gpu.done, s.events, o, |x.gpu.log|, l.deps)
    requires x.holder != ByLaunch(t) && x.lifecycle == Live
    ensures LaunchOk(x, s.events, t, l)
  {
    forall e | e in l.deps ensures Pinned(s.events, e) { assert EventGood(s, e); }
  }

  lemma KeepLaunchCollect(s: State, t: nat, q: nat, explicit: seq<nat>, deps: seq<nat>)
    requires Inv(s) && CanLaunchCollect(s, t, q, explicit, deps)
    ensures Inv(DoLaunchCollect(s, t, q, explicit, deps))
  {
    hide QueueOk, LaunchOk, EventOk, Guarded, LaunchKeeps;
    var x := s.queues[q];
    var l := Launch(q, Awaits(s, explicit), deps, deps != [], false, false, Collected);
    assert QueueGood(s, q);
    forall o | o in l.awaits ensures Guarded(x.gpu.log, x.gpu.done, s.events, o, |x.gpu.log|, deps) {
      CollectGuards(s, q, explicit, deps, o);
    }
    CollectedGood(s, t, q, l, x);
    assert LaunchKeeps(x, x, s.events) by { PublishKeepsLaunches(x, x, s.events); }
    AssembleQuietAct(s, t, q, x, s.launches[t := l]);
    assert s.queues[q := x] == s.queues;
  }

  // ------------------------------------------------------------------ resources

  lemma SwapBag<T>(s: seq<T>, i: nat)
    requires i < |s|
    ensures multiset(s) == multiset(SwapRemove(s, i)) + multiset{s[i]}
  {
    var n := |s| - 1;
    if i < n {
      assert s == s[..i] + [s[i]] + s[i + 1..n] + [s[n]];
      assert SwapRemove(s, i) == s[..i] + [s[n]] + s[i + 1..n];
    } else {
      assert s == s[..i] + [s[i]];
    }
  }

  lemma TakeToken(pool: multiset<nat>, pending: multiset<nat>, deferred: multiset<nat>, flight: multiset<nat>, x: nat)
    ensures pool + pending + deferred + (flight + multiset{x}) == (pool + multiset{x}) + pending + deferred + flight
    ensures pool + pending + deferred + (flight + multiset{x}) == (pool + pending + deferred + flight) + multiset{x}
    ensures pool + (pending + multiset{x}) + deferred + flight == pool + pending + deferred + (flight + multiset{x})
  {
  }

  lemma OneMore(b: multiset<nat>, n: nat)
    requires IsRange(b, n)
    ensures IsRange(b + multiset{n}, n + 1)
  {
  }

  lemma AcquireArmed(q: Queue, t: nat, k: nat)
    requires k <= |q.kernargPool| && ArmedOk(q.dispatchValues, q.signalPool, q.inFlight)
    ensures ArmedOk(Acquire(q, t, k).dispatchValues, Acquire(q, t, k).signalPool, Acquire(q, t, k).inFlight)
    ensures Acquire(q, t, k).dispatchValues == if q.signalPool == [] then q.dispatchValues + [1] else q.dispatchValues
  {
    var q' := Acquire(q, t, k);
    var f := q'.inFlight[|q.inFlight|];
    if q.signalPool == [] {
      assert q'.dispatchValues[|q.dispatchValues|] == 1;
    } else {
      assert f.signal in q.signalPool;
      assert q'.dispatchValues == q.dispatchValues;
    }
    forall h | h in q'.signalPool ensures h < |q'.dispatchValues| && q'.dispatchValues[h] == 1 {
      assert h in q.signalPool;
    }
    forall x | x in q'.inFlight ensures x.signal < |q'.dispatchValues| && q'.dispatchValues[x.signal] == 1 {
      assert x == f || x in q.inFlight;
    }
  }

  lemma AcquireSignal(q: Queue, t: nat, k: nat)
    requires IsRange(SignalBag(q), |q.dispatchValues|) && k <= |q.kernargPool|
    ensures IsRange(SignalBag(Acquire(q, t, k)), if q.signalPool == [] then |q.dispatchValues| + 1
      else |q.dispatchValues|)
  {
    hide IsRange;
    var q' := Acquire(q, t, k);
    var f := q'.inFlight[|q.inFlight|];
    assert FlightSignals(q'.inFlight) == FlightSignals(q.inFlight) + [f.signal];
    TakeToken(multiset(q'.signalPool), multiset(Signals(q.pendingDispatches)), multiset(Signals(q.deferred)),
              multiset(FlightSignals(q.inFlight)), f.signal);
    if q.signalPool == [] {
      OneMore(SignalBag(q), |q.dispatchValues|);
    } else {
      assert q.signalPool == q'.signalPool + [f.signal];
      assert SignalBag(q') == SignalBag(q);
    }
  }

  lemma AcquireKernarg(q: Queue, t: nat, k: nat)
    requires IsRange(KernargBag(q), q.kernargs) && k <= |q.kernargPool|
    ensures IsRange(KernargBag(Acquire(q, t, k)), Acquire(q, t, k).kernargs)
  {
    hide IsRange;
    var q' := Acquire(q, t, k);
    var f := q'.inFlight[|q.inFlight|];
    assert FlightKernargs(q'.inFlight) == FlightKernargs(q.inFlight) + [f.kernarg];
    TakeToken(multiset(q'.kernargPool), multiset(Kernargs(q.pendingDispatches)), multiset(Kernargs(q.deferred)),
              multiset(FlightKernargs(q.inFlight)), f.kernarg);
    if k < |q.kernargPool| {
      SwapBag(q.kernargPool, k);
      assert KernargBag(q') == KernargBag(q);
    } else {
      OneMore(KernargBag(q), q.kernargs);
    }
  }

  lemma MoreValues(log: Log, done: set<nat>, values: seq<nat>, pd: seq<PendingDispatch>,
                   deferred: seq<PendingDispatch>, waits: seq<Signal>)
    requires DispatchesOk(log, done, values, pd) && DeferredOk(log, done, values, deferred, waits)
    ensures DispatchesOk(log, done, values + [1], pd) && DeferredOk(log, done, values + [1], deferred, waits)
  {
  }

  lemma MoreHandles(n: nat, pd: seq<PendingDispatch>, deferred: seq<PendingDispatch>, pb: seq<PendingBarrier>)
    requires RetireDispatchesOk(n, pd, deferred, pb)
    ensures RetireDispatchesOk(n + 1, pd, deferred, pb)
  {
  }

  lemma AcquireOk(qi: nat, q: Queue, events: Events, t: nat, k: nat)
    requires QueueOk(qi, q, events) && k <= |q.kernargPool|
    ensures QueueOk(qi, Acquire(q, t, k), events)
  {
    hide LogOk, IsRange, SignalBag, KernargBag, ArmedOk, DispatchesOk, DeferredOk, WaitsOk, RetireDispatchesOk,
      BarriersOk, RetireSyncsOk, RetireMarkersOk;
    hide NamesOk, CountsOk, SyncSide, EventSide;
    var q' := Acquire(q, t, k);
    AcquireArmed(q, t, k);
    AcquireSignal(q, t, k);
    AcquireKernarg(q, t, k);
    if q'.dispatchValues != q.dispatchValues {
      MoreValues(q.gpu.log, q.gpu.done, q.dispatchValues, q.pendingDispatches, q.deferred, q.progressWaits);
      MoreHandles(|q.dispatchValues|, q.pendingDispatches, q.deferred, q.pendingBarriers);
    }
    assert SyncSide(q') by { SameSyncSide(q, q'); }
    assert EventSide(qi, q', events) by { HsaWaitSteps.SameEventSide(qi, q, q', events); }
  }

  lemma SameSyncSide(q: Queue, q': Queue)
    requires SyncSide(q)
    requires q'.gpu == q.gpu && q'.syncValues == q.syncValues && q'.holder == q.holder
    requires q'.pendingSyncs == q.pendingSyncs
    requires q'.pendingDispatches == q.pendingDispatches && q'.pendingEvents == q.pendingEvents
    ensures SyncSide(q')
  {
  }

  lemma NewFlight(flights: seq<InFlight>, f: InFlight)
    requires OneFlightEach(flights) && forall x :: x in flights ==> x.thread != f.thread
    ensures OneFlightEach(flights + [f])
  {
  }

  // ------------------------------------------------------- the default-queue path

  lemma KeepDefaultCollect(s: State, t: nat, q: nat, explicit: seq<nat>, deps: seq<nat>, hasDeps: bool,
                           implicit: bool, k: nat)
    requires Inv(s) && CanDefaultCollect(s, t, q, explicit, deps, hasDeps, implicit, k)
    ensures Inv(DoDefaultCollect(s, t, q, explicit, deps, hasDeps, implicit, k))
  {
    hide QueueOk, LaunchOk, EventOk, Guarded, LaunchKeeps, LaunchGood;
    var x := s.queues[q];
    var x' := Acquire(x, t, k);
    var l := Launch(q, Awaits(s, explicit), deps, hasDeps, implicit, true, Collected);
    assert QueueGood(s, q);
    AcquireOk(q, x, s.events, t, k);
    forall o | o in l.awaits ensures Guarded(x.gpu.log, x.gpu.done, s.events, o, |x.gpu.log|, deps) {
      CollectGuards(s, q, explicit, deps, o);
    }
    CollectedGood(s, t, q, l, x');
    PublishKeepsLaunches(x, x', s.events);
    var launches' := s.launches[t := l];
    assert LaunchGood(Act(s, q, x', s.events, launches'), t) by { AtQueue(Act(s, q, x', s.events, launches'), t); }
    NewFlight(x.inFlight, x'.inFlight[|x.inFlight|]);
    AssembleQuietAct(s, t, q, x', launches');
  }

  lemma AtQueue(s: State, t: nat)
    requires t in s.launches && s.launches[t].queue < |s.queues|
    requires LaunchOk(s.queues[s.launches[t].queue], s.events, t, s.launches[t])
    ensures LaunchGood(s, t)
  {
  }

  // ------------------------------------------------------------------ the gate

  lemma ChunksGrow(m: nat, n: nat)
    requires m <= n
    ensures Chunks(m) <= Chunks(n)
  {
  }

  /** The launch takes the queue lock and keeps what it will publish reserved. */
  lemma LockForLaunch(s: State, t: nat, required: nat)
    requires Inv(s) && HasLaunch(s, t) && Free(s, s.launches[t].queue)
    requires s.launches[t].stage == Collected || s.launches[t].stage.Waiting?
    requires Chunks(Bound(LaunchQueue(s, t), s.events, s.launches[t])) + 1 <= required
    requires HasCapacity(LaunchQueue(s, t), required)
    ensures Inv(SetStage(SetQueue(s, s.launches[t].queue, LaunchQueue(s, t).(holder := ByLaunch(t))), t,
                         Ready(required)))
  {
    hide QueueOk, EventGood, LaunchKeeps, LaunchOk, Bound;
    var q := s.launches[t].queue;
    var x := s.queues[q];
    var x' := x.(holder := ByLaunch(t));
    var launches' := s.launches[t := s.launches[t].(stage := Ready(required))];
    assert QueueGood(s, q) && LaunchGood(s, t);
    ChangeHolder(q, x, s.events, ByLaunch(t));
    PublishKeepsLaunches(x, x', s.events);
    LockedGood(x, s.events, t, s.launches[t], required);
    AssembleQuietAct(s, t, q, x', launches');
  }

  lemma LockedGood(q: Queue, events: Events, t: nat, l: Launch, required: nat)
    requires LaunchOk(q, events, t, l) && (l.stage == Collected || l.stage.Waiting?)
    requires Chunks(Bound(q, events, l)) + 1 <= required && HasCapacity(q, required)
    ensures LaunchOk(q.(holder := ByLaunch(t)), events, t, l.(stage := Ready(required)))
  {
    hide Guarded, Pinned;
    SameFilter(q, q.(holder := ByLaunch(t)), events, l.deps);
  }

  lemma {:induction false} SameFilter(q: Queue, q': Queue, events: Events, deps: seq<nat>)
    requires q'.active == q.active
    ensures Filter(q', events, deps) == Filter(q, events, deps)
  {
    if deps != [] { SameFilter(q, q', events, deps[1..]); }
  }

  /** A launch changes stage without touching its queue. */
  lemma ChangeStage(s: State, t: nat, g: Stage)
    requires Inv(s) && HasLaunch(s, t)
    requires LaunchOk(LaunchQueue(s, t), s.events, t, s.launches[t].(stage := g))
    requires s.launches[t].stage.Scanning? || s.launches[t].stage.Registering? ==> g.Scanning? || g.Registering?
    ensures Inv(SetStage(s, t, g))
  {
    hide QueueOk, EventOk, LaunchKeeps, LaunchOk;
    var q := s.launches[t].queue;
    var x := s.queues[q];
    var launches' := s.launches[t := s.launches[t].(stage := g)];
    assert QueueGood(s, q);
    assert s.queues[q := x] == s.queues;
    PublishKeepsLaunches(x, x, s.events);
    AssembleQuietAct(s, t, q, x, launches');
  }

  lemma KeepLaunchGate(s: State, t: nat, n: nat)
    requires Inv(s) && CanLaunchGate(s, t, n)
    ensures Inv(DoLaunchGate(s, t, n))
  {
    hide QueueGood, EventGood, Guarded, Bound;
    var q := s.launches[t].queue;
    ChunksGrow(Bound(s.queues[q], s.events, s.launches[t]), n);
    if HasCapacity(s.queues[q], Chunks(n) + 1) {
      LockForLaunch(s, t, Chunks(n) + 1);
    } else {
      assert LaunchGood(s, t);
      assert Bound(s.queues[q], s.events, s.launches[t].(stage := Waiting(Chunks(n) + 1)))
        == Bound(s.queues[q], s.events, s.launches[t])
        by { BoundIgnoresStage(s.queues[q], s.events, s.launches[t], Waiting(Chunks(n) + 1)); }
      ChangeStage(s, t, Waiting(Chunks(n) + 1));
    }
  }

  lemma BoundIgnoresStage(q: Queue, events: Events, l: Launch, g: Stage)
    ensures Bound(q, events, l.(stage := g)) == Bound(q, events, l)
  {
  }

  lemma KeepLaunchResume(s: State, t: nat)
    requires Inv(s) && CanLaunchResume(s, t)
    ensures Inv(DoLaunchResume(s, t))
  {
    hide QueueGood, EventGood, Guarded, Bound;
    assert LaunchGood(s, t);
    LockForLaunch(s, t, s.launches[t].stage.required);
  }

  // ---------------------------------------------------------- acquiring, scanning

  lemma AcquiredGood(q: Queue, events: Events, t: nat, l: Launch, k: nat)
    requires LaunchOk(q, events, t, l) && l.stage.Ready? && k <= |q.kernargPool|
    ensures !l.direct ==> LaunchOk(Acquire(q, t, k), events, t, l.(stage := Scanning(l.deps, [])))
    ensures l.direct ==> LaunchOk(q, events, t, l.(stage := Registering(l.deps)))
  {
    hide Guarded, Pinned;
    SameFilter(q, Acquire(q, t, k), events, l.deps);
    assert Todo(l.(stage := Scanning(l.deps, []))) == l.deps;
  }

  lemma KeepLaunchAcquire(s: State, t: nat, k: nat)
    requires Inv(s) && CanLaunchAcquire(s, t, k)
    ensures Inv(DoLaunchAcquire(s, t, k))
  {
    hide QueueOk, EventGood, LaunchKeeps, LaunchOk;
    var q := s.launches[t].queue;
    var x := s.queues[q];
    var l := s.launches[t];
    assert LaunchGood(s, t) && QueueGood(s, q);
    AcquiredGood(x, s.events, t, l, k);
    if l.direct {
      ChangeStage(s, t, Registering(l.deps));
    } else {
      var x' := Acquire(x, t, k);
      AcquireOk(q, x, s.events, t, k);
      PublishKeepsLaunches(x, x', s.events);
      NewFlight(x.inFlight, x'.inFlight[|x.inFlight|]);
      AssembleQuietAct(s, t, q, x', s.launches[t := l.(stage := Scanning(l.deps, []))]);
    }
  }

  /** Dropping a dependency that needs no barrier keeps every awaited recording guarded. */
  lemma DropGuard(qi: nat, q: Queue, events: Events, o: Occurrence, e: nat, todo: seq<nat>, todo': seq<nat>)
    requires BarriersOk(q.gpu.log, q.gpu.done, events, q.pendingBarriers)
    requires CountsOk(qi, q.pendingBarriers, q.active, events)
    requires Guarded(q.gpu.log, q.gpu.done, events, o, |q.gpu.log|, todo)
    requires e < |events| && EventOk(events[e]) && events[e].epoch > 0 && !NeedsBarrier(q, events, e)
    requires forall x :: x in todo ==> x == e || x in todo'
    ensures Guarded(q.gpu.log, q.gpu.done, events, o, |q.gpu.log|, todo')
  {
    if o.event == e { NoBarrierNeeded(qi, q, events, e); }
  }

  lemma ScanGood(qi: nat, q: Queue, events: Events, t: nat, l: Launch)
    requires BarriersOk(q.gpu.log, q.gpu.done, events, q.pendingBarriers)
    requires CountsOk(qi, q.pendingBarriers, q.active, events)
    requires LaunchOk(q, events, t, l) && l.stage.Scanning? && l.stage.rest != []
    requires forall e :: 0 <= e < |events| ==> EventOk(events[e])
    ensures NeedsBarrier(q, events, l.stage.rest[0]) ==>
      LaunchOk(q, events, t, l.(stage := Scanning(l.stage.rest[1..], l.stage.found + [l.stage.rest[0]])))
    ensures !NeedsBarrier(q, events, l.stage.rest[0]) ==>
      LaunchOk(q, events, t, l.(stage := Scanning(l.stage.rest[1..], l.stage.found)))
  {
    var rest, found := l.stage.rest, l.stage.found;
    var e := rest[0];
    assert e in Todo(l);
    var l' := l.(stage := if NeedsBarrier(q, events, e) then Scanning(rest[1..], found + [e])
      else Scanning(rest[1..], found));
    assert forall x :: x in Todo(l) ==> x == e || x in Todo(l') by { assert rest == [e] + rest[1..]; }
    forall x | x in Todo(l') ensures x in l.deps { assert x in Todo(l); }
    assert NeedsBarrier(q, events, e) ==> e in Todo(l');
    forall o | o in l.awaits ensures Guarded(q.gpu.log, q.gpu.done, events, o, |q.gpu.log|, Todo(l')) {
      if !NeedsBarrier(q, events, e) { DropGuard(qi, q, events, o, e, Todo(l), Todo(l')); }
    }
  }

  lemma KeepLaunchScan(s: State, t: nat)
    requires Inv(s) && CanLaunchScan(s, t)
    ensures Inv(DoLaunchScan(s, t))
  {
    hide EventOk, Guarded, NeedsBarrier, Filter;
    var q := s.launches[t].queue;
    var l := s.launches[t];
    assert LaunchGood(s, t);
    if l.stage.rest == [] {
      assert Filter(s.queues[q], s.events, []) == [] by { NothingToScan(s.queues[q], s.events); }
      assert Todo(l) == l.stage.found;
      ChangeStage(s, t, Registering(l.stage.found));
    } else {
      QueueIsOk(s, q);
      ScanGood(q, s.queues[q], s.events, t, l);
      ChangeStage(s, t, DoLaunchScan(s, t).launches[t].stage);
    }
  }

  lemma {:induction false} NothingToScan(q: Queue, events: Events)
    ensures Filter(q, events, []) == []
  {
  }

  // ---------------------------------------------------------------- publishing

  /** A launch's own signal stands for nothing else. */
  lemma FlightAlone(q: Queue, i: nat)
    requires Conserved(q) && i < |q.inFlight| && q.inFlight[i].signal < |q.dispatchValues|
    ensures forall k :: 0 <= k < |q.pendingDispatches| ==> q.pendingDispatches[k].signal != q.inFlight[i].signal
    ensures forall d :: d in q.deferred ==> d.signal != q.inFlight[i].signal
  {
    var h := q.inFlight[i].signal;
    assert FlightSignals(q.inFlight)[i] in multiset(FlightSignals(q.inFlight));
    assert SignalBag(q)[h] == 1;
    forall k | 0 <= k < |q.pendingDispatches| ensures q.pendingDispatches[k].signal != h {
      assert Signals(q.pendingDispatches)[k] in multiset(Signals(q.pendingDispatches));
    }
    forall d | d in q.deferred ensures d.signal != h {
      var k :| 0 <= k < |q.deferred| && q.deferred[k] == d;
      assert Signals(q.deferred)[k] in multiset(Signals(q.deferred));
    }
  }

  lemma LaunchEntryFits(qi: nat, q: Queue, events: Events, i: nat, deps: seq<nat>)
    requires DispatchSide(q) && i < |q.inFlight|
    requires forall e :: e in deps ==> Pinned(events, e)
    ensures EntryFits(qi, q, events, BarrierAnd(EventSignals(deps), None),
                      PendingBarrier(DispatchSignal(q.inFlight[i].signal), deps, |q.gpu.log|))
  {
    assert q.inFlight[i] in q.inFlight;
    FlightAlone(q, i);
  }

  /** After the packet for the head of the list is published, the rest is still to do. */
  lemma PublishGuards(log: Log, done: set<nat>, events: Events, events': Events, o: Occurrence, todo: seq<nat>)
    requires Guarded(log, done, events, o, |log|, todo) && |log| !in done
    requires HsaReapSteps.SameButCounts(events, events')
    ensures Guarded(log + [BarrierAnd(EventSignals(Head(todo)), None)], done, events', o, |log| + 1, Rest(todo))
  {
  }

  lemma ChunkTaken(todo: seq<nat>)
    requires todo != []
    ensures Chunks(|todo|) == 1 + Chunks(|Rest(todo)|)
  {
  }

  lemma BarrierGuards(qi: nat, q: Queue, events: Events, l: Launch)
    requires forall o :: o in l.awaits ==> Guarded(q.gpu.log, q.gpu.done, events, o, |q.gpu.log|, Todo(l))
    requires l.stage.Registering? && LogOk(q.gpu)
    ensures forall o :: o in l.awaits ==>
      Guarded(q.gpu.log + [BarrierAnd(EventSignals(Head(l.stage.todo)), None)], q.gpu.done,
              RetainAll(events, qi, Head(l.stage.todo)), o, |q.gpu.log| + 1, Rest(l.stage.todo))
  {
    hide Guarded, LogOk;
    var todo := l.stage.todo;
    NotDone(q.gpu);
    RetainOnlyCounts(qi, events, Head(todo));
    forall o | o in l.awaits
      ensures Guarded(q.gpu.log + [BarrierAnd(EventSignals(Head(todo)), None)], q.gpu.done,
                      RetainAll(events, qi, Head(todo)), o, |q.gpu.log| + 1, Rest(todo))
    {
      PublishGuards(q.gpu.log, q.gpu.done, events, RetainAll(events, qi, Head(todo)), o, todo);
    }
  }

  lemma StillPinned(qi: nat, events: Events, deps: seq<nat>)
    ensures forall e: nat :: Pinned(events, e) ==> Pinned(RetainAll(events, qi, deps), e)
  {
  }

  lemma BarrierGood(qi: nat, q: Queue, events: Events, t: nat, l: Launch, retirement: Signal)
    requires LaunchOk(q, events, t, l) && l.stage.Registering? && l.stage.todo != [] && LogOk(q.gpu)
    ensures LaunchOk(PublishDependencies(q, retirement, Head(l.stage.todo)), RetainAll(events, qi, Head(l.stage.todo)),
                     t, l.(stage := Registering(Rest(l.stage.todo))))
  {
    hide Guarded, RetainActive, LogOk, RetainAll, Pinned, EventSignals, Bound;
    var todo := l.stage.todo;
    BarrierGuards(qi, q, events, l);
    StillPinned(qi, events, Head(todo));
    ChunkTaken(todo);
    forall e | e in Rest(todo) ensures e in l.deps { assert e in Todo(l); }
  }

  lemma NotDone(g: Gpu)
    requires LogOk(g)
    ensures |g.log| !in g.done
  {
  }

  lemma LaunchBarrierOk(s: State, t: nat, i: nat)
    requires Inv(s) && CanLaunchBarrier(s, t, i)
    ensures QueueOk(s.launches[t].queue, DoLaunchBarrier(s, t, i).queues[s.launches[t].queue],
                    DoLaunchBarrier(s, t, i).events)
    ensures Evolves(s.events, DoLaunchBarrier(s, t, i).events, {})
    ensures OthersKeep(s.launches[t].queue, s.events, DoLaunchBarrier(s, t, i).events)
    ensures ValidEvents(DoLaunchBarrier(s, t, i).events, |s.queues|)
  {
    hide DispatchSide, BarrierSide, SyncSide, EventSide, OthersKeep, Evolves, ValidEvents, EntryFits, RetainAll,
      RetainActive, EventOk, Reserved;
    hide Guarded, QueueGood, EventGood;
    var q := s.launches[t].queue;
    var x := s.queues[q];
    var l := s.launches[t];
    var deps := Head(l.stage.todo);
    assert LaunchGood(s, t);
    QueueIsOk(s, q);
    forall e | e in deps ensures Pinned(s.events, e) { assert e in Todo(l); }
    LaunchEntryFits(q, x, s.events, i, deps);
    PublishOk(q, x, s.events, |s.queues|, DispatchSignal(x.inFlight[i].signal), deps);
    RetainStep(q, s.events, deps, |s.queues|);
  }

  lemma LaunchBarrierGood(s: State, t: nat, i: nat)
    requires Inv(s) && CanLaunchBarrier(s, t, i)
    ensures LaunchGood(DoLaunchBarrier(s, t, i), t)
  {
    hide DispatchSide, BarrierSide, SyncSide, EventSide, LaunchOk, RetainAll, EventGood;
    var q := s.launches[t].queue;
    assert LaunchGood(s, t);
    QueueIsOk(s, q);
    LogIsOk(s.queues[q]);
    BarrierGood(q, s.queues[q], s.events, t, s.launches[t], DispatchSignal(s.queues[q].inFlight[i].signal));
  }

  lemma KeepLaunchBarrier(s: State, t: nat, i: nat)
    requires Inv(s) && CanLaunchBarrier(s, t, i)
    ensures Inv(DoLaunchBarrier(s, t, i))
  {
    hide QueueOk, LaunchOk, LaunchKeeps, OthersKeep, Evolves, ValidEvents, RetainAll, RetainActive, EventGood,
      LaunchGood;
    var q := s.launches[t].queue;
    var x := s.queues[q];
    var s' := DoLaunchBarrier(s, t, i);
    assert QueueGood(s, q);
    LaunchBarrierOk(s, t, i);
    LaunchBarrierGood(s, t, i);
    StillActive(x.active, Head(s.launches[t].stage.todo));
    PublishKeepsLaunches(x, s'.queues[q], s'.events);
    AssembleAct(s, t, q, s'.queues[q], s'.events, s'.launches);
  }

  lemma StillActive(active: map<nat, nat>, deps: seq<nat>)
    ensures forall e :: e in active ==> e in RetainActive(active, deps)
  {
  }

  // ----------------------------------------------------------------- dispatching

  lemma RemoveFlightBags(fs: seq<InFlight>, j: nat)
    requires j < |fs|
    ensures multiset(FlightSignals(fs)) == multiset(FlightSignals(RemoveAt(fs, j))) + multiset{fs[j].signal}
    ensures multiset(FlightKernargs(fs)) == multiset(FlightKernargs(RemoveAt(fs, j))) + multiset{fs[j].kernarg}
  {
    var r := RemoveAt(fs, j);
    assert FlightSignals(fs) == FlightSignals(fs)[..j] + [fs[j].signal] + FlightSignals(fs)[j + 1..];
    assert FlightSignals(r) == FlightSignals(fs)[..j] + FlightSignals(fs)[j + 1..];
    assert FlightKernargs(fs) == FlightKernargs(fs)[..j] + [fs[j].kernarg] + FlightKernargs(fs)[j + 1..];
    assert FlightKernargs(r) == FlightKernargs(fs)[..j] + FlightKernargs(fs)[j + 1..];
  }

  /** The queue after the dispatch of flight i is published. */
  function Dispatched(q: Queue, i: nat, bit: bool, awaits: seq<Occurrence>): Queue
    requires i < |q.inFlight|
  {
    var f := q.inFlight[i];
    Append(q, Dispatch(f.signal, bit, awaits))
    .(pendingDispatches := q.pendingDispatches + [PendingDispatch(f.signal, f.kernarg, |q.gpu.log|)],
      inFlight := RemoveAt(q.inFlight, i), holder := Unlocked)
  }

  lemma DispatchConserves(q: Queue, i: nat, bit: bool, awaits: seq<Occurrence>)
    requires Conserved(q) && i < |q.inFlight|
    ensures Conserved(Dispatched(q, i, bit, awaits))
  {
    hide IsRange;
    var q' := Dispatched(q, i, bit, awaits);
    var f := q.inFlight[i];
    RemoveFlightBags(q.inFlight, i);
    assert Signals(q'.pendingDispatches) == Signals(q.pendingDispatches) + [f.signal];
    assert Kernargs(q'.pendingDispatches) == Kernargs(q.pendingDispatches) + [f.kernarg];
    TakeToken(multiset(q.signalPool), multiset(Signals(q.pendingDispatches)), multiset(Signals(q.deferred)),
              multiset(FlightSignals(q'.inFlight)), f.signal);
    TakeToken(multiset(q.kernargPool), multiset(Kernargs(q.pendingDispatches)), multiset(Kernargs(q.deferred)),
              multiset(FlightKernargs(q'.inFlight)), f.kernarg);
    assert SignalBag(q') == SignalBag(q);
    assert KernargBag(q') == KernargBag(q);
  }

  lemma DispatchEntries(log: Log, done: set<nat>, values: seq<nat>, pd: seq<PendingDispatch>, p: Packet,
                        d: PendingDispatch)
    requires DispatchesOk(log, done, values, pd)
    requires p.Dispatch? && p.completion == d.signal && d.pid == |log| && |log| !in done
    requires d.signal < |values| && values[d.signal] == 1
    requires pd != [] ==> p.barrierBit
    ensures DispatchesOk(log + [p], done, values, pd + [d])
  {
  }

  lemma DispatchDispatchSide(q: Queue, i: nat, bit: bool, awaits: seq<Occurrence>)
    requires DispatchSide(q) && i < |q.inFlight| && (q.pendingDispatches != [] ==> bit)
    ensures DispatchSide(Dispatched(q, i, bit, awaits))
  {
    hide LogOk, Conserved, DispatchesOk, DeferredOk;
    var q' := Dispatched(q, i, bit, awaits);
    var f := q.inFlight[i];
    assert f in q.inFlight;
    var p := Dispatch(f.signal, bit, awaits);
    NotDone(q.gpu);
    DispatchConserves(q, i, bit, awaits);
    GrowLog(q.gpu, p);
    GrowEntries(q.gpu.log, q.gpu.done, q.dispatchValues, q.pendingDispatches, q.deferred, q.progressWaits, p);
    DispatchEntries(q.gpu.log, q.gpu.done, q.dispatchValues, q.pendingDispatches, p,
                    q'.pendingDispatches[|q.pendingDispatches|]);
    assert Signals(q'.pendingDispatches) == Signals(q.pendingDispatches) + [f.signal];
  }

  lemma DispatchRetirements(q: Queue, events: Events, d: PendingDispatch)
    requires BarriersOk(q.gpu.log, q.gpu.done, events, q.pendingBarriers) && d.pid == |q.gpu.log|
    requires RetireDispatchesOk(|q.dispatchValues|, q.pendingDispatches, q.deferred, q.pendingBarriers)
    ensures RetireDispatchesOk(|q.dispatchValues|, q.pendingDispatches + [d], q.deferred, q.pendingBarriers)
  {
  }

  lemma GrowNamesPlain(log: Log, done: set<nat>, pb: seq<PendingBarrier>, p: Packet)
    requires NamesOk(log, done, pb) && p.Dispatch?
    ensures NamesOk(log + [p], done, pb)
  {
  }

  lemma DispatchOk(qi: nat, q: Queue, events: Events, i: nat, bit: bool, awaits: seq<Occurrence>)
    requires QueueOk(qi, q, events) && i < |q.inFlight| && (q.pendingDispatches != [] ==> bit)
    requires q.holder.ByLaunch?
    requires forall o :: o in awaits ==> Guarded(q.gpu.log, q.gpu.done, events, o, |q.gpu.log|, [])
    ensures QueueOk(qi, Dispatched(q, i, bit, awaits), events)
  {
    hide DispatchSide, BarriersOk, RetireDispatchesOk, RetireSyncsOk, RetireMarkerOk, NamesOk, CountsOk, SyncOk,
      SyncDepsOk, EventSide, Guarded;
    var q' := Dispatched(q, i, bit, awaits);
    var d := q'.pendingDispatches[|q.pendingDispatches|];
    var p := Dispatch(q.inFlight[i].signal, bit, awaits);
    assert |q.gpu.log| !in q.gpu.done by { LogIsOk(q); NotDone(q.gpu); }
    DispatchDispatchSide(q, i, bit, awaits);
    DispatchRetirements(q, events, d);
    GrowBarriers(q.gpu.log, q.gpu.done, events, q.pendingBarriers, |q.syncValues|, p);
    GrowNamesPlain(q.gpu.log, q.gpu.done, q.pendingBarriers, p);
    GrowPlainSync(q.gpu.log, q.gpu.done, q.syncValues, q.pendingDispatches, q'.pendingDispatches, q.pendingSyncs,
                  q.holder, Unlocked, p);
    assert d.pid == |q.gpu.log|;
    AppendEventSide(qi, q, q', events, p);
    forall k | 0 <= k < |q.pendingBarriers| ensures RetireMarkerOk(qi, events, Unlocked, q.pendingBarriers[k]) {
      assert RetireMarkerOk(qi, events, q.holder, q.pendingBarriers[k]);
      ReleaseLaunchLock(qi, events, q.holder, q.pendingBarriers[k]);
    }
  }

  lemma ReleaseLaunchLock(qi: nat, events: Events, holder: Holder, b: PendingBarrier)
    requires RetireMarkerOk(qi, events, holder, b) && holder.ByLaunch?
    ensures RetireMarkerOk(qi, events, Unlocked, b)
  {
  }

  /** The thread's flight was its only one. */
  lemma FlightGone(flights: seq<InFlight>, i: nat)
    requires OneFlightEach(flights) && i < |flights|
    ensures OneFlightEach(RemoveAt(flights, i))
    ensures forall f :: f in RemoveAt(flights, i) ==> f.thread != flights[i].thread
  {
  }

  lemma DispatchReady(s: State, t: nat)
    requires Inv(s) && HasLaunch(s, t) && s.launches[t].stage == Registering([])
    ensures forall o :: o in s.launches[t].awaits ==>
      Guarded(LaunchQueue(s, t).gpu.log, LaunchQueue(s, t).gpu.done, s.events, o, |LaunchQueue(s, t).gpu.log|, [])
  {
  }

  lemma KeepLaunchDispatch(s: State, t: nat, i: nat)
    requires Inv(s) && CanLaunchDispatch(s, t, i)
    ensures Inv(DoLaunchDispatch(s, t, i))
  {
    hide QueueOk, LaunchKeeps, Guarded, EventGood, LaunchGood;
    var l := s.launches[t];
    var q := l.queue;
    var x := s.queues[q];
    var bit := x.pendingDispatches != [] || (if l.implicit then x.pendingBarriers != [] else l.hasDeps);
    var x' := Dispatched(x, i, bit, l.awaits);
    assert QueueGood(s, q);
    DispatchReady(s, t);
    DispatchOk(q, x, s.events, i, bit, l.awaits);
    FlightGone(x.inFlight, i);
    PublishKeepsLaunches(x, x', s.events);
    AssembleQuietAct(s, t, q, x', s.launches - {t});
  }

  // -------------------------------------------------------------------- failing

  /** The queue after a failed launch gives its resources back. */
  function Returned(q: Queue, i: nat, holder: Holder): Queue
    requires i < |q.inFlight|
  {
    q.(signalPool := q.signalPool + [q.inFlight[i].signal],
       kernargPool := q.kernargPool + [q.inFlight[i].kernarg],
       inFlight := RemoveAt(q.inFlight, i), holder := holder)
  }

  lemma ReturnConserves(q: Queue, i: nat, holder: Holder)
    requires Conserved(q) && i < |q.inFlight|
    ensures Conserved(Returned(q, i, holder))
  {
    hide IsRange;
    var q' := Returned(q, i, holder);
    var f := q.inFlight[i];
    RemoveFlightBags(q.inFlight, i);
    TakeToken(multiset(q.signalPool), multiset(Signals(q.pendingDispatches)), multiset(Signals(q.deferred)),
              multiset(FlightSignals(q'.inFlight)), f.signal);
    TakeToken(multiset(q.kernargPool), multiset(Kernargs(q.pendingDispatches)), multiset(Kernargs(q.deferred)),
              multiset(FlightKernargs(q'.inFlight)), f.kernarg);
    assert SignalBag(q') == SignalBag(q);
    assert KernargBag(q') == KernargBag(q);
  }

  lemma ReturnOk(qi: nat, q: Queue, events: Events, i: nat, holder: Holder)
    requires QueueOk(qi, q, events) && i < |q.inFlight| && holder == q.holder
    ensures QueueOk(qi, Returned(q, i, holder), events)
  {
    hide LogOk, Conserved, DispatchesOk, DeferredOk, WaitsOk, BarriersOk, RetireDispatchesOk, RetireSyncsOk,
      RetireMarkersOk, NamesOk, CountsOk, SyncSide, EventSide;
    var q' := Returned(q, i, holder);
    assert q.inFlight[i] in q.inFlight;
    ReturnConserves(q, i, holder);
    assert SyncSide(q') by { SameSyncSide(q, q'); }
    assert EventSide(qi, q', events) by { HsaWaitSteps.SameEventSide(qi, q, q', events); }
  }

  lemma KeepLaunchFail(s: State, t: nat, i: nat)
    requires Inv(s) && CanLaunchFail(s, t, i)
    ensures Inv(DoLaunchFail(s, t, i))
  {
    hide QueueOk, LaunchKeeps, EventOk, LaunchOk;
    var q := s.launches[t].queue;
    var x := s.queues[q];
    var x' := Returned(x, i, Unlocked);
    assert QueueGood(s, q);
    ReturnOk(q, x, s.events, i, x.holder);
    ChangeHolder(q, Returned(x, i, x.holder), s.events, Unlocked);
    FlightGone(x.inFlight, i);
    PublishKeepsLaunches(x, x', s.events);
    AssembleQuietAct(s, t, q, x', s.launches - {t});
  }

  lemma KeepLaunchAbandon(s: State, t: nat)
    requires Inv(s) && CanLaunchAbandon(s, t)
    ensures Inv(DoLaunchAbandon(s, t))
  {
    hide QueueOk, LaunchKeeps, EventOk, LaunchOk;
    var q := s.launches[t].queue;
    var x := s.queues[q];
    var x' := x.(holder := Unlocked);
    assert QueueGood(s, q);
    ChangeHolder(q, x, s.events, Unlocked);
    PublishKeepsLaunches(x, x', s.events);
    AssembleQuietAct(s, t, q, x', s.launches - {t});
  }
}
