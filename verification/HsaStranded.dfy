/** Retirement is safe but not always live.  A completion signal can go back to the pool,
    armed, while a barrier still retires on it: when a dispatch completes between the
    barrier pass and the dispatch pass of a reap, when the last waiter on a deferred
    dispatch leaves, and when a launch fails after publishing barriers.  From then on the
    barrier looks unfinished until some later launch happens to reuse that signal. */
module HsaStranded {
  import opened Common
  import opened HsaState
  import opened HsaSteps
  import opened HsaInvariant
  import opened HsaFrame
  import opened HsaAccounting
  import opened HsaRuns
  import HsaReapSteps
  import HsaSafety
  import HsaSyncSteps

  /** The barrier's retirement signal is back in the pool, armed. */
  ghost predicate StuckOn(q: Queue, b: PendingBarrier) {
    b in q.pendingBarriers && b.retirement.DispatchSignal? && b.retirement.handle in q.signalPool
  }

  ghost predicate Stuck(q: Queue) {
    exists b :: StuckOn(q, b)
  }

  // ------------------------------------------------------------- the exact condition

  /** The step pools a signal that a pending barrier retires on. */
  ghost predicate PoolsRetirement(q: Queue, q': Queue) {
    exists h :: h in q'.signalPool && h !in q.signalPool && RetiresOn(q, DispatchSignal(h))
  }

  lemma StuckIff(q: Queue, q': Queue)
    requires !Stuck(q) && q'.pendingBarriers == q.pendingBarriers
    ensures Stuck(q') <==> PoolsRetirement(q, q')
  {
    if Stuck(q') {
      var b :| StuckOn(q', b);
      assert !StuckOn(q, b);
      var i :| 0 <= i < |q.pendingBarriers| && q.pendingBarriers[i] == b;
      assert RetiresOn(q, DispatchSignal(b.retirement.handle));
    }
    if PoolsRetirement(q, q') {
      var h :| h in q'.signalPool && h !in q.signalPool && RetiresOn(q, DispatchSignal(h));
      var i :| 0 <= i < |q.pendingBarriers| && q.pendingBarriers[i].retirement == DispatchSignal(h);
      assert StuckOn(q', q.pendingBarriers[i]);
    }
  }

  /** Only `h` enters the pool. */
  lemma StuckByOne(q: Queue, q': Queue, h: nat)
    requires !Stuck(q) && q'.pendingBarriers == q.pendingBarriers && q'.signalPool == q.signalPool + [h]
    requires h !in q.signalPool
    ensures Stuck(q') <==> RetiresOn(q, DispatchSignal(h))
  {
    hide RetiresOn, Stuck;
    StuckIff(q, q');
    assert q'.signalPool[|q.signalPool|] == h;
  }

  /** Nothing enters the pool, and no new barrier retires on a pooled signal. */
  ghost predicate Calm(q: Queue, q': Queue) {
    && (forall h :: h in q'.signalPool ==> h in q.signalPool)
    && (forall b :: b in q'.pendingBarriers && b !in q.pendingBarriers && b.retirement.DispatchSignal? ==>
          b.retirement.handle !in q'.signalPool)
  }

  lemma CalmKeeps(q: Queue, q': Queue)
    requires !Stuck(q) && Calm(q, q')
    ensures !Stuck(q')
  {
    forall b ensures !StuckOn(q', b) {
      assert !StuckOn(q, b);
    }
  }

  lemma CalmSame(q: Queue, q': Queue)
    requires q'.signalPool == q.signalPool && q'.pendingBarriers == q.pendingBarriers
    ensures Calm(q, q')
  {
  }

  /** What a caller of each step could test beforehand: a signal goes back to the pool
      although a pending barrier retires on it. */
  ghost predicate Strands(s: State, a: Step, q: nat)
    requires Enabled(s, a) && q < |s.queues|
  {
    var x := s.queues[q];
    match a
    case ByReap(ReapDispatch(k)) =>
      k == q && var sig := DispatchSignal(x.pendingDispatches[0].signal); sig !in x.progressWaits && RetiresOn(x, sig)
    case ByReap(WaitEnd(k, i, j)) =>
      && k == q && j < |x.deferred| && x.progressWaits[i] !in RemoveAt(x.progressWaits, i)
      && RetiresOn(x, DispatchSignal(x.deferred[j].signal))
    case ByLaunching(LaunchFail(t, i)) =>
      s.launches[t].queue == q && RetiresOn(x, DispatchSignal(x.inFlight[i].signal))
    case _ => false
  }

  lemma NotPooled(s: State, q: nat, h: nat)
    requires Reachable(s) && q < |s.queues|
    requires h in Signals(s.queues[q].pendingDispatches) || h in Signals(s.queues[q].deferred)
      || h in FlightSignals(s.queues[q].inFlight)
    ensures h !in s.queues[q].signalPool
  {
    hide Reachable;
    if h in s.queues[q].signalPool { HsaSafety.PooledIsUnused(s, q, h); }
  }

  lemma ReapStrands(s: State, k: nat, q: nat)
    requires Reachable(s) && CanReapDispatch(s, k) && q < |s.queues| && !Stuck(s.queues[q])
    ensures q < |DoReapDispatch(s, k).queues|
    ensures Stuck(DoReapDispatch(s, k).queues[q]) <==> Strands(s, ByReap(ReapDispatch(k)), q)
  {
    hide Reachable, Stuck, RetiresOn, IsZero, SyncNames;
    if k == q {
      var x, d := s.queues[q], s.queues[q].pendingDispatches[0];
      assert Signals(x.pendingDispatches)[0] == d.signal;
      NotPooled(s, q, d.signal);
      var x' := ReapDispatchQueue(x);
      if DispatchSignal(d.signal) in x.progressWaits {
        CalmSame(x, x');
        CalmKeeps(x, x');
      } else {
        StuckByOne(x, x', d.signal);
      }
    }
  }

  lemma WaitEndStrands(s: State, k: nat, i: nat, j: nat, q: nat)
    requires Reachable(s) && CanWaitEnd(s, k, i, j) && q < |s.queues| && !Stuck(s.queues[q])
    ensures q < |DoWaitEnd(s, k, i, j).queues|
    ensures Stuck(DoWaitEnd(s, k, i, j).queues[q]) <==> Strands(s, ByReap(WaitEnd(k, i, j)), q)
  {
    hide Reachable, Stuck, RetiresOn, IsZero, RemoveAt;
    if k == q {
      var x := s.queues[q];
      var x' := WaitEndQueue(x, i, j);
      if x.progressWaits[i] !in RemoveAt(x.progressWaits, i) && j < |x.deferred| {
        assert Signals(x.deferred)[j] == x.deferred[j].signal;
        NotPooled(s, q, x.deferred[j].signal);
        StuckByOne(x, x', x.deferred[j].signal);
      } else {
        CalmSame(x, x');
        CalmKeeps(x, x');
      }
    }
  }

  lemma FailStrands(s: State, t: nat, i: nat, q: nat)
    requires Reachable(s) && CanLaunchFail(s, t, i) && q < |s.queues| && !Stuck(s.queues[q])
    ensures q < |DoLaunchFail(s, t, i).queues|
    ensures Stuck(DoLaunchFail(s, t, i).queues[q]) <==> Strands(s, ByLaunching(LaunchFail(t, i)), q)
  {
    hide Reachable, Stuck, RetiresOn, RemoveAt;
    if s.launches[t].queue == q {
      var x := s.queues[q];
      assert FlightSignals(x.inFlight)[i] == x.inFlight[i].signal;
      NotPooled(s, q, x.inFlight[i].signal);
      StuckByOne(x, DoLaunchFail(s, t, i).queues[q], x.inFlight[i].signal);
    }
  }

  lemma DeviceCalm(s: State, a: DeviceStep, q: nat)
    requires DeviceEnabled(s, a) && q < |s.queues|
    ensures q < |DeviceApply(s, a).queues| && Calm(s.queues[q], DeviceApply(s, a).queues[q])
  {
  }

  lemma ReapCalm(s: State, a: ReapStep, q: nat)
    requires ReapEnabled(s, a) && q < |s.queues| && !a.ReapDispatch? && !a.WaitEnd?
    ensures q < |ReapApply(s, a).queues| && Calm(s.queues[q], ReapApply(s, a).queues[q])
  {
    hide SwapRemove, ReleaseActive, ReleaseAll, DropRefs, SyncNames, IsZero, RetiresOn;
  }

  lemma BarrierCalm(s: State, t: nat, i: nat, q: nat)
    requires Reachable(s) && CanLaunchBarrier(s, t, i) && q < |s.queues|
    ensures q < |DoLaunchBarrier(s, t, i).queues| && Calm(s.queues[q], DoLaunchBarrier(s, t, i).queues[q])
  {
    hide Reachable, HasCapacity, RetainActive, RetainAll;
    var x := s.queues[s.launches[t].queue];
    assert FlightSignals(x.inFlight)[i] == x.inFlight[i].signal;
    NotPooled(s, s.launches[t].queue, x.inFlight[i].signal);
  }

  lemma LaunchingCalm(s: State, a: LaunchStep, q: nat)
    requires Reachable(s) && LaunchingEnabled(s, a) && q < |s.queues| && !a.LaunchFail?
    ensures q < |LaunchingApply(s, a).queues| && Calm(s.queues[q], LaunchingApply(s, a).queues[q])
  {
    hide Reachable, Awaits, HasCapacity, RetainActive, RetainAll, RemoveAt, IsZero, DoLaunchBarrier;
    match a
    case LaunchBarrier(t, i) => BarrierCalm(s, t, i, q);
    case _ =>
  }

  lemma RecordingCalm(s: State, a: RecordStep, q: nat)
    requires RecordingEnabled(s, a) && q < |s.queues|
    ensures q < |RecordingApply(s, a).queues| && Calm(s.queues[q], RecordingApply(s, a).queues[q])
  {
    hide HasCapacity, RetainActive, RetainAll, Unreferenced;
  }

  lemma SyncingCalm(s: State, a: SyncStep, q: nat)
    requires SyncingEnabled(s, a) && q < |s.queues|
    ensures q < |SyncingApply(s, a).queues| && Calm(s.queues[q], SyncingApply(s, a).queues[q])
  {
    hide RetainActive, RetainAll, RemoveAt;
  }

  lemma ReapIff(s: State, a: ReapStep, q: nat)
    requires Reachable(s) && ReapEnabled(s, a) && q < |s.queues| && !Stuck(s.queues[q])
    ensures q < |ReapApply(s, a).queues|
    ensures Stuck(ReapApply(s, a).queues[q]) <==> Strands(s, ByReap(a), q)
  {
    hide Reachable, Stuck, Calm, RetiresOn, DoReapDispatch, DoWaitEnd;
    if a.ReapDispatch? {
      ReapStrands(s, a.q, q);
    } else if a.WaitEnd? {
      WaitEndStrands(s, a.q, a.i, a.j, q);
    } else {
      ReapCalm(s, a, q);
      CalmKeeps(s.queues[q], ReapApply(s, a).queues[q]);
    }
  }

  lemma LaunchingIff(s: State, a: LaunchStep, q: nat)
    requires Reachable(s) && LaunchingEnabled(s, a) && q < |s.queues| && !Stuck(s.queues[q])
    ensures q < |LaunchingApply(s, a).queues|
    ensures Stuck(LaunchingApply(s, a).queues[q]) <==> Strands(s, ByLaunching(a), q)
  {
    hide Reachable, Stuck, Calm, RetiresOn, DoLaunchFail;
    if a.LaunchFail? {
      FailStrands(s, a.t, a.i, q);
    } else {
      LaunchingCalm(s, a, q);
      CalmKeeps(s.queues[q], LaunchingApply(s, a).queues[q]);
    }
  }

  /** Over every step of every run, a barrier becomes stranded if and only if the step puts
      a signal back into the pool that a pending barrier retires on: a reap that the other
      two backends guard, the end of the last wait for a deferred dispatch, or the failure
      of a launch that has published barriers. */
  lemma StrandsIff(s: State, a: Step, q: nat)
    requires Reachable(s) && Enabled(s, a) && q < |s.queues| && !Stuck(s.queues[q])
    ensures q < |Apply(s, a).queues|
    ensures Stuck(Apply(s, a).queues[q]) <==> Strands(s, a, q)
  {
    hide Reachable, Stuck, Calm, RetiresOn, DeviceApply, ReapApply, LaunchingApply, RecordingApply, SyncingApply,
      DeviceEnabled, ReapEnabled, LaunchingEnabled, RecordingEnabled, SyncingEnabled;
    match a
    case ByDevice(x) => DeviceCalm(s, x, q); CalmKeeps(s.queues[q], DeviceApply(s, x).queues[q]);
    case ByReap(x) => ReapIff(s, x, q);
    case ByLaunching(x) => LaunchingIff(s, x, q);
    case ByRecording(x) => RecordingCalm(s, x, q); CalmKeeps(s.queues[q], RecordingApply(s, x).queues[q]);
    case BySyncing(x) => SyncingCalm(s, x, q); CalmKeeps(s.queues[q], SyncingApply(s, x).queues[q]);
  }

  // ----------------------------------------------------------------- a run to it

  function Waits(): seq<Occurrence> { [Occurrence(0, 1)] }

  function Barrier(): Packet { BarrierAnd([EventSignal(0)], None) }

  function Kernel(): Packet { Dispatch(0, true, Waits()) }

  function Ev(signal: nat, finished: set<nat>, refs: map<nat, nat>, n: nat): Event {
    Event(signal, 1, finished, true, true, None, [], refs, n, None)
  }

  function Qu(log: Log, taken: nat, done: set<nat>, values: seq<nat>, kernargs: nat, pd: seq<PendingDispatch>,
              pb: seq<PendingBarrier>,
              pool: seq<nat>, kpool: seq<nat>, flights: seq<InFlight>, active: map<nat, nat>, holder: Holder): Queue
  {
    Queue(8, Gpu(log, taken, done), values, [], kernargs, pd, [], pb, [], pool, kpool, flights, [], [], active, 0,
          Live, holder)
  }

  function La(stage: Stage): map<nat, Launch> {
    map[0 := Launch(0, Waits(), [0], true, false, false, stage)]
  }

  function Collecting(): State {
    State([NewQueueValue(8)], [Ev(1, {}, map[], 0)], La(Collected), map[])
  }

  function Locking(): State {
    State([Qu([], 0, {}, [], 0, [], [], [], [], [], map[], ByLaunch(0))], [Ev(1, {}, map[], 0)], La(Ready(2)), map[])
  }

  function Scanned(): State {
    State([Qu([], 0, {}, [1], 1, [], [], [], [], [InFlight(0, 0, 0)], map[], ByLaunch(0))], [Ev(1, {}, map[], 0)],
          La(Registering([0])), map[])
  }

  function Pb(): seq<PendingBarrier> { [PendingBarrier(DispatchSignal(0), [0], 0)] }

  function Registered1(): State {
    State([Qu([Barrier()], 0, {}, [1], 1, [], Pb(), [], [], [InFlight(0, 0, 0)], map[0 := 1], ByLaunch(0))],
          [Ev(1, {}, map[0 := 1], 1)], La(Registering([])), map[])
  }

  function Launched(signal: nat, finished: set<nat>, taken: nat, done: set<nat>, value: nat): State {
    State([Qu([Barrier(), Kernel()], taken, done, [value], 1, [PendingDispatch(0, 0, 1)], Pb(), [], [], [],
              map[0 := 1], Unlocked)],
          [Ev(signal, finished, map[0 := 1], 1)], map[], map[])
  }

  function Stranded(): State {
    State([Qu([Barrier(), Kernel()], 2, {0, 1}, [1], 1, [], Pb(), [0], [0], [], map[0 := 1], Unlocked)],
          [Ev(0, {1}, map[0 := 1], 1)], map[], map[])
  }

  /** One more step of a run. */
  lemma Extend(s: State, a: Step, s': State)
    requires Reachable(s) && Enabled(s, a) && Apply(s, a) == s'
    ensures Reachable(s')
  {
    hide Run, Enabled, Apply;
    ReachesStep(s, a);
    ReachesTrans(Init(), s, s');
  }

  function Armed(): State {
    State([NewQueueValue(8)], [Ev(1, {}, map[], 0)], map[], map[])
  }

  lemma StepArm()
    ensures var s := State([NewQueueValue(8)], [NewEventValue()], map[], map[]);
      CanCopySubmit(s, 0, []) && DoCopySubmit(s, 0, []) == Armed()
  {
    var s := State([NewQueueValue(8)], [NewEventValue()], map[], map[]);
    assert DoCopySubmit(s, 0, []).events == Armed().events;
  }

  lemma StepCollect()
    ensures CanLaunchCollect(Armed(), 0, 0, [0], [0]) && DoLaunchCollect(Armed(), 0, 0, [0], [0]) == Collecting()
  {
    assert Awaits(Armed(), [0]) == Waits();
  }

  lemma RunToCollecting()
    ensures Reachable(Collecting())
  {
    hide Reachable, Armed, Collecting, CanCopySubmit, DoCopySubmit, CanLaunchCollect, DoLaunchCollect;
    assert Reachable(Init()) by { Start(); }
    var s1 := State([NewQueueValue(8)], [], map[], map[]);
    Extend(Init(), ByDevice(NewQueue(8)), s1);
    var s2 := State([NewQueueValue(8)], [NewEventValue()], map[], map[]);
    Extend(s1, ByDevice(NewEvent), s2);
    StepArm();
    Extend(s2, ByRecording(CopySubmit(0, [])), Armed());
    StepCollect();
    Extend(Armed(), ByLaunching(LaunchCollect(0, 0, [0], [0])), Collecting());
  }

  lemma Start()
    ensures Reachable(Init())
  {
    ReachesSelf(Init());
  }

  function Acquired(stage: Stage): State {
    State([Qu([], 0, {}, [1], 1, [], [], [], [], [InFlight(0, 0, 0)], map[], ByLaunch(0))], [Ev(1, {}, map[], 0)],
          La(stage), map[])
  }

  lemma StepGate()
    ensures CanLaunchGate(Collecting(), 0, 1) && DoLaunchGate(Collecting(), 0, 1) == Locking()
  {
    var s := Collecting();
    assert Filter(s.queues[0], s.events, [0][1..]) == [];
    assert s.queues[0].(holder := ByLaunch(0)) == Locking().queues[0];
  }

  lemma StepAcquire()
    ensures CanLaunchAcquire(Locking(), 0, 0) && DoLaunchAcquire(Locking(), 0, 0) == Acquired(Scanning([0], []))
  {
    var x := Locking().queues[0];
    var y := Acquire(x, 0, 0);
    assert y.dispatchValues == [1] && y.inFlight == [InFlight(0, 0, 0)];
    assert y == Acquired(Scanning([0], [])).queues[0];
    assert [x][0 := y] == [y];
    assert La(Ready(2))[0 := La(Ready(2))[0].(stage := Scanning([0], []))] == La(Scanning([0], []));
  }

  lemma StepScan()
    ensures CanLaunchScan(Acquired(Scanning([0], [])), 0)
    ensures DoLaunchScan(Acquired(Scanning([0], [])), 0) == Acquired(Scanning([], [0]))
    ensures CanLaunchScan(Acquired(Scanning([], [0])), 0)
    ensures DoLaunchScan(Acquired(Scanning([], [0])), 0) == Scanned()
  {
    assert [0][1..] == [] && [] + [0] == [0];
    assert La(Scanning([0], []))[0 := La(Scanning([0], []))[0].(stage := Scanning([], [0]))] == La(Scanning([], [0]));
    assert La(Scanning([], [0]))[0 := La(Scanning([], [0]))[0].(stage := Registering([0]))] == La(Registering([0]));
  }

  lemma EventRetained()
    ensures RetainAll(Scanned().events, 0, [0]) == Registered1().events
  {
    hide RetainAll, Scanned, Registered1;
    var ev := Ev(1, {}, map[], 0);
    assert Scanned().events == [ev] && Registered1().events == [Ev(1, {}, map[0 := 1], 1)] by { WitnessEvents(); }
    var r := RetainAll([ev], 0, [0]);
    assert multiset([0])[0] == 1;
    assert r[0] == Retain(ev, 0, 1);
    assert Retain(ev, 0, 1) == Ev(1, {}, map[0 := 1], 1);
    assert r == [r[0]];
  }

  lemma WitnessEvents()
    ensures Scanned().events == [Ev(1, {}, map[], 0)] && Registered1().events == [Ev(1, {}, map[0 := 1], 1)]
  {
  }

  lemma BarrierPublished()
    ensures PublishDependencies(Scanned().queues[0], DispatchSignal(0), [0]) == Registered1().queues[0]
  {
    hide RetainActive;
    assert EventSignals([0]) == [EventSignal(0)];
    assert RetainActive(map[], [0]) == map[0 := 1] by { ActiveOnce(); }
    var y := PublishDependencies(Scanned().queues[0], DispatchSignal(0), [0]);
    assert y.gpu.log == [Barrier()] && y.pendingBarriers == Pb();
  }

  lemma ActiveOnce()
    ensures RetainActive(map[], [0]) == map[0 := 1]
  {
    assert multiset([0])[0] == 1;
  }

  lemma StepBarrier()
    ensures CanLaunchBarrier(Scanned(), 0, 0) && DoLaunchBarrier(Scanned(), 0, 0) == Registered1()
  {
    hide PublishDependencies, RetainAll;
    BarrierPublished();
    EventRetained();
    var x, y := Scanned().queues[0], Registered1().queues[0];
    assert [x][0 := y] == [y];
    assert La(Registering([0]))[0 := La(Registering([0]))[0].(stage := Registering([]))] == La(Registering([]));
  }

  lemma StepDispatch()
    ensures CanLaunchDispatch(Registered1(), 0, 0) && DoLaunchDispatch(Registered1(), 0, 0) == Launched(1, {}, 0, {}, 1)
  {
    assert RemoveAt([InFlight(0, 0, 0)], 0) == [];
    assert La(Registering([])) - {0} == map[];
    var y := DoLaunchDispatch(Registered1(), 0, 0).queues[0];
    assert y.gpu.log == [Barrier(), Kernel()] && y.pendingDispatches == [PendingDispatch(0, 0, 1)];
    assert y == Launched(1, {}, 0, {}, 1).queues[0];
  }

  lemma StepCopyDone()
    ensures CanCopyDone(Launched(1, {}, 0, {}, 1), 0)
    ensures DoCopyDone(Launched(1, {}, 0, {}, 1), 0) == Launched(0, {1}, 0, {}, 1)
  {
    var ev := Ev(1, {}, map[0 := 1], 1);
    assert FinishEpoch(ev) == Ev(0, {1}, map[0 := 1], 1);
    assert [ev][0 := FinishEpoch(ev)] == [FinishEpoch(ev)];
  }

  lemma StepBarrierDone()
    ensures CanGpuComplete(Launched(0, {1}, 1, {}, 1), 0, 0)
    ensures DoGpuComplete(Launched(0, {1}, 1, {}, 1), 0, 0) == Launched(0, {1}, 1, {0}, 1)
  {
    var s := Launched(0, {1}, 1, {}, 1);
    var x := s.queues[0];
    assert x.gpu.log[0] == Barrier();
    assert CompleteEvents(s.events, Barrier()) == s.events;
    var y := CompleteQueue(x, 0);
    assert y.gpu.done == {0} && y == Launched(0, {1}, 1, {0}, 1).queues[0];
    assert [x][0 := y] == [y];
  }

  lemma StepKernelDone()
    ensures CanGpuComplete(Launched(0, {1}, 2, {0}, 1), 0, 1)
    ensures DoGpuComplete(Launched(0, {1}, 2, {0}, 1), 0, 1) == Launched(0, {1}, 2, {0, 1}, 0)
  {
    var s := Launched(0, {1}, 2, {0}, 1);
    var x := s.queues[0];
    assert x.gpu.log[1] == Kernel();
    assert CompleteEvents(s.events, Kernel()) == s.events;
    var y := CompleteQueue(x, 1);
    assert y.gpu.done == {0, 1} && y.dispatchValues == [0];
    assert y == Launched(0, {1}, 2, {0, 1}, 0).queues[0];
    assert [x][0 := y] == [y];
  }

  lemma StepReap()
    ensures CanReapDispatch(Launched(0, {1}, 2, {0, 1}, 0), 0)
    ensures DoReapDispatch(Launched(0, {1}, 2, {0, 1}, 0), 0) == Stranded()
  {
    var x := Launched(0, {1}, 2, {0, 1}, 0).queues[0];
    var y := ReapDispatchQueue(x);
    assert y.dispatchValues == [1] && y.signalPool == [0] && y.kernargPool == [0] && y.pendingDispatches == [];
    assert y == Stranded().queues[0];
    assert [x][0 := y] == [y];
  }

  lemma RunToRegistered()
    ensures Reachable(Registered1())
  {
    hide Reachable, Locking, Acquired, Scanned, Registered1, Collecting;
    hide DoLaunchGate, DoLaunchAcquire, DoLaunchScan, DoLaunchBarrier;
    hide CanLaunchGate, CanLaunchAcquire, CanLaunchScan, CanLaunchBarrier;
    RunToCollecting();
    StepGate();
    Extend(Collecting(), ByLaunching(LaunchGate(0, 1)), Locking());
    StepAcquire();
    Extend(Locking(), ByLaunching(LaunchAcquire(0, 0)), Acquired(Scanning([0], [])));
    StepScan();
    Extend(Acquired(Scanning([0], [])), ByLaunching(LaunchScan(0)), Acquired(Scanning([], [0])));
    Extend(Acquired(Scanning([], [0])), ByLaunching(LaunchScan(0)), Scanned());
    StepBarrier();
    Extend(Scanned(), ByLaunching(LaunchBarrier(0, 0)), Registered1());
  }

  lemma RunToLaunched()
    ensures Reachable(Launched(1, {}, 0, {}, 1))
  {
    hide Reachable, Registered1, Launched, DoLaunchDispatch, CanLaunchDispatch;
    RunToRegistered();
    StepDispatch();
    Extend(Registered1(), ByLaunching(LaunchDispatch(0, 0)), Launched(1, {}, 0, {}, 1));
  }

  lemma RunToBarrierDone()
    ensures Reachable(Launched(0, {1}, 2, {0}, 1))
  {
    hide Reachable, DoCopyDone, DoGpuComplete, CanCopyDone, CanGpuComplete;
    RunToLaunched();
    StepCopyDone();
    Extend(Launched(1, {}, 0, {}, 1), ByDevice(CopyDone(0)), Launched(0, {1}, 0, {}, 1));
    Extend(Launched(0, {1}, 0, {}, 1), ByDevice(GpuTake(0)), Launched(0, {1}, 1, {}, 1));
    StepBarrierDone();
    Extend(Launched(0, {1}, 1, {}, 1), ByDevice(GpuComplete(0, 0)), Launched(0, {1}, 1, {0}, 1));
    Extend(Launched(0, {1}, 1, {0}, 1), ByDevice(GpuTake(0)), Launched(0, {1}, 2, {0}, 1));
  }

  lemma RunToCompleted()
    ensures Reachable(Launched(0, {1}, 2, {0, 1}, 0))
  {
    hide Reachable, Launched, DoGpuComplete, CanGpuComplete;
    RunToBarrierDone();
    StepKernelDone();
    Extend(Launched(0, {1}, 2, {0}, 1), ByDevice(GpuComplete(0, 1)), Launched(0, {1}, 2, {0, 1}, 0));
  }

  /** The kernel completes after the barrier pass: the dispatch pass strands the barrier.
      Every packet has completed, no dispatch is pending, and nothing can be reaped. */
  lemma StrandedByReap()
    ensures Reachable(Launched(0, {1}, 2, {0, 1}, 0)) && !Stuck(Launched(0, {1}, 2, {0, 1}, 0).queues[0])
    ensures Enabled(Launched(0, {1}, 2, {0, 1}, 0), ByReap(ReapDispatch(0)))
    ensures Apply(Launched(0, {1}, 2, {0, 1}, 0), ByReap(ReapDispatch(0))) == Stranded()
    ensures Reachable(Stranded()) && Stuck(Stranded().queues[0])
    ensures Stranded().queues[0].gpu.done == {0, 1} && |Stranded().queues[0].gpu.log| == 2
    ensures !CanReapBarrier(Stranded(), 0, 0) && !CanReapDispatch(Stranded(), 0)
  {
    hide Reachable;
    RunToCompleted();
    StepReap();
    Extend(Launched(0, {1}, 2, {0, 1}, 0), ByReap(ReapDispatch(0)), Stranded());
    assert StuckOn(Stranded().queues[0], Pb()[0]);
  }

  lemma RunToStranded()
    ensures Reachable(Stranded())
  {
    hide *;
    StrandedByReap();
  }

  /** A thread waits for the kernel, which completes and is deferred for it. */
  function Waiting(done: set<nat>, value: nat, pending: seq<PendingDispatch>, deferred: seq<PendingDispatch>): State {
    var s := Launched(0, {1}, 2, done, value);
    s.(queues := [s.queues[0].(pendingDispatches := pending, deferred := deferred,
                               progressWaits := [DispatchSignal(0)], synchronizers := 1)])
  }

  function Pd(): seq<PendingDispatch> { [PendingDispatch(0, 0, 1)] }

  lemma StepWaitBegin()
    ensures CanWaitBegin(Launched(0, {1}, 2, {0}, 1), 0)
    ensures DoWaitBegin(Launched(0, {1}, 2, {0}, 1), 0) == Waiting({0}, 1, Pd(), [])
  {
    assert [] + [DispatchSignal(0)] == [DispatchSignal(0)];
  }

  lemma StepWaitedKernelDone()
    ensures CanGpuComplete(Waiting({0}, 1, Pd(), []), 0, 1)
    ensures DoGpuComplete(Waiting({0}, 1, Pd(), []), 0, 1) == Waiting({0, 1}, 0, Pd(), [])
  {
    var s := Waiting({0}, 1, Pd(), []);
    var x := s.queues[0];
    assert x.gpu.log[1] == Kernel();
    assert CompleteEvents(s.events, Kernel()) == s.events;
    var y := CompleteQueue(x, 1);
    assert y.gpu.done == {0, 1} && y.dispatchValues == [0];
    assert y == Waiting({0, 1}, 0, Pd(), []).queues[0];
    assert [x][0 := y] == [y];
  }

  lemma StepDefer()
    ensures CanReapDispatch(Waiting({0, 1}, 0, Pd(), []), 0)
    ensures DoReapDispatch(Waiting({0, 1}, 0, Pd(), []), 0) == Waiting({0, 1}, 0, [], Pd())
  {
    var x := Waiting({0, 1}, 0, Pd(), []).queues[0];
    var y := ReapDispatchQueue(x);
    assert y.pendingDispatches == [] && y.deferred == Pd();
    assert y == Waiting({0, 1}, 0, [], Pd()).queues[0];
    assert [x][0 := y] == [y];
  }

  lemma StepWaitEnd()
    ensures CanWaitEnd(Waiting({0, 1}, 0, [], Pd()), 0, 0, 0)
    ensures DoWaitEnd(Waiting({0, 1}, 0, [], Pd()), 0, 0, 0) == Stranded()
  {
    var x := Waiting({0, 1}, 0, [], Pd()).queues[0];
    assert RemoveAt([DispatchSignal(0)], 0) == [];
    var y := WaitEndQueue(x, 0, 0);
    assert y.dispatchValues == [1] && y.signalPool == [0] && y.kernargPool == [0] && y.deferred == [];
    assert y == Stranded().queues[0];
    assert [x][0 := y] == [y];
  }

  lemma RunToDeferred()
    ensures Reachable(Waiting({0, 1}, 0, [], Pd()))
  {
    hide Reachable, Launched, Waiting, Pd, DoWaitBegin, CanWaitBegin, DoGpuComplete, CanGpuComplete,
      DoReapDispatch, CanReapDispatch;
    RunToBarrierDone();
    StepWaitBegin();
    Extend(Launched(0, {1}, 2, {0}, 1), ByReap(WaitBegin(0)), Waiting({0}, 1, Pd(), []));
    StepWaitedKernelDone();
    Extend(Waiting({0}, 1, Pd(), []), ByDevice(GpuComplete(0, 1)), Waiting({0, 1}, 0, Pd(), []));
    StepDefer();
    Extend(Waiting({0, 1}, 0, Pd(), []), ByReap(ReapDispatch(0)), Waiting({0, 1}, 0, [], Pd()));
  }

  /** The last waiter leaves while the barrier still retires on the deferred dispatch. */
  lemma StrandedByWait()
    ensures Reachable(Waiting({0, 1}, 0, [], Pd())) && !Stuck(Waiting({0, 1}, 0, [], Pd()).queues[0])
    ensures Enabled(Waiting({0, 1}, 0, [], Pd()), ByReap(WaitEnd(0, 0, 0)))
    ensures Stuck(Apply(Waiting({0, 1}, 0, [], Pd()), ByReap(WaitEnd(0, 0, 0))).queues[0])
  {
    hide Reachable, Waiting, Stuck, DoWaitEnd, CanWaitEnd;
    RunToDeferred();
    StepWaitEnd();
    WaitStucks();
  }

  lemma WaitStucks()
    ensures !Stuck(Waiting({0, 1}, 0, [], Pd()).queues[0]) && Stuck(Stranded().queues[0])
  {
    assert StuckOn(Stranded().queues[0], Pb()[0]);
  }

  /** A launch gives up after its dependency barrier is published. */
  lemma StrandedByFailure()
    ensures Reachable(Registered1()) && !Stuck(Registered1().queues[0])
    ensures Enabled(Registered1(), ByLaunching(LaunchFail(0, 0)))
    ensures Stuck(Apply(Registered1(), ByLaunching(LaunchFail(0, 0))).queues[0])
  {
    hide Reachable;
    RunToRegistered();
    assert Registered1().queues[0].signalPool == [];
    var x := DoLaunchFail(Registered1(), 0, 0).queues[0];
    assert x.signalPool == [] + [0];
    assert StuckOn(x, Pb()[0]);
  }

  // --------------------------------------------------------- destruction never ends

  /** A queue being destroyed while a barrier is stuck. */
  ghost predicate Doomed(s: State, q: nat, b: PendingBarrier) {
    q < |s.queues| && s.queues[q].lifecycle == DestroyPinned && StuckOn(s.queues[q], b)
  }

  lemma DoomedDevice(s: State, a: DeviceStep, q: nat, b: PendingBarrier)
    requires DeviceEnabled(s, a) && Doomed(s, q, b)
    ensures Doomed(DeviceApply(s, a), q, b)
  {
  }

  /** A pooled signal is armed, so the barrier that retires on it is not reaped. */
  lemma DoomedReapBarrier(s: State, k: nat, i: nat, q: nat, b: PendingBarrier)
    requires Inv(s) && CanReapBarrier(s, k, i) && Doomed(s, q, b)
    ensures Doomed(DoReapBarrier(s, k, i), q, b)
  {
    hide QueueGood, EventGood, LaunchGood, BarrierSide, SyncSide, EventSide, ReleaseActive, ReleaseAll;
    if k == q {
      var x := s.queues[q];
      QueueIsOk(s, q);
      assert x.dispatchValues[b.retirement.handle] == 1;
      var j :| 0 <= j < |x.pendingBarriers| && x.pendingBarriers[j] == b;
      assert j != i;
      HsaReapSteps.Survives(x.pendingBarriers, i, j);
    }
  }

  lemma DoomedReap(s: State, a: ReapStep, q: nat, b: PendingBarrier)
    requires Inv(s) && ReapEnabled(s, a) && Doomed(s, q, b)
    ensures Doomed(ReapApply(s, a), q, b)
  {
    hide Inv, SwapRemove, ReleaseActive, ReleaseAll, DropRefs, SyncNames;
    match a
    case ReapBarrier(k, i) => DoomedReapBarrier(s, k, i, q, b);
    case _ =>
  }

  lemma DoomedLaunching(s: State, a: LaunchStep, q: nat, b: PendingBarrier)
    requires Inv(s) && LaunchingEnabled(s, a) && Doomed(s, q, b)
    ensures Doomed(LaunchingApply(s, a), q, b)
  {
    hide Inv, Acquire, Awaits, HasCapacity, RetainActive, RetainAll, RemoveAt;
    HsaSyncSteps.PinnedHasNoLaunch(s, q);
  }

  lemma HolderAlive(s: State, q: nat)
    requires Inv(s) && q < |s.queues| && (s.queues[q].holder.ByRecord? || s.queues[q].holder.BySync?)
    ensures s.queues[q].lifecycle != DestroyPinned
  {
    hide QueueOk, LaunchGood, EventGood;
    assert QueueGood(s, q);
  }

  lemma DoomedRecording(s: State, a: RecordStep, q: nat, b: PendingBarrier)
    requires Inv(s) && RecordingEnabled(s, a) && Doomed(s, q, b)
    ensures Doomed(RecordingApply(s, a), q, b)
  {
    hide Inv, HasCapacity, RetainActive, RetainAll, Unreferenced;
    match a
    case RecordBarrier(k) => HolderAlive(s, k);
    case RecordMarker(k) => HolderAlive(s, k);
    case _ =>
  }

  lemma DoomedSyncing(s: State, a: SyncStep, q: nat, b: PendingBarrier)
    requires Inv(s) && SyncingEnabled(s, a) && Doomed(s, q, b) && a != DestroyAbandon(q)
    ensures Doomed(SyncingApply(s, a), q, b)
  {
    hide Inv, RetainActive, RetainAll, RemoveAt;
    match a
    case SyncBarrier(k) => HolderAlive(s, k);
    case SyncEnd(k) => HolderAlive(s, k);
    case _ =>
  }

  lemma DoomedStep(s: State, a: Step, q: nat, b: PendingBarrier)
    requires Good(s) && Enabled(s, a) && Doomed(s, q, b) && a != BySyncing(DestroyAbandon(q))
    ensures Doomed(Apply(s, a), q, b)
  {
    hide Inv, Accounted, Doomed;
    match a
    case ByDevice(x) => DoomedDevice(s, x, q, b);
    case ByReap(x) => DoomedReap(s, x, q, b);
    case ByLaunching(x) => DoomedLaunching(s, x, q, b);
    case ByRecording(x) => DoomedRecording(s, x, q, b);
    case BySyncing(x) => DoomedSyncing(s, x, q, b);
  }

  /** If a queue is pinned for destruction while a barrier is stuck, no continuation of
      the run ever destroys it, unless the call first gives up because its marker finds the
      queue full. */
  lemma {:induction false} DestroyNeverFinishes(s: State, steps: seq<Step>, s': State, q: nat, b: PendingBarrier)
    requires Good(s) && Run(s, steps, s') && Doomed(s, q, b)
    requires BySyncing(DestroyAbandon(q)) !in steps
    ensures Doomed(s', q, b) && s'.queues[q].lifecycle != Destroyed
    decreases |steps|
  {
    hide Good, Apply, Enabled;
    if steps != [] {
      KeepStep(s, steps[0]);
      DoomedStep(s, steps[0], q, b);
      DestroyNeverFinishes(Apply(s, steps[0]), steps[1..], s', q, b);
    }
  }

  /** The call can give up exactly when barriers alone fill the queue; it then leaves the queue
      usable again, with the barrier still stuck. */
  lemma GivesUpIff(s: State, q: nat, b: PendingBarrier)
    requires Doomed(s, q, b) && Free(s, q)
    ensures CanDestroyAbandon(s, q) <==>
      && s.queues[q].pendingDispatches == [] && s.queues[q].pendingEvents == []
      && |s.queues[q].pendingBarriers| >= s.queues[q].size
    ensures CanDestroyAbandon(s, q) ==>
      DoDestroyAbandon(s, q).queues[q].lifecycle == Live && StuckOn(DoDestroyAbandon(s, q).queues[q], b)
  {
  }

  /** Destroying the stranded queue. */
  function Destroyable(l: Lifecycle, n: nat): State {
    State([Stranded().queues[0].(lifecycle := l, synchronizers := n)], Stranded().events, map[], map[])
  }

  lemma DoomedReachable()
    ensures Reachable(Destroyable(DestroyPinned, 1)) && Doomed(Destroyable(DestroyPinned, 1), 0, Pb()[0])
  {
    hide Reachable;
    RunToStranded();
    assert [Stranded().queues[0]][0 := Stranded().queues[0].(lifecycle := Destroying)]
      == Destroyable(Destroying, 0).queues;
    Extend(Stranded(), BySyncing(DestroyBegin(0)), Destroyable(Destroying, 0));
    Extend(Destroyable(Destroying, 0), BySyncing(DestroyPin(0)), Destroyable(DestroyPinned, 1));
  }
}
