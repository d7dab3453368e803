/** The submission loops: a launch that registers its dependencies five at a time and
    then publishes its dispatch, and a queue synchronization.  Both run while the hardware
    consumes what is already published. */
module HsaSubmit {
  import opened Common
  import opened HsaState
  import opened HsaSteps
  import opened HsaInvariant
  import opened HsaRuns
  import opened HsaRuntime

  // --------------------------------------------------------------- dependencies

  /** How far the list is checked: distinct recorded events, with those still unfinished
      among `found`. */
  ghost predicate Checked(s: State, list: seq<nat>, found: seq<nat>) {
    && ValidDeps(s, list) && Distinct(found)
    && (forall e :: e in found ==> e in list && s.events[e].pending)
    && (forall e :: e in list && e !in found ==> !s.events[e].pending || s.events[e].signal == 0)
  }

  lemma CheckedUndisturbed(s: State, s': State, q: nat, list: seq<nat>, found: seq<nat>)
    requires HardwareOnly(s, s') && q < |s.queues| && Checked(s, list, found)
    ensures Checked(s', list, found)
  {
    forall e | e in list ensures e < |s'.events| && EventSame(s.events[e], s'.events[e])
      && (s.events[e].signal == 0 ==> s'.events[e].signal == 0)
    {
      if s.events[e].signal == 0 { assert IsZero(s.queues[q], s.events, EventSignal(e)); }
    }
  }

  lemma SameDeps(s: State, s': State, list: seq<nat>)
    requires HardwareOnly(s, s')
    ensures ValidDeps(s, list) <==> ValidDeps(s', list)
  {
    forall e | 0 <= e < |s.events| ensures EventSame(s.events[e], s'.events[e]) {
    }
  }

  lemma DistinctAfter(list: seq<nat>, e: nat)
    requires Distinct(list)
    ensures Distinct(list + [e]) <==> e !in list
  {
    if e in list {
      var i :| 0 <= i < |list| && list[i] == e;
      assert (list + [e])[i] == (list + [e])[|list|];
    }
  }

  /** collect_event_dependencies_locked for a launch on a queue: the list is accepted exactly
      when its events are distinct and each was recorded before; the launch then waits for
      every recording of the list, and carries those that were not seen finished. */
  method CollectDependencies(rt: Runtime, t: nat, q: nat, explicit: seq<nat>)
    returns (ok: bool, deps: seq<nat>, ghost at: State)
    requires rt.Valid() && t !in rt.launches && q < |rt.queues| && rt.queues[q].lifecycle == Live
    modifies rt
    ensures rt.Valid() && Reaches(old(rt.Now()), rt.Now()) && HardwareOnly(old(rt.Now()), at)
    ensures ok <==> ValidDeps(old(rt.Now()), explicit)
    ensures !ok ==> rt.Now() == at
    ensures ok ==>
      && CanLaunchCollect(at, t, q, explicit, deps)
      && rt.Now() == DoLaunchCollect(at, t, q, explicit, deps)
  {
    hide Good, Reaches, HardwareOnly, Checked, DoLaunchCollect, ValidDeps, Distinct;
    ghost var start := rt.Now();
    ReachesSelf(start);
    HardwareNone(start);
    deps := [];
    assert Checked(start, explicit[..0], []) by { NothingChecked(start); }
    for i := 0 to |explicit|
      invariant rt.Valid() && Reaches(start, rt.Now()) && HardwareOnly(start, rt.Now())
      invariant q < |rt.queues| && rt.queues[q].lifecycle == Live && rt.launches == start.launches
      invariant Checked(rt.Now(), explicit[..i], deps)
    {
      ghost var before := rt.Now();
      rt.Hardware();
      ReachesTrans(start, before, rt.Now());
      HardwareTwice(start, before, rt.Now());
      QueueUndisturbed(before, rt.Now(), q);
      CheckedUndisturbed(before, rt.Now(), q, explicit[..i], deps);
      var e := explicit[i];
      if e >= |rt.events| || rt.events[e].epoch == 0 || e in explicit[..i] {
        Rejected(rt.Now(), explicit, i);
        SameDeps(start, rt.Now(), explicit);
        return false, [], rt.Now();
      }
      CheckOne(rt.Now(), explicit, i, deps);
      if rt.events[e].pending && rt.events[e].signal != 0 { deps := deps + [e]; }
    }
    assert explicit[..|explicit|] == explicit;
    at := rt.Now();
    Accepted(at, t, q, explicit, deps);
    SameDeps(start, at, explicit);
    rt.Perform(ByLaunching(LaunchCollect(t, q, explicit, deps)));
    ReachesTrans(start, at, rt.Now());
    ok := true;
  }

  lemma NothingChecked(s: State)
    ensures Checked(s, [], [])
  {
  }

  lemma QueueUndisturbed(s: State, s': State, q: nat)
    requires HardwareOnly(s, s') && q < |s.queues|
    ensures q < |s'.queues| && s'.queues[q].lifecycle == s.queues[q].lifecycle && s'.launches == s.launches
  {
    assert HostSame(s.queues[q], s'.queues[q]);
  }

  lemma Rejected(s: State, explicit: seq<nat>, i: nat)
    requires i < |explicit|
    requires explicit[i] >= |s.events| || s.events[explicit[i]].epoch == 0 || explicit[i] in explicit[..i]
    ensures !ValidDeps(s, explicit)
  {
    var e := explicit[i];
    assert e in explicit;
    if e in explicit[..i] {
      var j :| 0 <= j < i && explicit[..i][j] == e;
      assert explicit[j] == explicit[i];
    }
  }

  lemma CheckOne(s: State, explicit: seq<nat>, i: nat, found: seq<nat>)
    requires i < |explicit| && Checked(s, explicit[..i], found)
    requires explicit[i] < |s.events| && s.events[explicit[i]].epoch > 0 && explicit[i] !in explicit[..i]
    ensures var e := explicit[i];
            Checked(s, explicit[..i + 1],
                    if s.events[e].pending && s.events[e].signal != 0 then found + [e] else found)
  {
    hide Distinct;
    var e := explicit[i];
    assert explicit[..i + 1] == explicit[..i] + [e];
    DistinctAfter(explicit[..i], e);
    DistinctAfter(found, e);
  }

  lemma Accepted(s: State, t: nat, q: nat, explicit: seq<nat>, deps: seq<nat>)
    requires Checked(s, explicit, deps) && t !in s.launches && q < |s.queues| && s.queues[q].lifecycle == Live
    ensures ValidDeps(s, explicit) && CanLaunchCollect(s, t, q, explicit, deps)
    ensures Enabled(s, ByLaunching(LaunchCollect(t, q, explicit, deps)))
    ensures Apply(s, ByLaunching(LaunchCollect(t, q, explicit, deps))) == DoLaunchCollect(s, t, q, explicit, deps)
  {
    hide DoLaunchCollect;
  }

  /** What the hardware leaves to a launch that holds its queue lock. */
  lemma LaunchUndisturbed(s: State, s': State, t: nat)
    requires HardwareOnly(s, s') && HasLaunch(s, t)
    ensures HasLaunch(s', t) && s'.launches == s.launches
    ensures LaunchQueue(s', t).gpu.log == LaunchQueue(s, t).gpu.log
    ensures LaunchQueue(s', t).inFlight == LaunchQueue(s, t).inFlight
    ensures LaunchQueue(s', t).holder == LaunchQueue(s, t).holder
  {
    assert HostSame(s.queues[s.launches[t].queue], s'.queues[s.launches[t].queue]);
  }

  /** The signals named by the packets `from` and later, in order. */
  ghost function Deps(log: Log, from: nat): seq<Signal> {
    if |log| <= from then []
    else Deps(log[..|log| - 1], from) + if log[|log| - 1].BarrierAnd? then log[|log| - 1].deps else []
  }

  lemma {:induction false} DepsAppend(log: Log, from: nat, deps: seq<Signal>, completed: Option<Signal>)
    requires from <= |log|
    ensures Deps(log + [BarrierAnd(deps, completed)], from) == Deps(log, from) + deps
  {
    assert (log + [BarrierAnd(deps, completed)])[..|log|] == log;
  }

  /** Packets `from` and later are barrier packets of at most five dependencies, and name
      exactly the given signals. */
  ghost predicate BarriersFrom(log: Log, from: nat, signals: seq<Signal>) {
    && from <= |log| && Deps(log, from) == signals
    && (forall p :: from <= p < |log| ==> log[p].BarrierAnd? && |log[p].deps| <= 5 && log[p].completed.None?)
  }

  lemma SignalsSplit(deps: seq<nat>)
    ensures EventSignals(Head(deps)) + EventSignals(Rest(deps)) == EventSignals(deps)
    ensures deps != [] ==> |Rest(deps)| < |deps|
  {
  }

  lemma AcquireStep(s: State, t: nat, k: nat)
    requires CanLaunchAcquire(s, t, k) && !s.launches[t].direct
    ensures var s' := DoLaunchAcquire(s, t, k);
      && Holds(s', t) && OwnsFlight(s', t, |LaunchQueue(s, t).inFlight|)
      && s'.launches[t] == s.launches[t].(stage := Scanning(s.launches[t].deps, []))
      && LaunchQueue(s', t).gpu.log == LaunchQueue(s, t).gpu.log
  {
  }

  lemma ScanStep(s: State, t: nat, i: nat)
    requires CanLaunchScan(s, t) && OwnsFlight(s, t, i)
    ensures var s' := DoLaunchScan(s, t);
      && Holds(s', t) && OwnsFlight(s', t, i) && s'.queues == s.queues && s'.events == s.events
      && s'.launches[t] == s.launches[t].(stage := s'.launches[t].stage)
      && (if s.launches[t].stage.rest == [] then s'.launches[t].stage.Registering?
          else s'.launches[t].stage.Scanning? && |s'.launches[t].stage.rest| == |s.launches[t].stage.rest| - 1)
      && Sifted(s, s', t)
  {
    hide NeedsBarrier;
  }

  /** What a scan has left to look at and what it keeps. */
  function Found(g: Stage): seq<nat> {
    match g case Scanning(_, found) => found case Registering(todo) => todo case _ => []
  }

  function Unseen(g: Stage): seq<nat> {
    match g case Scanning(rest, _) => rest case _ => []
  }

  /** A dependency that left the scan is held back already or has completed, and nothing
      else is kept. */
  ghost predicate Sifted(s: State, s': State, t: nat) {
    && HasLaunch(s, t) && HasLaunch(s', t)
    && var g, g' := s.launches[t].stage, s'.launches[t].stage;
    && (forall e :: e in Found(g') + Unseen(g') ==> e in Found(g) + Unseen(g))
    && (forall e :: e in Found(g) ==> e in Found(g'))
    && (forall e :: e in Unseen(g) && e !in Found(g') + Unseen(g') ==> !NeedsBarrier(LaunchQueue(s', t), s'.events, e))
  }

  /** Once not needed, a barrier stays unneeded while the hardware runs. */
  lemma SiftedRuns(s: State, m: State, s': State, t: nat)
    requires Sifted(s, m, t) && HardwareOnly(m, s')
    ensures Sifted(s, s', t)
  {
    LaunchUndisturbed(m, s', t);
    var q := m.launches[t].queue;
    assert HostSame(m.queues[q], s'.queues[q]) && Falls(m.queues[q], m.events, s'.queues[q], s'.events);
    forall e: nat | !NeedsBarrier(m.queues[q], m.events, e) ensures !NeedsBarrier(s'.queues[q], s'.events, e) {
      assert e < |m.events| && m.events[e].signal == 0 ==> IsZero(m.queues[q], m.events, EventSignal(e));
      assert IsZero(m.queues[q], m.events, EventSignal(e)) ==> IsZero(s'.queues[q], s'.events, EventSignal(e));
    }
  }

  lemma SiftedSelf(s: State, t: nat)
    requires HasLaunch(s, t)
    ensures Sifted(s, s, t)
  {
  }

  lemma SiftedTodo(s: State, s': State, t: nat, deps: seq<nat>)
    requires Sifted(s, s', t) && s.launches[t].stage == Scanning(deps, []) && s'.launches[t].stage.Registering?
    ensures forall e :: e in s'.launches[t].stage.todo ==> e in deps
  {
    hide NeedsBarrier;
    assert Found(s.launches[t].stage) + Unseen(s.launches[t].stage) == deps;
    assert Found(s'.launches[t].stage) + Unseen(s'.launches[t].stage) == s'.launches[t].stage.todo;
  }

  lemma SiftedOnce(s: State, m: State, t: nat, i: nat)
    requires Sifted(s, m, t) && CanLaunchScan(m, t) && OwnsFlight(m, t, i)
    ensures Sifted(s, DoLaunchScan(m, t), t)
  {
    hide NeedsBarrier, DoLaunchScan;
    ScanStep(m, t, i);
  }

  lemma BarrierStep(s: State, t: nat, i: nat, from: nat, signals: seq<Signal>)
    requires CanLaunchBarrier(s, t, i) && BarriersFrom(LaunchQueue(s, t).gpu.log, from, signals)
    ensures var s' := DoLaunchBarrier(s, t, i);
      && Holds(s', t) && OwnsFlight(s', t, i)
      && s'.launches[t] == s.launches[t].(stage := Registering(Rest(s.launches[t].stage.todo)))
      && LaunchQueue(s, t).gpu.log < LaunchQueue(s', t).gpu.log
      && BarriersFrom(LaunchQueue(s', t).gpu.log, from, signals + EventSignals(Head(s.launches[t].stage.todo)))
  {
    hide RetainActive, RetainAll, Deps;
    DepsAppend(LaunchQueue(s, t).gpu.log, from, EventSignals(Head(s.launches[t].stage.todo)), None);
  }

  lemma DispatchStep(s: State, t: nat, i: nat)
    requires CanLaunchDispatch(s, t, i)
    ensures var s' := DoLaunchDispatch(s, t, i); var q := s.launches[t].queue;
      && t !in s'.launches && q < |s'.queues| && s'.queues[q].holder == Unlocked
      && |s'.queues[q].gpu.log| == |s.queues[q].gpu.log| + 1 && s.queues[q].gpu.log < s'.queues[q].gpu.log
      && s'.queues[q].gpu.log[|s.queues[q].gpu.log|].Dispatch?
      && s'.queues[q].gpu.log[|s.queues[q].gpu.log|].awaits == s.launches[t].awaits
  {
  }

  /** A launch that holds its lock and its flight i, between two of its steps. */
  ghost predicate Working(s: State, t: nat, i: nat, l: Launch) {
    Holds(s, t) && OwnsFlight(s, t, i) && s.launches[t] == l.(stage := s.launches[t].stage)
  }

  lemma WorkingLaunch(s: State, t: nat, i: nat, l: Launch)
    requires Working(s, t, i, l)
    ensures HasLaunch(s, t)
  {
  }

  /** Drop the dependencies that are already held back or have completed, and only those. */
  method ScanDependencies(rt: Runtime, t: nat, i: nat, ghost l: Launch)
    requires rt.Valid() && Working(rt.Now(), t, i, l) && rt.launches[t].stage.Scanning?
    modifies rt
    ensures rt.Valid() && Reaches(old(rt.Now()), rt.Now()) && Working(rt.Now(), t, i, l)
    ensures rt.launches[t].stage.Registering?
    ensures LaunchQueue(rt.Now(), t).gpu.log == old(LaunchQueue(rt.Now(), t).gpu.log)
    ensures Sifted(old(rt.Now()), rt.Now(), t)
  {
    hide Good, Reaches, HardwareOnly, DoLaunchScan, Sifted;
    ghost var start := rt.Now();
    ghost var log := LaunchQueue(start, t).gpu.log;
    ReachesSelf(start);
    SiftedSelf(start, t);
    while rt.launches[t].stage.Scanning?
      invariant rt.Valid() && Reaches(start, rt.Now()) && Working(rt.Now(), t, i, l)
      invariant rt.launches[t].stage.Scanning? || rt.launches[t].stage.Registering?
      invariant LaunchQueue(rt.Now(), t).gpu.log == log && Sifted(start, rt.Now(), t)
      decreases if rt.launches[t].stage.Scanning? then |rt.launches[t].stage.rest| + 1 else 0
    {
      ghost var before := rt.Now();
      rt.Hardware();
      LaunchUndisturbed(before, rt.Now(), t);
      ReachesTrans(start, before, rt.Now());
      SiftedRuns(start, before, rt.Now(), t);
      ghost var loaded := rt.Now();
      rt.Perform(ByLaunching(LaunchScan(t)));
      ScanStep(loaded, t, i);
      SiftedOnce(start, loaded, t, i);
      ReachesTrans(start, loaded, rt.Now());
    }
  }

  /** Publish one barrier packet for every five dependencies left: together the packets name
      exactly these dependencies, in order. */
  method RegisterDependencies(rt: Runtime, t: nat, i: nat, ghost l: Launch)
    requires rt.Valid() && Working(rt.Now(), t, i, l) && rt.launches[t].stage.Registering?
    modifies rt
    ensures rt.Valid() && Reaches(old(rt.Now()), rt.Now()) && Working(rt.Now(), t, i, l)
    ensures rt.launches[t].stage == Registering([])
    ensures old(LaunchQueue(rt.Now(), t).gpu.log) <= LaunchQueue(rt.Now(), t).gpu.log
    ensures BarriersFrom(LaunchQueue(rt.Now(), t).gpu.log, |old(LaunchQueue(rt.Now(), t).gpu.log)|,
                         EventSignals(old(rt.launches[t].stage.todo)))
  {
    hide Good, Reaches, Working, BarriersFrom, EventSignals, Head, Rest;
    ghost var start := rt.Now();
    WorkingLaunch(start, t, i, l);
    ghost var log := LaunchQueue(start, t).gpu.log;
    ReachesSelf(start);
    NoneYet(log);
    ghost var named: seq<Signal>, all := [], EventSignals(rt.launches[t].stage.todo);
    while rt.launches[t].stage.todo != []
      invariant rt.Valid() && Reaches(start, rt.Now()) && Working(rt.Now(), t, i, l) && HasLaunch(rt.Now(), t)
      invariant rt.launches[t].stage.Registering?
      invariant log <= LaunchQueue(rt.Now(), t).gpu.log && BarriersFrom(LaunchQueue(rt.Now(), t).gpu.log, |log|, named)
      invariant named + EventSignals(rt.launches[t].stage.todo) == all
      decreases |rt.launches[t].stage.todo|
    {
      ghost var before, todo := rt.Now(), rt.launches[t].stage.todo;
      RegisterOne(rt, t, i, l, log, named);
      ReachesTrans(start, before, rt.Now());
      SignalsSplit(todo);
      named := named + EventSignals(Head(todo));
    }
    assert named == all by { assert EventSignals(rt.launches[t].stage.todo) == []; }
  }

  /** One barrier packet for the next five dependencies. */
  method RegisterOne(rt: Runtime, t: nat, i: nat, ghost l: Launch, ghost log: Log, ghost named: seq<Signal>)
    requires rt.Valid() && Working(rt.Now(), t, i, l) && rt.launches[t].stage.Registering?
    requires rt.launches[t].stage.todo != []
    requires log <= LaunchQueue(rt.Now(), t).gpu.log && BarriersFrom(LaunchQueue(rt.Now(), t).gpu.log, |log|, named)
    modifies rt
    ensures rt.Valid() && Reaches(old(rt.Now()), rt.Now()) && Working(rt.Now(), t, i, l) && HasLaunch(rt.Now(), t)
    ensures rt.launches[t].stage == Registering(Rest(old(rt.launches[t].stage.todo)))
    ensures log <= LaunchQueue(rt.Now(), t).gpu.log
    ensures BarriersFrom(LaunchQueue(rt.Now(), t).gpu.log, |log|,
                         named + EventSignals(Head(old(rt.launches[t].stage.todo))))
  {
    hide Good, Reaches, HardwareOnly, BarriersFrom, DoLaunchBarrier, EventSignals, Head, Rest;
    ghost var start := rt.Now();
    rt.Hardware();
    LaunchUndisturbed(start, rt.Now(), t);
    ghost var loaded := rt.Now();
    rt.Perform(ByLaunching(LaunchBarrier(t, i)));
    BarrierStep(loaded, t, i, |log|, named);
    ReachesTrans(start, loaded, rt.Now());
  }

  /** From the capacity gate to the dispatch (launch_impl after the gate): take a signal and
      a kernarg buffer, drop the dependencies that need no barrier, publish the rest five
      per packet, publish the dispatch, release the lock.  The new packets are barrier
      packets followed by one dispatch that carries the whole dependency list.  The barrier
      packets name dependencies of the launch only. */
  method PublishLaunch(rt: Runtime, t: nat, k: nat) returns (ghost todo: seq<nat>)
    requires rt.Valid() && CanLaunchAcquire(rt.Now(), t, k) && !rt.launches[t].direct
    modifies rt
    ensures rt.Valid() && Reaches(old(rt.Now()), rt.Now()) && t !in rt.launches
    ensures old(rt.launches[t].queue) < |rt.queues| && rt.queues[old(rt.launches[t].queue)].holder == Unlocked
    ensures LaunchPublished(old(LaunchQueue(rt.Now(), t).gpu.log), rt.queues[old(rt.launches[t].queue)].gpu.log,
                            old(rt.launches[t].awaits), todo)
    ensures forall e :: e in todo ==> e in old(rt.launches[t].deps)
  {
    hide Good, Reaches, BarriersFrom, DoLaunchAcquire, DoLaunchDispatch, Sifted;
    ghost var start := rt.Now();
    var i := |rt.queues[rt.launches[t].queue].inFlight|;
    rt.Perform(ByLaunching(LaunchAcquire(t, k)));
    AcquireStep(start, t, k);
    ghost var acquired := rt.Now();
    ScanDependencies(rt, t, i, start.launches[t]);
    ReachesTrans(start, acquired, rt.Now());
    ghost var scanned := rt.Now();
    todo := rt.launches[t].stage.todo;
    SiftedTodo(acquired, scanned, t, start.launches[t].deps);
    RegisterDependencies(rt, t, i, start.launches[t]);
    ReachesTrans(start, scanned, rt.Now());
    ghost var ready := rt.Now();
    rt.Perform(ByLaunching(LaunchDispatch(t, i)));
    DispatchStep(ready, t, i);
    ReachesTrans(start, ready, rt.Now());
    PublishedBy(LaunchQueue(start, t).gpu.log, LaunchQueue(ready, t).gpu.log,
                rt.queues[start.launches[t].queue].gpu.log, start.launches[t].awaits, todo);
  }

  /** The log grew by barrier packets that name `todo` and then one dispatch that awaits the
      list. */
  ghost predicate LaunchPublished(log: Log, log': Log, awaits: seq<Occurrence>, todo: seq<nat>) {
    && log < log'
    && BarriersFrom(log'[..|log'| - 1], |log|, EventSignals(todo))
    && log'[|log'| - 1].Dispatch?
    && log'[|log'| - 1].awaits == awaits
  }

  lemma PublishedBy(log: Log, mid: Log, log': Log, awaits: seq<Occurrence>, todo: seq<nat>)
    requires log <= mid && BarriersFrom(mid, |log|, EventSignals(todo)) && mid < log' && |log'| == |mid| + 1
    requires log'[|mid|].Dispatch? && log'[|mid|].awaits == awaits
    ensures LaunchPublished(log, log', awaits, todo)
  {
    assert log'[..|log'| - 1] == mid;
  }

  lemma NoneYet(log: Log)
    ensures BarriersFrom(log, |log|, [])
  {
  }

  // ------------------------------------------------------------- synchronization

  /** Packets `from` and later are this synchronization's, and name exactly the given
      signals. */
  ghost predicate SyncPackets(log: Log, from: nat, c: nat, signals: seq<Signal>) {
    && from <= |log| && Deps(log, from) == signals
    && (forall p :: from <= p < |log| ==> CompletesSync(log[p], c) && |log[p].deps| <= 5)
  }

  lemma SyncUndisturbed(s: State, s': State, q: nat)
    requires HardwareOnly(s, s') && q < |s.queues|
    ensures q < |s'.queues| && HostSame(s.queues[q], s'.queues[q])
    ensures Falls(s.queues[q], s.events, s'.queues[q], s'.events)
    ensures |s'.events| == |s.events|
  {
  }

  lemma SyncStep(s: State, q: nat, from: nat, done: seq<Signal>)
    requires CanSyncBarrier(s, q) && SyncPackets(s.queues[q].gpu.log, from, s.queues[q].holder.completion, done)
    ensures var s' := DoSyncBarrier(s, q); var h := s.queues[q].holder;
      && q < |s'.queues| && s'.queues[q].holder == h.(signals := Rest(h.signals)) && |s'.events| == |s.events|
      && s.queues[q].gpu.log < s'.queues[q].gpu.log
      && SyncPackets(s'.queues[q].gpu.log, from, h.completion, done + Head(h.signals))
  {
    hide RetainActive, RetainAll, Deps;
    DepsAppend(s.queues[q].gpu.log, from, Head(s.queues[q].holder.signals),
               Some(SyncSignal(s.queues[q].holder.completion)));
  }

  lemma NothingNamed(log: Log, c: nat)
    ensures SyncPackets(log, |log|, c, [])
  {
  }

  /** The signals of the pending dispatches. */
  function DispatchSignals(pd: seq<PendingDispatch>): (r: seq<Signal>)
    ensures |r| == |pd|
    ensures forall i :: 0 <= i < |pd| ==> r[i] == DispatchSignal(pd[i].signal)
  {
    seq(|pd|, i requires 0 <= i < |pd| => DispatchSignal(pd[i].signal))
  }

  datatype SyncResult = NothingPending | QueueFull | Enqueued(completion: nat)

  /** The list collected so far: every pending dispatch, and of the events looked at
      those that had not completed, so that what is listed had not completed when the
      collection began (`was`) and what is left out has completed by now. */
  ghost predicate Collected(was: Events, q: Queue, events: Events, n: nat, signals: seq<Signal>) {
    && n <= |q.pendingEvents|
    && |events| == |was| && (forall e :: 0 <= e < |was| && was[e].signal == 0 ==> events[e].signal == 0)
    && (forall d :: d in q.pendingDispatches ==> DispatchSignal(d.signal) in signals)
    && (forall x :: x in signals ==>
          match x
          case DispatchSignal(h) => h in Signals(q.pendingDispatches)
          case SyncSignal(_) => false
          case EventSignal(e) => e in q.pendingEvents && e < |was| && was[e].signal != 0)
    && (forall i :: 0 <= i < n && EventSignal(q.pendingEvents[i]) !in signals ==>
          q.pendingEvents[i] < |events| && events[q.pendingEvents[i]].signal == 0)
  }

  lemma CollectedStart(q: Queue, events: Events)
    ensures Collected(events, q, events, 0, DispatchSignals(q.pendingDispatches))
  {
    var r := DispatchSignals(q.pendingDispatches);
    forall d | d in q.pendingDispatches ensures DispatchSignal(d.signal) in r {
      var i :| 0 <= i < |q.pendingDispatches| && q.pendingDispatches[i] == d;
      assert r[i] == DispatchSignal(d.signal);
    }
    forall x | x in r ensures x.DispatchSignal? && x.handle in Signals(q.pendingDispatches) {
      var i :| 0 <= i < |r| && r[i] == x;
      assert Signals(q.pendingDispatches)[i] == x.handle;
    }
  }

  lemma CollectedFalls(was: Events, q: Queue, events: Events, q': Queue, events': Events, n: nat, signals: seq<Signal>)
    requires Collected(was, q, events, n, signals) && HostSame(q, q') && Falls(q, events, q', events')
    requires |events'| == |events|
    ensures Collected(was, q', events', n, signals)
  {
    forall e | 0 <= e < |was| && was[e].signal == 0 ensures events'[e].signal == 0 {
      assert IsZero(q, events, EventSignal(e));
      assert IsZero(q', events', EventSignal(e));
    }
    forall i | 0 <= i < n && EventSignal(q.pendingEvents[i]) !in signals
      ensures q.pendingEvents[i] < |events'| && events'[q.pendingEvents[i]].signal == 0
    {
      assert IsZero(q, events, EventSignal(q.pendingEvents[i]));
      assert IsZero(q', events', EventSignal(q.pendingEvents[i]));
    }
  }

  /** Every pending event of the queue is a live event. */
  lemma ListedInRange(s: State, q: nat)
    requires Good(s) && q < |s.queues|
    ensures forall e :: e in s.queues[q].pendingEvents ==> e < |s.events|
  {
    hide Good;
    forall e | e in s.queues[q].pendingEvents ensures e < |s.events| {
      var i :| 0 <= i < |s.queues[q].pendingEvents| && s.queues[q].pendingEvents[i] == e;
      ListedEvent(s, q, i);
    }
  }

  lemma CollectedAll(was: Events, q: Queue, events: Events, signals: seq<Signal>)
    requires Collected(was, q, events, |q.pendingEvents|, signals)
    ensures forall e :: e in q.pendingEvents && EventSignal(e) !in signals ==> e < |events| && events[e].signal == 0
  {
    forall e | e in q.pendingEvents && EventSignal(e) !in signals ensures e < |events| && events[e].signal == 0 {
      var i :| 0 <= i < |q.pendingEvents| && q.pendingEvents[i] == e;
    }
  }

  /** Collect the signals of all unfinished work on the queue. */
  method CollectUnfinished(rt: Runtime, q: nat) returns (signals: seq<Signal>)
    requires rt.Valid() && Free(rt.Now(), q)
    modifies rt
    ensures rt.Valid() && Reaches(old(rt.Now()), rt.Now()) && q < |rt.queues|
    ensures HostFields(old(rt.queues[q]), rt.queues[q])
    ensures Collected(old(rt.events), rt.queues[q], rt.events, |rt.queues[q].pendingEvents|, signals)
  {
    hide Good, Reaches, HardwareOnly, Falls, HostSame, Collected;
    ghost var start := rt.Now();
    ReachesSelf(start);
    signals := DispatchSignals(rt.queues[q].pendingDispatches);
    CollectedStart(rt.queues[q], rt.events);
    var index := 0;
    while index < |rt.queues[q].pendingEvents|
      invariant rt.Valid() && Reaches(start, rt.Now()) && q < |rt.queues|
      invariant HostFields(start.queues[q], rt.queues[q])
      invariant index <= |rt.queues[q].pendingEvents|
      invariant Collected(start.events, rt.queues[q], rt.events, index, signals)
      decreases |start.queues[q].pendingEvents| - index
    {
      ghost var before := rt.Now();
      rt.Hardware();
      ReachesTrans(start, before, rt.Now());
      SyncUndisturbed(before, rt.Now(), q);
      CollectedFalls(start.events, before.queues[q], before.events, rt.queues[q], rt.events, index, signals);
      HostFieldsOf(before.queues[q], rt.queues[q]);
      ListedInRange(rt.Now(), q);
      var event := rt.queues[q].pendingEvents[index];
      assert event in rt.queues[q].pendingEvents;
      CollectOne(start.events, rt.queues[q], rt.events, index, signals);
      if rt.events[event].signal != 0 {
        signals := signals + [EventSignal(event)];
      }
      index := index + 1;
    }
  }

  /** Publish the packets of a synchronization that has begun, then register it. */
  method PublishSynchronization(rt: Runtime, q: nat)
    requires rt.Valid() && q < |rt.queues| && rt.queues[q].holder.BySync? && rt.queues[q].holder.signals != []
    modifies rt
    ensures rt.Valid() && Reaches(old(rt.Now()), rt.Now()) && q < |rt.queues| && rt.queues[q].holder == Unlocked
    ensures old(rt.queues[q].gpu.log) < rt.queues[q].gpu.log
    ensures SyncPackets(rt.queues[q].gpu.log, |old(rt.queues[q].gpu.log)|, old(rt.queues[q].holder.completion),
                        old(rt.queues[q].holder.signals))
    ensures rt.queues[q].pendingSyncs != []
      && rt.queues[q].pendingSyncs[|rt.queues[q].pendingSyncs| - 1].completion == old(rt.queues[q].holder.completion)
  {
    hide Good, Reaches, HardwareOnly, Falls, HostSame, SyncPackets, DoSyncBarrier;
    ghost var start := rt.Now();
    ghost var h, log := rt.queues[q].holder, rt.queues[q].gpu.log;
    ReachesSelf(start);
    ghost var named: seq<Signal> := [];
    NothingNamed(log, h.completion);
    while rt.queues[q].holder.signals != []
      invariant rt.Valid() && Reaches(start, rt.Now()) && q < |rt.queues|
      invariant rt.queues[q].holder.BySync? && rt.queues[q].holder.completion == h.completion
      invariant log <= rt.queues[q].gpu.log && named + rt.queues[q].holder.signals == h.signals
      invariant SyncPackets(rt.queues[q].gpu.log, |log|, h.completion, named)
      invariant rt.queues[q].holder.signals == [] ==> log < rt.queues[q].gpu.log
      decreases |rt.queues[q].holder.signals|
    {
      ghost var before := rt.Now();
      rt.Hardware();
      ReachesTrans(start, before, rt.Now());
      SyncUndisturbed(before, rt.Now(), q);
      HostFieldsOf(before.queues[q], rt.queues[q]);
      ghost var loaded := rt.Now();
      rt.Perform(BySyncing(SyncBarrier(q)));
      SyncStep(loaded, q, |log|, named);
      ReachesTrans(start, loaded, rt.Now());
      named := named + Head(loaded.queues[q].holder.signals);
    }
    ghost var published := rt.Now();
    assert named == h.signals;
    rt.Perform(BySyncing(SyncEnd(q)));
    ReachesTrans(start, published, rt.Now());
  }

  /** One attempt of enqueue_queue_synchronization_locked on a queue that was just reaped:
      collect the unfinished work, publish barrier packets that name exactly that and share
      one completion signal, register the synchronization.  `at` is the state in which the
      collection ended. */
  method EnqueueQueueSynchronization(rt: Runtime, q: nat)
    returns (r: SyncResult, ghost signals: seq<Signal>, ghost at: State)
    requires rt.Valid() && Free(rt.Now(), q) && rt.queues[q].lifecycle == Live
    modifies rt
    ensures rt.Valid() && Reaches(old(rt.Now()), rt.Now()) && q < |rt.queues| && rt.queues[q].holder == Unlocked
    ensures q < |at.queues| && HostFields(old(rt.queues[q]), at.queues[q])
    ensures Collected(old(rt.events), at.queues[q], at.events, |at.queues[q].pendingEvents|, signals)
    ensures r.Enqueued? ==>
      && old(rt.queues[q].gpu.log) < rt.queues[q].gpu.log
      && SyncPackets(rt.queues[q].gpu.log, |old(rt.queues[q].gpu.log)|, r.completion, signals)
      && rt.queues[q].pendingSyncs != []
      && rt.queues[q].pendingSyncs[|rt.queues[q].pendingSyncs| - 1].completion == r.completion
    ensures r.NothingPending? ==>
      rt.queues[q].pendingDispatches == [] && rt.queues[q].gpu.log == old(rt.queues[q].gpu.log)
      && forall e :: e in rt.queues[q].pendingEvents ==> e < |rt.events| && rt.events[e].signal == 0
    ensures r.QueueFull? ==> rt.queues[q].gpu.log == old(rt.queues[q].gpu.log)
  {
    hide Good, Reaches, Collected, SyncPackets, CanSyncBegin;
    ghost var start := rt.Now();
    var unfinished := CollectUnfinished(rt, q);
    signals, at := unfinished, rt.Now();
    if unfinished == [] {
      NothingCollected(start.events, rt.queues[q], rt.events, |rt.queues[q].pendingEvents|);
      CollectedAll(start.events, rt.queues[q], rt.events, signals);
      return NothingPending, signals, at;
    }
    if PendingCount(rt.queues[q]) + Chunks(|unfinished|) > rt.queues[q].size {
      return QueueFull, signals, at;
    }
    ghost var collected := rt.Now();
    CollectedEnables(start.events, collected, q, signals);
    r := Enqueued(|rt.queues[q].syncValues|);
    rt.Perform(BySyncing(SyncBegin(q, unfinished)));
    ReachesTrans(start, collected, rt.Now());
    ghost var begun := rt.Now();
    PublishSynchronization(rt, q);
    ReachesTrans(start, begun, rt.Now());
  }

  /** The fields of a queue only the host changes, as far as submission needs them. */
  ghost predicate HostFields(q: Queue, q': Queue) {
    && q'.gpu.log == q.gpu.log && q'.holder == q.holder && q'.lifecycle == q.lifecycle && q'.size == q.size
    && q'.pendingDispatches == q.pendingDispatches && q'.pendingEvents == q.pendingEvents
      && q'.pendingBarriers == q.pendingBarriers
    && q'.pendingSyncs == q.pendingSyncs
  }

  lemma HostFieldsOf(q: Queue, q': Queue)
    requires HostSame(q, q')
    ensures HostFields(q, q')
  {
  }

  lemma CollectOne(was: Events, q: Queue, events: Events, n: nat, signals: seq<Signal>)
    requires Collected(was, q, events, n, signals) && n < |q.pendingEvents| && q.pendingEvents[n] < |events|
    ensures events[q.pendingEvents[n]].signal != 0 ==>
      Collected(was, q, events, n + 1, signals + [EventSignal(q.pendingEvents[n])])
    ensures events[q.pendingEvents[n]].signal == 0 ==> Collected(was, q, events, n + 1, signals)
  {
  }

  lemma NothingCollected(was: Events, q: Queue, events: Events, n: nat)
    requires Collected(was, q, events, n, [])
    ensures q.pendingDispatches == []
  {
    if q.pendingDispatches != [] { FirstDispatch(q.pendingDispatches); }
  }

  lemma FirstDispatch(pd: seq<PendingDispatch>)
    requires pd != []
    ensures exists d :: d in pd
  {
    assert pd[0] in pd;
  }

  lemma CollectedEnables(was: Events, s: State, q: nat, signals: seq<Signal>)
    requires Free(s, q) && s.queues[q].lifecycle == Live && signals != []
    requires Collected(was, s.queues[q], s.events, |s.queues[q].pendingEvents|, signals)
    requires PendingCount(s.queues[q]) + Chunks(|signals|) <= s.queues[q].size
    ensures CanSyncBegin(s, q, signals)
  {
    CollectedAll(was, s.queues[q], s.events, signals);
  }
}
