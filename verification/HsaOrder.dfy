/** What a launch, an asynchronous copy and a record promise about the arguments of the call
    itself: from the call on, over every run, the work starts or finishes only after
    everything it was asked to wait for. */
module HsaOrder {
  import opened HsaState
  import opened HsaSteps
  import opened HsaAccounting
  import opened HsaRuns
  import opened HsaProgress
  import opened HsaSafety
  import HsaTheorems

  // ------------------------------------------------------------------- launches

  predicate EndsLaunch(a: Step, t: nat) {
    a.ByLaunching? && (a.launching.LaunchDispatch? || a.launching.LaunchFail? || a.launching.LaunchAbandon?)
    && a.launching.t == t
  }

  lemma LaunchContinues(s: State, a: Step, t: nat)
    requires Enabled(s, a) && t in s.launches && !EndsLaunch(a, t)
    ensures t in Apply(s, a).launches
    ensures Apply(s, a).launches[t] == s.launches[t].(stage := Apply(s, a).launches[t].stage)
  {
    match a
    case ByLaunching(x) => LaunchKept(s, x, t); LaunchStableOwn(s, x, t);
    case ByDevice(x) => DeviceLaunches(s, x);
    case ByReap(x) => ReapLaunches(s, x);
    case ByRecording(x) => RecordingLaunches(s, x);
    case BySyncing(x) => SyncingLaunches(s, x);
  }

  lemma LaunchKept(s: State, a: LaunchStep, t: nat)
    requires LaunchingEnabled(s, a) && t in s.launches && !EndsLaunch(ByLaunching(a), t)
    ensures t in LaunchingApply(s, a).launches
  {
    hide Acquire, HasCapacity, Chunks, Bound, NeedsBarrier, PublishDependencies, RetainAll, Awaits;
  }

  lemma {:induction false} RunContinues(s: State, steps: seq<Step>, m: State, t: nat)
    requires Run(s, steps, m) && t in s.launches && forall a :: a in steps ==> !EndsLaunch(a, t)
    ensures t in m.launches && m.launches[t] == s.launches[t].(stage := m.launches[t].stage)
    decreases |steps|
  {
    hide Enabled, Apply, EndsLaunch;
    if steps != [] {
      assert !EndsLaunch(steps[0], t);
      LaunchContinues(s, steps[0], t);
      RunContinues(Apply(s, steps[0]), steps[1..], m, t);
    }
  }

  /** Logs only grow over a run; completed packets and recordings stay completed. */
  lemma {:induction false} RunAdvances(s: State, steps: seq<Step>, s': State, q: nat, e: nat)
    requires Good(s) && Run(s, steps, s')
    ensures q < |s.queues| ==>
      && q < |s'.queues| && s.queues[q].gpu.log <= s'.queues[q].gpu.log
      && s.queues[q].gpu.done <= s'.queues[q].gpu.done
    ensures e < |s.events| ==> e < |s'.events| && s.events[e].finished <= s'.events[e].finished
    decreases |steps|
  {
    hide Enabled, Apply, Good;
    if steps != [] {
      KeepStep(s, steps[0]);
      StepAdvances(s, steps[0]);
      RunAdvances(Apply(s, steps[0]), steps[1..], s', q, e);
    }
  }

  lemma DispatchPublished(m: State, t: nat, i: nat)
    requires CanLaunchDispatch(m, t, i)
    ensures m.launches[t].queue < |m.queues| == |DoLaunchDispatch(m, t, i).queues|
    ensures var q := m.launches[t].queue;
            var log := DoLaunchDispatch(m, t, i).queues[q].gpu.log;
            && |log| == |m.queues[q].gpu.log| + 1
            && log[|log| - 1].Dispatch? && log[|log| - 1].awaits == m.launches[t].awaits
            && (m.launches[t].hasDeps && !m.launches[t].implicit ==> log[|log| - 1].barrierBit)
  {
  }

  ghost predicate TakenOrNext(g: Gpu, p: nat) {
    p < |g.log| && (p < g.taken || (p == g.taken && CanTake(g)))
  }

  /** From the collection `s0` of a launch that awaits the given recordings: whenever the packet
      it publishes at position p of its queue is taken, or may be taken next, they completed. */
  lemma {:induction false} Published(s0: State, t: nat, o: Occurrence, before: seq<Step>, m: State, i: nat,
                                     after: seq<Step>, s': State)
    requires Reachable(s0) && t in s0.launches && o in s0.launches[t].awaits
    requires Run(s0, before, m) && forall a :: a in before ==> !EndsLaunch(a, t)
    requires CanLaunchDispatch(m, t, i) && Run(DoLaunchDispatch(m, t, i), after, s')
    ensures var q := s0.launches[t].queue;
            && q < |m.queues| && q < |s'.queues|
            && var p := |m.queues[q].gpu.log|;
               && p < |s'.queues[q].gpu.log| && s'.queues[q].gpu.log[p].Dispatch?
               && (TakenOrNext(s'.queues[q].gpu, p) ==> o.event < |s'.events| && o.epoch in s'.events[o.event].finished)
  {
    hide Run, Reachable, Good, EndsLaunch, DoLaunchDispatch;
    RunContinues(s0, before, m, t);
    var q, s2 := s0.launches[t].queue, DoLaunchDispatch(m, t, i);
    var p := |m.queues[q].gpu.log|;
    DispatchPublished(m, t, i);
    RunReaches(s0, before, m);
    DispatchReaches(m, t, i);
    RunReaches(s2, after, s');
    ReachableTrans(s0, m);
    ReachableTrans(m, s2);
    ReachableTrans(s2, s');
    ReachableGood(s2);
    RunAdvances(s2, after, s', q, 0);
    if TakenOrNext(s'.queues[q].gpu, p) { HsaTheorems.DispatchOrder(s', q, p, o); }
  }

  lemma RunReaches(s: State, steps: seq<Step>, s': State)
    requires Run(s, steps, s')
    ensures Reaches(s, s')
  {
    hide Run;
  }

  lemma DispatchReaches(m: State, t: nat, i: nat)
    requires CanLaunchDispatch(m, t, i)
    ensures Reaches(m, DoLaunchDispatch(m, t, i))
  {
    hide Reaches;
    ReachesStep(m, ByLaunching(LaunchDispatch(t, i)));
  }

  lemma ReachableTrans(s: State, s': State)
    requires Reachable(s) && Reaches(s, s')
    ensures Reachable(s')
  {
    hide Reaches;
    ReachesTrans(Init(), s, s');
  }

  /** What one launch call promises about the list the caller passed. */
  ghost predicate Waits(s: State, explicit: seq<nat>, q: nat, m: State, s': State) {
    && q < |m.queues| && q < |s'.queues|
    && |m.queues[q].gpu.log| < |s'.queues[q].gpu.log|
    && s'.queues[q].gpu.log[|m.queues[q].gpu.log|].Dispatch?
    && (TakenOrNext(s'.queues[q].gpu, |m.queues[q].gpu.log|) ==>
          forall e :: e in explicit ==>
            e < |s.events| && e < |s'.events| && s.events[e].epoch in s'.events[e].finished)
  }

  lemma AwaitsEach(s: State, explicit: seq<nat>, e: nat)
    requires ValidDeps(s, explicit) && e in explicit
    ensures Occurrence(e, s.events[e].epoch) in Awaits(s, explicit)
  {
    var i :| 0 <= i < |explicit| && explicit[i] == e;
    assert Awaits(s, explicit)[i] == Occurrence(e, s.events[e].epoch);
  }

  /** A launch on a queue, from the moment it collects its dependencies: however many there
      are, whatever other threads and the hardware do before and after it publishes its
      dispatch, the dispatch starts only after the recording that each event of the caller's
      list had at the call has completed.  A dispatch with dependencies left to wait for also
      carries the barrier bit. */
  lemma {:induction false} LaunchWaits(s: State, t: nat, q: nat, explicit: seq<nat>, deps: seq<nat>,
                                       before: seq<Step>, m: State, i: nat, after: seq<Step>, s': State)
    requires Reachable(s) && CanLaunchCollect(s, t, q, explicit, deps)
    requires Run(DoLaunchCollect(s, t, q, explicit, deps), before, m)
    requires forall a :: a in before ==> !EndsLaunch(a, t)
    requires CanLaunchDispatch(m, t, i) && Run(DoLaunchDispatch(m, t, i), after, s')
    ensures Waits(s, explicit, q, m, s')
    ensures deps != [] ==> s'.queues[q].gpu.log[|m.queues[q].gpu.log|].barrierBit
  {
    hide Run, Reachable, EndsLaunch, DoLaunchDispatch, CanLaunchDispatch, TakenOrNext, Awaits;
    var s0 := DoLaunchCollect(s, t, q, explicit, deps);
    ReachesStep(s, ByLaunching(LaunchCollect(t, q, explicit, deps)));
    ReachableTrans(s, s0);
    LaunchPlace(s0, t, before, m, i, after, s');
    forall e | e in explicit && TakenOrNext(s'.queues[q].gpu, |m.queues[q].gpu.log|)
      ensures e < |s'.events| && s.events[e].epoch in s'.events[e].finished
    {
      AwaitsEach(s, explicit, e);
      Published(s0, t, Occurrence(e, s.events[e].epoch), before, m, i, after, s');
    }
  }

  /** The same for a launch on the default queue.  A launch with implicit dependencies also
      waits for every copy that was pending at the call. */
  lemma {:induction false} DefaultLaunchWaits(s: State, t: nat, q: nat, explicit: seq<nat>, deps: seq<nat>,
                                              hasDeps: bool,
                                              implicit: bool, k: nat, before: seq<Step>, m: State, i: nat,
                                              after: seq<Step>, s': State)
    requires Reachable(s) && CanDefaultCollect(s, t, q, explicit, deps, hasDeps, implicit, k)
    requires Run(DoDefaultCollect(s, t, q, explicit, deps, hasDeps, implicit, k), before, m)
    requires forall a :: a in before ==> !EndsLaunch(a, t)
    requires CanLaunchDispatch(m, t, i) && Run(DoLaunchDispatch(m, t, i), after, s')
    ensures Waits(s, explicit, q, m, s')
    ensures hasDeps && !implicit ==> s'.queues[q].gpu.log[|m.queues[q].gpu.log|].barrierBit
    ensures implicit && TakenOrNext(s'.queues[q].gpu, |m.queues[q].gpu.log|) ==>
      forall e :: 0 <= e < |s.events| && s.events[e].pending && s.events[e].copy ==>
        e < |s'.events| && s.events[e].epoch in s'.events[e].finished
  {
    hide Run, Reachable, EndsLaunch, DoLaunchDispatch, CanLaunchDispatch, TakenOrNext, Awaits, Acquire;
    var s0 := DoDefaultCollect(s, t, q, explicit, deps, hasDeps, implicit, k);
    ReachesStep(s, ByLaunching(DefaultCollect(t, q, explicit, deps, hasDeps, implicit, k)));
    ReachableTrans(s, s0);
    LaunchPlace(s0, t, before, m, i, after, s');
    forall e | e in explicit && TakenOrNext(s'.queues[q].gpu, |m.queues[q].gpu.log|)
      ensures e < |s'.events| && s.events[e].epoch in s'.events[e].finished
    {
      AwaitsEach(s, explicit, e);
      Published(s0, t, Occurrence(e, s.events[e].epoch), before, m, i, after, s');
    }
  }

  /** The dispatch stands at the end of the queue's log at the moment it is published. */
  lemma {:induction false} LaunchPlace(s0: State, t: nat, before: seq<Step>, m: State, i: nat, after: seq<Step>,
                                       s': State)
    requires Reachable(s0) && t in s0.launches
    requires Run(s0, before, m) && forall a :: a in before ==> !EndsLaunch(a, t)
    requires CanLaunchDispatch(m, t, i) && Run(DoLaunchDispatch(m, t, i), after, s')
    ensures var q := s0.launches[t].queue;
            && q < |m.queues| && q < |s'.queues| && |m.queues[q].gpu.log| < |s'.queues[q].gpu.log|
            && s'.queues[q].gpu.log[|m.queues[q].gpu.log|].Dispatch?
            && (s0.launches[t].hasDeps && !s0.launches[t].implicit ==>
                  s'.queues[q].gpu.log[|m.queues[q].gpu.log|].barrierBit)
  {
    hide Run, Reachable, Good, EndsLaunch, DoLaunchDispatch;
    RunContinues(s0, before, m, t);
    var q, s2 := s0.launches[t].queue, DoLaunchDispatch(m, t, i);
    DispatchPublished(m, t, i);
    RunReaches(s0, before, m);
    DispatchReaches(m, t, i);
    ReachableTrans(s0, m);
    ReachableTrans(m, s2);
    ReachableGood(s2);
    RunAdvances(s2, after, s', q, 0);
  }
}
