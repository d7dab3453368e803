/** Whole runs of the hsakmt backend: every interleaving of hardware steps with the host's
    locked operations, from an empty runtime. */
module HsakmtRuns {
  import opened Common
  import opened Hsakmt
  import opened HsakmtOps

  datatype Step =
    | Gpu(gpu: GpuStep)
    | NewQueue
    | NewEvent
    | ReapBarrier(q: nat, i: nat)
    | ReapDispatch(q: nat)
    | Finish(e: nat)
    | Submit(q: nat, deps: seq<nat>, completion: Option<nat>)
    | RefusedSubmit(q: nat, deps: seq<nat>, completion: Option<nat>)
    | Record(q: nat, e: nat)
    | RefusedRecord(q: nat, e: nat)
    | Destroy(e: nat)

  function Init(): State {
    State([], [])
  }

  function FreshQueue(): Queue {
    Queue([], 0, {}, [], [], [], [])
  }

  /** An event's signal is created with the value one. */
  function FreshEvent(): Event {
    Event(1, false, false, None, 0, 0, false)
  }

  /** What a refused submission leaves: the signal of the event it had armed is zero. */
  function Failed(events: Events, completion: Option<nat>): Events {
    if completion.Some? && completion.value < |events|
    then events[completion.value := events[completion.value].(signal := 0)] else events
  }

  function GiveBack(events: Events, e: nat): Events
    requires e < |events|
  {
    events[e := events[e].(released := true)]
  }

  predicate Enabled(s: State, a: Step) {
    match a
    case Gpu(x) => GpuEnabled(s, x)
    case NewQueue => true
    case NewEvent => true
    case ReapBarrier(q, i) =>
      q < |s.queues| && i < |s.queues[q].barriers| && Retired(s.queues[q], s.events, s.queues[q].barriers[i])
    case ReapDispatch(q) => CanRetire(s, q)
    case Finish(e) => CanFinish(s, e)
    case Submit(q, deps, completion) => CanSubmit(s, q, deps, completion)
    case RefusedSubmit(q, deps, completion) => CanSubmit(s, q, deps, completion)
    case Record(q, e) => CanRecord(s, q, e)
    case RefusedRecord(q, e) => CanRecord(s, q, e)
    case Destroy(e) => Idle(s, e)
  }

  function Apply(s: State, a: Step): State
    requires Enabled(s, a)
  {
    match a
    case Gpu(x) => GpuNext(s, x)
    case NewQueue => s.(queues := s.queues + [FreshQueue()])
    case NewEvent => s.(events := s.events + [FreshEvent()])
    case ReapBarrier(q, i) => RetireBarrier(s, q, i)
    case ReapDispatch(q) => RetireDispatch(s, q)
    case Finish(e) => FinishEvent(s, e)
    case Submit(q, deps, completion) => Submitted(s, q, deps, completion)
    case RefusedSubmit(q, deps, completion) => s.(events := Failed(s.events, completion))
    case Record(q, e) => Recorded(s, q, e)
    case RefusedRecord(q, e) => s.(events := Failed(s.events, Some(e)))
    case Destroy(e) => s.(events := GiveBack(s.events, e))
  }

  ghost predicate Run(s: State, steps: seq<Step>, s': State)
    decreases |steps|
  {
    if steps == [] then s' == s else Enabled(s, steps[0]) && Run(Apply(s, steps[0]), steps[1..], s')
  }

  ghost predicate Reachable(s: State) {
    exists steps :: Run(Init(), steps, s)
  }

  // -------------------------------------------------------- every step keeps the invariant

  lemma {:induction false} UsesNone(bs: seq<Pending>, e: nat)
    requires forall i :: 0 <= i < |bs| ==> e !in bs[i].deps
    ensures Uses(bs, e) == 0
  {
    if bs != [] { UsesNone(bs[..|bs| - 1], e); }
  }

  /** No barrier names an event that does not exist yet. */
  lemma {:induction false} UnusedEvent(queues: seq<Queue>, events: Events)
    requires forall q :: 0 <= q < |queues| ==>
      BarriersOk(queues[q].log, events, queues[q].dispatches, queues[q].barriers)
    ensures AllUses(queues, |events|) == 0
  {
    if queues != [] {
      var n := |queues| - 1;
      UnusedEvent(queues[..n], events);
      UsesNone(queues[n].barriers, |events|);
    }
  }

  lemma MoreEvents(qi: nat, q: Queue, events: Events)
    requires QueueOk(qi, q, events)
    ensures QueueOk(qi, q, events + [FreshEvent()])
  {
    var events' := events + [FreshEvent()];
    forall i | 0 <= i < |q.dispatches| ensures DispatchOk(qi, q.log, q.done, q.values, events', q.dispatches[i]) {
      assert DispatchOk(qi, q.log, q.done, q.values, events, q.dispatches[i]);
    }
    forall e | e in q.pendingEvents ensures EventOk(qi, q.log, q.done, events', e) {
      assert EventOk(qi, q.log, q.done, events, e);
    }
    forall p: nat, e: nat | p < |q.log| && p !in q.done && Completes(q.log[p], e)
      ensures PendingBy(q.pendingEvents, events', e, p)
    {
      assert PendingBy(q.pendingEvents, events, e, p);
    }
  }

  lemma NewEventKeeps(s: State)
    requires Inv(s)
    ensures Inv(Apply(s, NewEvent))
  {
    hide AllUses;
    var s' := Apply(s, NewEvent);
    forall q | 0 <= q < |s.queues| ensures QueueOk(q, s'.queues[q], s'.events) {
      MoreEvents(q, s.queues[q], s.events);
    }
    UnusedEvent(s.queues, s.events);
  }

  lemma NewQueueKeeps(s: State)
    requires Inv(s)
    ensures Inv(Apply(s, NewQueue))
  {
    hide QueueOk, AllUses;
    var s' := Apply(s, NewQueue);
    assert QueueOk(|s.queues|, FreshQueue(), s.events) by { EmptyQueueOk(|s.queues|, s.events); }
    forall e: nat | e < |s.events| ensures s'.events[e].depCount == AllUses(s'.queues, e) {
      OneMoreQueue(s.queues, e);
    }
  }

  lemma EmptyQueueOk(qi: nat, events: Events)
    requires RecordedOk(events, qi)
    ensures QueueOk(qi, FreshQueue(), events)
  {
  }

  lemma {:induction false} OneMoreQueue(queues: seq<Queue>, e: nat)
    ensures AllUses(queues + [FreshQueue()], e) == AllUses(queues, e)
  {
    assert (queues + [FreshQueue()])[..|queues|] == queues;
  }

  lemma FailedKeeps(s: State, completion: Option<nat>)
    requires Inv(s) && (completion.Some? ==> Idle(s, completion.value))
    ensures Inv(s.(events := Failed(s.events, completion)))
  {
    hide QueueOk, AllUses;
    var s' := s.(events := Failed(s.events, completion));
    forall k | 0 <= k < |s.queues| ensures QueueOk(k, s'.queues[k], s'.events) {
      OtherQueue(k, s.queues[k], s.events, s'.events);
    }
    SameUses(s, s');
  }

  lemma DestroyKeeps(s: State, e: nat)
    requires Inv(s) && Idle(s, e)
    ensures Inv(s.(events := GiveBack(s.events, e)))
  {
    hide QueueOk, AllUses;
    var s' := s.(events := GiveBack(s.events, e));
    forall k | 0 <= k < |s.queues| ensures QueueOk(k, s'.queues[k], s'.events) {
      OtherQueue(k, s.queues[k], s.events, s'.events);
    }
    SameUses(s, s');
  }

  lemma StepKeeps(s: State, a: Step)
    requires Inv(s) && Enabled(s, a)
    ensures Inv(Apply(s, a))
  {
    hide Inv, GpuEnabled, GpuNext, Retired, RetireBarrier, RetireDispatch, CanRetire, CanFinish, FinishEvent,
      CanSubmit, Submitted, Recorded;
    match a
    case Gpu(x) => GpuKeeps(s, x);
    case NewQueue => NewQueueKeeps(s);
    case NewEvent => NewEventKeeps(s);
    case ReapBarrier(q, i) => RetireBarrierKeeps(s, q, i);
    case ReapDispatch(q) => RetireDispatchKeeps(s, q);
    case Finish(e) => FinishKeeps(s, e);
    case Submit(q, deps, completion) => SubmitKeeps(s, q, deps, completion);
    case RefusedSubmit(q, deps, completion) => SubmitIdle(s, q, deps, completion); FailedKeeps(s, completion);
    case Record(q, e) => RecordKeeps(s, q, e);
    case RefusedRecord(q, e) => FailedKeeps(s, Some(e));
    case Destroy(e) => DestroyKeeps(s, e);
  }

  lemma SubmitIdle(s: State, q: nat, deps: seq<nat>, completion: Option<nat>)
    requires CanSubmit(s, q, deps, completion)
    ensures completion.Some? ==> Idle(s, completion.value)
  {
  }

  lemma {:induction false} RunKeeps(s: State, steps: seq<Step>, s': State)
    requires Inv(s) && Run(s, steps, s')
    ensures Inv(s')
    decreases |steps|
  {
    hide Inv, Enabled, Apply;
    if steps != [] {
      StepKeeps(s, steps[0]);
      RunKeeps(Apply(s, steps[0]), steps[1..], s');
    }
  }

  /** In every reachable state the invariant holds. */
  lemma ReachableInv(s: State)
    requires Reachable(s)
    ensures Inv(s)
  {
    var steps :| Run(Init(), steps, s);
    RunKeeps(Init(), steps, s);
  }

  lemma {:induction false} RunStep(s: State, steps: seq<Step>, m: State, a: Step)
    requires Run(s, steps, m) && Enabled(m, a)
    ensures Run(s, steps + [a], Apply(m, a))
    decreases |steps|
  {
    hide Enabled, Apply;
    if steps == [] {
      assert [a][1..] == [];
    } else {
      RunStep(Apply(s, steps[0]), steps[1..], m, a);
      assert (steps + [a])[1..] == steps[1..] + [a];
    }
  }

  lemma Start()
    ensures Reachable(Init())
  {
    assert Run(Init(), [], Init());
  }

  lemma Extend(s: State, a: Step)
    requires Reachable(s) && Enabled(s, a)
    ensures Reachable(Apply(s, a))
  {
    hide Enabled, Apply;
    var steps :| Run(Init(), steps, s);
    RunStep(Init(), steps, s, a);
  }

  // ---------------------------------------------------------------------- safety

  /** The step stores to the signal of event `e` from the host. */
  predicate Arms(a: Step, e: nat) {
    match a
    case Submit(_, _, completion) => completion == Some(e)
    case RefusedSubmit(_, _, completion) => completion == Some(e)
    case Record(_, x) => x == e
    case RefusedRecord(_, x) => x == e
    case _ => false
  }

  /** Whenever a run arms an event's signal or gives it back, no dispatch borrows it, no
      barrier entry names it, and no packet that has not completed reads or writes it. */
  lemma ArmOrReleaseSafe(s: State, a: Step, e: nat)
    requires Reachable(s) && Enabled(s, a) && (Arms(a, e) || a == Destroy(e))
    ensures e < |s.events| && Untouched(s, e)
  {
    hide Inv, Untouched, Reachable;
    ReachableInv(s);
    RearmSafe(s, e);
  }

  /** Once given back, a signal stays out of reach for the rest of the run. */
  lemma ReleasedUntouched(s: State, e: nat)
    requires Reachable(s) && e < |s.events| && s.events[e].released
    ensures Untouched(s, e)
  {
    hide QueueOk, CountsOk, Untouched, Reachable;
    ReachableInv(s);
    RearmSafe(s, e);
  }

  /** The hardware only ever stores to the signal of an event that is pending because of
      exactly that packet, and only reads signals the host has counted. */
  lemma HardwareTouches(s: State, q: nat, p: nat, e: nat)
    requires Reachable(s) && q < |s.queues| && p < |s.queues[q].log| && p !in s.queues[q].done && e < |s.events|
    ensures Completes(s.queues[q].log[p], e) ==>
      s.events[e].pending && s.events[e].recorded == Some(q) && s.events[e].packet == p && !s.events[e].released
    ensures s.queues[q].log[p].Barrier? && e in s.queues[q].log[p].deps ==>
      s.events[e].depCount > 0 && !s.events[e].released
  {
    hide CountsOk, Reachable;
    ReachableInv(s);
    var x := s.queues[q];
    assert QueueOk(q, x, s.events);
    if Completes(x.log[p], e) {
      assert PendingBy(x.pendingEvents, s.events, e, p) && EventOk(q, x.log, x.done, s.events, e);
    }
    if x.log[p].Barrier? && e in x.log[p].deps {
      assert Named(x.barriers, p);
      var i :| 0 <= i < |x.barriers| && x.barriers[i].pid == p;
      UsesAt(x.barriers, i, e);
      AllUsesAt(s.queues, q, e);
      CountAt(s, e);
    }
  }

  lemma {:induction false} CountAt(s: State, e: nat)
    requires CountsOk(s.queues, s.events) && e < |s.events|
    ensures s.events[e].depCount == AllUses(s.queues, e)
  {
  }
}
