/** `lr_free` on the HSA backend: the allocation table and the runtime of one device run
    side by side.  A copy submitted to the copy engine is unfinished in the table exactly
    as long as its event's recording is unfinished in the runtime, so the wait a free
    performs, device synchronization, is what makes the release safe. */
module HsaFree {
  import opened HsaState
  import opened HsaSteps
  import opened HsaRuns
  import opened HsaInvariant
  import opened HsaAccounting
  import opened HsaDeviceSync
  import HsaSafety
  import M = MemoryPins

  /** `link` names the event recording behind every copy submitted to this device. */
  datatype Joint = Joint(rt: State, mem: M.State, link: map<nat, Occurrence>)

  datatype JointStep =
    | Calling(call: CallStep)
    | Submit(e: nat, deps: seq<nat>, named: set<M.Key>)
    | Memory(step: M.Step)

  function Start(): Joint {
    Joint(Init(), M.Initial(), map[])
  }

  /** Nobody is synchronizing the device. */
  function NoCall(): Call {
    Call(map[], map[], {}, {}, {}, map[])
  }

  predicate Unfinished(events: seq<Event>, o: Occurrence) {
    o.event < |events| && o.epoch !in events[o.event].finished
  }

  /** The engine is done with a copy of this device once its recording has completed. */
  function Settle(device: nat, mem: M.State, link: map<nat, Occurrence>, events: seq<Event>): M.State {
    mem.(pending := map id | id in mem.pending
                             && (mem.pending[id].device == device ==> id in link && Unfinished(events, link[id]))
                    :: mem.pending[id])
  }

  predicate IsSubmission(x: CallStep) {
    x.Other? && x.step.ByRecording? && x.step.recording.CopySubmit?
  }

  /** Submission and completion of this device's copies are steps of both sides at once. */
  predicate JointEnabled(device: nat, j: Joint, c: Call, a: JointStep) {
    match a
    case Calling(x) => CallEnabled(j.rt, c, x) && !IsSubmission(x)
    case Submit(e, deps, named) => CanCopySubmit(j.rt, e, deps) && M.Can(j.mem, M.BeginAsync(device, named))
    case Memory(step) =>
      && M.Can(j.mem, step)
      && (step.BeginAsync? ==> step.device != device)
      && (step.FinishAsync? ==> j.mem.pending[step.id].device != device)
  }

  function JointNext(device: nat, j: Joint, c: Call, a: JointStep): Joint
    requires JointEnabled(device, j, c, a)
  {
    match a
    case Calling(x) =>
      var rt := NextState(j.rt, c, x);
      Joint(rt, Settle(device, j.mem, j.link, rt.events), j.link)
    case Submit(e, deps, named) =>
      Joint(DoCopySubmit(j.rt, e, deps), M.Do(j.mem, M.BeginAsync(device, named)),
            j.link[j.mem.issued := Occurrence(e, j.rt.events[e].epoch + 1)])
    case Memory(step) => j.(mem := M.Do(j.mem, step))
  }

  function JointCall(device: nat, j: Joint, c: Call, a: JointStep): Call
    requires JointEnabled(device, j, c, a)
  {
    if a.Calling? then NextCall(j.rt, c, a.call) else c
  }

  ghost predicate JointRun(device: nat, j: Joint, c: Call, steps: seq<JointStep>, j': Joint, c': Call)
    decreases |steps|
  {
    if steps == [] then j' == j && c' == c
    else
      && JointEnabled(device, j, c, steps[0])
      && JointRun(device, JointNext(device, j, c, steps[0]), JointCall(device, j, c, steps[0]), steps[1..], j', c')
  }

  // ------------------------------------------------- what the runtime sees of a run

  function Seen(steps: seq<JointStep>): seq<CallStep> {
    if steps == [] then []
    else
      match steps[0]
      case Calling(x) => [x] + Seen(steps[1..])
      case Submit(e, deps, _) => [Other(ByRecording(CopySubmit(e, deps)))] + Seen(steps[1..])
      case Memory(_) => Seen(steps[1..])
  }

  lemma SubmitSeen(s: State, c: Call, e: nat, deps: seq<nat>)
    requires CanCopySubmit(s, e, deps)
    ensures var x := Other(ByRecording(CopySubmit(e, deps)));
            CallEnabled(s, c, x) && NextState(s, c, x) == DoCopySubmit(s, e, deps) && NextCall(s, c, x) == c
  {
  }

  lemma {:induction false} RunSeen(device: nat, j: Joint, c: Call, steps: seq<JointStep>, j': Joint, c': Call)
    requires JointRun(device, j, c, steps, j', c')
    ensures CallRun(j.rt, c, Seen(steps), j'.rt, c')
    decreases |steps|
  {
    hide CallEnabled, NextState, NextCall, CanCopySubmit, DoCopySubmit, Settle, M.Can, M.Do;
    if steps != [] {
      var a := steps[0];
      RunSeen(device, JointNext(device, j, c, a), JointCall(device, j, c, a), steps[1..], j', c');
      if a.Submit? { SubmitSeen(j.rt, c, a.e, a.deps); }
      assert !a.Memory? ==> Seen(steps)[1..] == Seen(steps[1..]);
    }
  }

  lemma {:induction false} CallReaches(s: State, c: Call, steps: seq<CallStep>, s': State, c': Call)
    requires CallRun(s, c, steps, s', c')
    ensures Reaches(s, s')
    decreases |steps|
  {
    hide Reaches, NextCall, Enabled, Apply, CallEnabled;
    if steps == [] {
      ReachesSelf(s);
    } else {
      var m := NextState(s, c, steps[0]);
      if Underlying(s, c, steps[0]).Some? {
        ReachesStep(s, Underlying(s, c, steps[0]).value);
      } else {
        ReachesSelf(s);
      }
      CallReaches(m, NextCall(s, c, steps[0]), steps[1..], s', c');
      ReachesTrans(s, m, s');
    }
  }

  // -------------------------------------------------------------- the invariant

  /** The recording is the event's current one and has not completed. */
  predicate Current(events: seq<Event>, o: Occurrence) {
    && o.event < |events|
    && events[o.event].pending
    && events[o.event].epoch == o.epoch
    && o.epoch !in events[o.event].finished
  }

  ghost predicate Linked(device: nat, j: Joint) {
    forall id :: id in j.mem.pending && j.mem.pending[id].device == device ==>
      id in j.link && Current(j.rt.events, j.link[id])
  }

  ghost predicate JointOk(device: nat, j: Joint) {
    Good(j.rt) && M.Inv(j.mem) && Linked(device, j)
  }

  lemma SettleKeeps(device: nat, mem: M.State, link: map<nat, Occurrence>, events: seq<Event>)
    requires M.Inv(mem)
    ensures M.Inv(Settle(device, mem, link, events))
  {
    hide M.CountsOk, M.CopiesOk, M.FreesOk, M.MarksOk, M.RangesOk;
  }

  lemma StepLinked(device: nat, j: Joint, c: Call, x: CallStep)
    requires JointOk(device, j) && JointEnabled(device, j, c, Calling(x))
    ensures Linked(device, JointNext(device, j, c, Calling(x)))
  {
    hide Good, M.Inv, CallEnabled, Apply, Enabled;
    var events' := NextState(j.rt, c, x).events;
    forall id | id in j.mem.pending && j.mem.pending[id].device == device && Unfinished(events', j.link[id])
      ensures Current(events', j.link[id])
    {
      if Underlying(j.rt, c, x).Some? {
        HsaSafety.UnfinishedStays(j.rt, Underlying(j.rt, c, x).value, j.link[id].event);
      }
    }
  }

  lemma OthersUntouched(s: State, e: nat, deps: seq<nat>, o: Occurrence)
    requires Good(s) && CanCopySubmit(s, e, deps) && Current(s.events, o)
    ensures Current(DoCopySubmit(s, e, deps).events, o)
  {
    hide Good;
  }

  lemma SubmitCurrent(s: State, e: nat, deps: seq<nat>)
    requires Good(s) && CanCopySubmit(s, e, deps)
    ensures Current(DoCopySubmit(s, e, deps).events, Occurrence(e, s.events[e].epoch + 1))
  {
    hide QueueGood, LaunchGood, Accounted;
    assert EventGood(s, e);
  }

  lemma SubmitLinked(device: nat, j: Joint, c: Call, e: nat, deps: seq<nat>, named: set<M.Key>)
    requires JointOk(device, j) && JointEnabled(device, j, c, Submit(e, deps, named))
    ensures Linked(device, JointNext(device, j, c, Submit(e, deps, named)))
  {
    hide Good, CanCopySubmit, DoCopySubmit;
    var j' := JointNext(device, j, c, Submit(e, deps, named));
    SubmitCurrent(j.rt, e, deps);
    forall id | id in j.mem.pending && j.mem.pending[id].device == device
      ensures id < j.mem.issued && Current(j'.rt.events, j.link[id])
    {
      OthersUntouched(j.rt, e, deps, j.link[id]);
    }
  }

  lemma JointStepOk(device: nat, j: Joint, c: Call, a: JointStep)
    requires JointOk(device, j) && CallOk(j.rt, c) && JointEnabled(device, j, c, a)
    ensures JointOk(device, JointNext(device, j, c, a))
    ensures CallOk(JointNext(device, j, c, a).rt, JointCall(device, j, c, a))
  {
    hide Good, M.Inv, CallOk, CallEnabled, CanCopySubmit, DoCopySubmit, NextState, NextCall, Current;
    match a
    case Calling(x) =>
      CallStepOk(j.rt, c, x);
      SettleKeeps(device, j.mem, j.link, NextState(j.rt, c, x).events);
      StepLinked(device, j, c, x);
    case Submit(e, deps, named) =>
      SubmitSeen(j.rt, c, e, deps);
      CallStepOk(j.rt, c, Other(ByRecording(CopySubmit(e, deps))));
      M.KeepStep(j.mem, M.BeginAsync(device, named));
      SubmitLinked(device, j, c, e, deps, named);
    case Memory(step) =>
      M.KeepStep(j.mem, step);
      MemoryLinked(device, j, c, step);
  }

  lemma MemoryLinked(device: nat, j: Joint, c: Call, step: M.Step)
    requires Linked(device, j) && JointEnabled(device, j, c, Memory(step))
    ensures Linked(device, JointNext(device, j, c, Memory(step)))
  {
    hide M.PinAll, M.UnpinAll, Current;
  }

  // ------------------------------------------------------------ the copies waited for

  /** What a free waits for keeps its recording and is not issued anew. */
  ghost predicate Followed(device: nat, link: map<nat, Occurrence>, ids: set<nat>, j: Joint) {
    forall id :: id in ids ==>
      && id < j.mem.issued
      && id in link && id in j.link && j.link[id] == link[id]
      && (id in j.mem.pending ==> j.mem.pending[id].device == device)
  }

  /** Another thread's step. */
  predicate NotBy(thread: nat, a: JointStep) {
    a != Memory(M.Release(thread)) && a != Memory(M.FailFree(thread))
  }

  ghost predicate StillFreeing(mem: M.State, thread: nat, f: M.Free) {
    thread in mem.frees && mem.frees[thread] == f
  }

  lemma StepFollowed(device: nat, j: Joint, c: Call, a: JointStep, link: map<nat, Occurrence>, ids: set<nat>)
    requires Followed(device, link, ids, j) && JointEnabled(device, j, c, a)
    ensures Followed(device, link, ids, JointNext(device, j, c, a))
  {
    hide CallEnabled, CanCopySubmit, DoCopySubmit, NextState, M.PinAll, M.UnpinAll, Unfinished;
  }

  lemma StepFreeing(device: nat, j: Joint, c: Call, a: JointStep, thread: nat, f: M.Free)
    requires StillFreeing(j.mem, thread, f) && f.Synchronizing? && JointEnabled(device, j, c, a) && NotBy(thread, a)
    ensures StillFreeing(JointNext(device, j, c, a).mem, thread, f)
  {
    hide CallEnabled, CanCopySubmit, DoCopySubmit, NextState, M.PinAll, M.UnpinAll, Unfinished;
  }

  lemma {:induction false} RunOk(device: nat, j: Joint, c: Call, steps: seq<JointStep>, j': Joint, c': Call)
    requires JointOk(device, j) && CallOk(j.rt, c) && JointRun(device, j, c, steps, j', c')
    ensures JointOk(device, j') && CallOk(j'.rt, c')
    decreases |steps|
  {
    hide JointOk, CallOk, JointEnabled, JointNext, JointCall;
    if steps != [] {
      JointStepOk(device, j, c, steps[0]);
      RunOk(device, JointNext(device, j, c, steps[0]), JointCall(device, j, c, steps[0]), steps[1..], j', c');
    }
  }

  lemma {:induction false} RunFollowed(device: nat, j: Joint, c: Call, steps: seq<JointStep>, j': Joint, c': Call,
                                       link: map<nat, Occurrence>, thread: nat, f: M.Free)
    requires JointRun(device, j, c, steps, j', c') && f.Synchronizing?
    requires Followed(device, link, f.before, j) && StillFreeing(j.mem, thread, f)
    requires forall a :: a in steps ==> NotBy(thread, a)
    ensures Followed(device, link, f.before, j') && StillFreeing(j'.mem, thread, f)
    decreases |steps|
  {
    hide JointEnabled, JointNext, JointCall, Followed, StillFreeing, NotBy;
    if steps != [] {
      StepFollowed(device, j, c, steps[0], link, f.before);
      StepFreeing(device, j, c, steps[0], thread, f);
      RunFollowed(device, JointNext(device, j, c, steps[0]), JointCall(device, j, c, steps[0]), steps[1..], j', c',
                  link, thread, f);
    }
  }

  lemma StartOk(device: nat)
    ensures JointOk(device, Start()) && CallOk(Start().rt, NoCall())
  {
    hide Good;
    InitGood();
    assert M.Inv(M.Initial());
  }

  /** After any run, a free that waits for the device and gets a successful return finds
      every copy it had to wait for finished, so the release it then performs is safe:
      nothing pins the allocation, no unfinished copy names it, and every dispatch
      published before the free began to wait has completed. */
  lemma {:induction false} FreeReleasesUnused(device: nat, first: seq<JointStep>, j: Joint, thread: nat,
                                              steps: seq<JointStep>, j': Joint, c': Call)
    requires JointRun(device, Start(), NoCall(), first, j, NoCall())
    requires M.Can(j.mem, M.Synchronize(thread)) && j.mem.table[j.mem.frees[thread].key].device == device
    requires JointRun(device, j.(mem := M.Do(j.mem, M.Synchronize(thread))), Enter(j.rt), steps, j', c') && Returned(c')
    requires forall a :: a in steps ==> NotBy(thread, a)
    ensures M.Can(j'.mem, M.Release(thread)) && j'.mem.frees[thread].key == j.mem.frees[thread].key
    ensures M.Unused(j'.mem, j.mem.frees[thread].key)
    ensures forall q :: 0 <= q < |j.rt.queues| && j.rt.queues[q].lifecycle != Destroyed ==>
      q < |j'.rt.queues| && DispatchesDone(j'.rt.queues[q], |j.rt.queues[q].gpu.log|)
  {
    hide JointRun, Good, M.Inv, CallOk, Reaches, Enter, CallRun, M.Unused, Current;
    StartOk(device);
    RunOk(device, Start(), NoCall(), first, j, NoCall());
    RunSeen(device, Start(), NoCall(), first, j, NoCall());
    CallReaches(Init(), NoCall(), Seen(first), j.rt, NoCall());
    var j1 := j.(mem := M.Do(j.mem, M.Synchronize(thread)));
    M.KeepStep(j.mem, M.Synchronize(thread));
    EnterOk(j.rt);
    RunOk(device, j1, Enter(j.rt), steps, j', c');
    RunSeen(device, j1, Enter(j.rt), steps, j', c');
    DeviceSynchronized(j.rt, Seen(steps), j'.rt, c');
    var f := j1.mem.frees[thread];
    WaitsForLinked(device, j, thread);
    RunFollowed(device, j1, Enter(j.rt), steps, j', c', j.link, thread, f);
    forall id | id in f.before ensures id !in j'.mem.pending { CopyFinished(device, j, j', id, f.before); }
    FreeingInTable(j'.mem, thread);
    M.ReleaseUnused(j'.mem, thread);
  }

  lemma FreeingInTable(mem: M.State, thread: nat)
    requires M.Inv(mem) && thread in mem.frees
    ensures mem.frees[thread].key in mem.table
  {
  }

  lemma WaitsForLinked(device: nat, j: Joint, thread: nat)
    requires JointOk(device, j) && M.Can(j.mem, M.Synchronize(thread))
    requires j.mem.table[j.mem.frees[thread].key].device == device
    ensures var mem := M.Do(j.mem, M.Synchronize(thread));
            && mem.frees[thread].Synchronizing?
            && Followed(device, j.link, mem.frees[thread].before, j.(mem := mem))
            && forall id :: id in mem.frees[thread].before ==> id in j.link && Current(j.rt.events, j.link[id])
  {
    hide Good, Current;
  }

  lemma CopyFinished(device: nat, j: Joint, j': Joint, id: nat, ids: set<nat>)
    requires id in ids && Followed(device, j.link, ids, j') && Linked(device, j') && Current(j.rt.events, j.link[id])
    requires forall e :: 0 <= e < |j.rt.events| && j.rt.events[e].pending ==>
      e < |j'.rt.events| && j.rt.events[e].epoch in j'.rt.events[e].finished
    ensures id !in j'.mem.pending
  {
  }
}
