/** Asynchronous copies and markers wait for what their calls were given: over every run from
    the call on, the recording they make finishes only after it. */
module HsaCopyOrder {
  import opened Common
  import opened HsaState
  import opened HsaSteps
  import opened HsaInvariant
  import opened HsaFrame
  import opened HsaAccounting
  import opened HsaRuns
  import opened HsaProgress
  import opened HsaSafety
  import opened HsaOrder
  import HsaLaunchSteps
  import HsaPublish

  // ------------------------------------------------------------- who changes what

  /** What a copy or a marker left in its event stays there while the event is pending. */
  ghost predicate SameKind(a: Event, b: Event) {
    b.copy == a.copy && b.recorded == a.recorded && b.deps == a.deps
  }

  /** Only hardware completes recordings, and only markers and copies re-arm events. */
  ghost predicate HostLeaves(a: Event, b: Event) {
    b.finished == a.finished && (b.epoch == a.epoch && b.pending == a.pending ==> SameKind(a, b))
  }

  lemma ReapLeaves(s: State, a: ReapStep, e: nat)
    requires ReapEnabled(s, a) && e < |s.events|
    ensures e < |ReapApply(s, a).events| && HostLeaves(s.events[e], ReapApply(s, a).events[e])
  {
    hide IsZero, SyncNames, RetiresOn, ReapDispatchQueue, WaitEndQueue, ReapBarrierQueue;
  }

  lemma LaunchingLeaves(s: State, a: LaunchStep, e: nat)
    requires LaunchingEnabled(s, a) && e < |s.events|
    ensures e < |LaunchingApply(s, a).events| && HostLeaves(s.events[e], LaunchingApply(s, a).events[e])
  {
    hide Acquire, RetainActive, HasCapacity, CanLaunchCollect, Awaits;
  }

  lemma RecordingLeaves(s: State, a: RecordStep, e: nat)
    requires RecordingEnabled(s, a) && e < |s.events|
    ensures e < |RecordingApply(s, a).events| && HostLeaves(s.events[e], RecordingApply(s, a).events[e])
  {
    hide RetainActive, HasCapacity, Unreferenced;
  }

  lemma SyncingLeaves(s: State, a: SyncStep, e: nat)
    requires SyncingEnabled(s, a) && e < |s.events|
    ensures e < |SyncingApply(s, a).events| && HostLeaves(s.events[e], SyncingApply(s, a).events[e])
  {
    hide RetainActive, HasCapacity, CanSyncBegin;
  }

  predicate Completes(p: Packet, e: nat) {
    p.BarrierAnd? && p.completed == Some(EventSignal(e))
  }

  lemma PacketLeaves(events: Events, p: Packet, e: nat)
    requires e < |events|
    ensures |CompleteEvents(events, p)| == |events| && SameKind(events[e], CompleteEvents(events, p)[e])
    ensures CompleteEvents(events, p)[e].finished != events[e].finished ==> Completes(p, e)
  {
    if p.BarrierAnd? && p.completed.Some? && p.completed.value.EventSignal? && p.completed.value.event < |events| {
      var x := p.completed.value.event;
      assert p.completed == Some(EventSignal(x));
      assert CompleteEvents(events, p) == events[x := FinishEpoch(events[x])];
    } else {
      assert CompleteEvents(events, p) == events;
    }
  }

  lemma DeviceLeaves(s: State, a: DeviceStep, e: nat)
    requires DeviceEnabled(s, a) && e < |s.events|
    ensures e < |DeviceApply(s, a).events| && SameKind(s.events[e], DeviceApply(s, a).events[e])
    ensures !a.GpuComplete? && a != CopyDone(e) ==> DeviceApply(s, a).events[e].finished == s.events[e].finished
    ensures a.GpuComplete? && DeviceApply(s, a).events[e].finished != s.events[e].finished ==>
      Completes(s.queues[a.q].gpu.log[a.p], e)
  {
    hide CompleteQueue, CompleteEvents;
    if a.GpuComplete? { PacketLeaves(s.events, s.queues[a.q].gpu.log[a.p], e); }
  }

  lemma StepLeaves(s: State, a: Step, e: nat)
    requires Enabled(s, a) && e < |s.events|
    ensures e < |Apply(s, a).events|
    ensures !a.ByDevice? ==> HostLeaves(s.events[e], Apply(s, a).events[e])
    ensures a.ByDevice? ==> SameKind(s.events[e], Apply(s, a).events[e])
  {
    hide HostLeaves, SameKind;
    match a
    case ByDevice(x) => DeviceLeaves(s, x, e);
    case ByReap(x) => ReapLeaves(s, x, e);
    case ByLaunching(x) => LaunchingLeaves(s, x, e);
    case ByRecording(x) => RecordingLeaves(s, x, e);
    case BySyncing(x) => SyncingLeaves(s, x, e);
  }

  // --------------------------------------------------------------------- copies

  /** Only the copy engine finishes a copy, and only after everything the copy lists. */
  lemma CopyFinishes(s: State, a: Step, e: nat, d: nat)
    requires Good(s) && Enabled(s, a) && e < |s.events| && s.events[e].pending && s.events[e].copy
    requires e < |Apply(s, a).events| && Apply(s, a).events[e].finished != s.events[e].finished
    requires d in s.events[e].deps && d < |s.events| && s.events[d].epoch > 0
    ensures s.events[d].epoch in s.events[d].finished
  {
    hide QueueGood, LaunchGood, Accounted;
    assert EventGood(s, e) && EventGood(s, d);
    StepLeaves(s, a, e);
    match a
    case ByDevice(x) =>
      DeviceLeaves(s, x, e);
      if x.GpuComplete? { NotByPacket(s, x.q, x.p, e); }
    case _ =>
  }

  lemma NotByPacket(s: State, q: nat, p: nat, e: nat)
    requires Good(s) && CanGpuComplete(s, q, p) && e < |s.events| && s.events[e].copy
    ensures !Completes(s.queues[q].gpu.log[p], e)
  {
    hide LaunchGood, Accounted;
    assert EventGood(s, e);
    QueueIsOk(s, q);
  }

  /** The copy `e` has finished its recording `k` after what it lists, or it is still to
      finish and holds everything it lists where it was. */
  ghost predicate CopyHolds(s: State, e: nat, k: nat, deps: seq<nat>, was: Events) {
    && e < |s.events|
    && (forall d :: d in deps ==> d < |was| && d < |s.events| && was[d].epoch > 0)
    && (if k in s.events[e].finished
        then forall d :: d in deps ==> was[d].epoch in s.events[d].finished
        else
          && s.events[e].pending && s.events[e].copy && s.events[e].epoch == k && s.events[e].deps == deps
          && forall d :: d in deps ==> s.events[d].epoch == was[d].epoch)
  }

  lemma ListedStays(s: State, a: Step, e: nat, d: nat)
    requires Good(s) && Enabled(s, a) && e < |s.events| && d in s.events[e].deps && d < |s.events|
    ensures d < |Apply(s, a).events| && Apply(s, a).events[d].epoch == s.events[d].epoch
  {
    hide Good, Enabled, Apply, QueueIgnores;
    RearmSafe(s, a, d);
  }

  lemma CopyHoldsStep(s: State, a: Step, e: nat, k: nat, deps: seq<nat>, was: Events)
    requires Good(s) && Enabled(s, a) && CopyHolds(s, e, k, deps, was)
    ensures CopyHolds(Apply(s, a), e, k, deps, was)
  {
    hide Good, Enabled, Apply, QueueAdvances;
    StepAdvances(s, a);
    var s' := Apply(s, a);
    assert EventAdvances(s.events[e], s'.events[e]);
    forall d | d in deps ensures d < |s'.events| && s.events[d].finished <= s'.events[d].finished {
      assert EventAdvances(s.events[d], s'.events[d]);
    }
    if k !in s.events[e].finished {
      UnfinishedStays(s, a, e);
      StepLeaves(s, a, e);
      forall d | d in deps
        ensures s'.events[d].epoch == was[d].epoch
        ensures k in s'.events[e].finished ==> was[d].epoch in s'.events[d].finished
      {
        ListedStays(s, a, e, d);
        if k in s'.events[e].finished { CopyFinishes(s, a, e, d); }
      }
    }
  }

  lemma {:induction false} CopyHoldsRun(s: State, steps: seq<Step>, s': State, e: nat, k: nat, deps: seq<nat>,
                                        was: Events)
    requires Good(s) && Run(s, steps, s') && CopyHolds(s, e, k, deps, was)
    ensures Good(s') && CopyHolds(s', e, k, deps, was)
    decreases |steps|
  {
    hide Good, Enabled, Apply, CopyHolds;
    if steps != [] {
      KeepStep(s, steps[0]);
      CopyHoldsStep(s, steps[0], e, k, deps, was);
      CopyHoldsRun(Apply(s, steps[0]), steps[1..], s', e, k, deps, was);
    }
  }

  lemma CopyHoldsStart(s: State, e: nat, deps: seq<nat>)
    requires Good(s) && CanCopySubmit(s, e, deps)
    ensures CopyHolds(DoCopySubmit(s, e, deps), e, s.events[e].epoch + 1, deps, s.events)
  {
    hide QueueGood, LaunchGood, Accounted, Unreferenced;
    assert EventGood(s, e);
    forall d | d in deps ensures d < |s.events| && s.events[d].epoch > 0 { assert EventGood(s, d); }
  }

  lemma ListedCounted(s: State, e: nat, d: nat)
    requires Good(s) && e < |s.events| && d in s.events[e].deps && d < |s.events|
    ensures s.events[d].depCount > 0
  {
    hide Inv, PinsOk, QueueRefs, CopyRefs;
    assert RefOk(s.events, |s.queues|, d);
    CopyRefsSome(s.events, e, d);
  }

  /** An asynchronous copy, from its submission on: its recording finishes only after the
      recording that each event it was given had at the call; until then each of them is
      counted as referenced and is not recorded again. */
  lemma {:induction false} CopyWaits(s: State, e: nat, deps: seq<nat>, steps: seq<Step>, s': State)
    requires Reachable(s) && CanCopySubmit(s, e, deps) && Run(DoCopySubmit(s, e, deps), steps, s')
    ensures e < |s'.events| && forall d :: d in deps ==> d < |s'.events|
    ensures s.events[e].epoch + 1 in s'.events[e].finished ==>
      forall d :: d in deps ==> s.events[d].epoch in s'.events[d].finished
    ensures s.events[e].epoch + 1 !in s'.events[e].finished ==>
      forall d :: d in deps ==> s'.events[d].depCount > 0 && s'.events[d].epoch == s.events[d].epoch
  {
    hide Reachable, Good, Run, CanCopySubmit, DoCopySubmit;
    ReachableGood(s);
    CopyHoldsStart(s, e, deps);
    SubmitKeeps(s, e, deps);
    CopyHoldsRun(DoCopySubmit(s, e, deps), steps, s', e, s.events[e].epoch + 1, deps, s.events);
    forall d | d in deps && s.events[e].epoch + 1 !in s'.events[e].finished ensures s'.events[d].depCount > 0 {
      ListedCounted(s', e, d);
    }
  }

  lemma SubmitKeeps(s: State, e: nat, deps: seq<nat>)
    requires Good(s) && CanCopySubmit(s, e, deps)
    ensures e < |s.events| && Good(DoCopySubmit(s, e, deps))
  {
    hide Good;
    KeepStep(s, ByRecording(CopySubmit(e, deps)));
  }

  // -------------------------------------------------------------------- records

  lemma OnlyHardwareCompletes(s: State, a: Step, q: nat, r: nat)
    requires Enabled(s, a) && q < |s.queues| && q < |Apply(s, a).queues|
    requires r !in s.queues[q].gpu.done && r in Apply(s, a).queues[q].gpu.done
    ensures a == ByDevice(GpuComplete(q, r))
  {
    match a
    case ByDevice(x) => DeviceDone(s, x, q);
    case ByReap(x) => ReapDone(s, x, q);
    case ByLaunching(x) => LaunchingDone(s, x, q);
    case ByRecording(x) => RecordingDone(s, x, q);
    case BySyncing(x) => SyncingDone(s, x, q);
  }

  lemma DeviceDone(s: State, a: DeviceStep, q: nat)
    requires DeviceEnabled(s, a) && q < |s.queues| && q < |DeviceApply(s, a).queues|
    ensures a.GpuComplete? && a.q == q ==> DeviceApply(s, a).queues[q].gpu.done <= s.queues[q].gpu.done + {a.p}
    ensures !(a.GpuComplete? && a.q == q) ==> DeviceApply(s, a).queues[q].gpu.done == s.queues[q].gpu.done
  {
  }

  lemma ReapDone(s: State, a: ReapStep, q: nat)
    requires ReapEnabled(s, a) && q < |s.queues| && q < |ReapApply(s, a).queues|
    ensures ReapApply(s, a).queues[q].gpu.done == s.queues[q].gpu.done
  {
    hide IsZero, SyncNames, RetiresOn, DropRefs, ReleaseAll;
  }

  lemma LaunchingDone(s: State, a: LaunchStep, q: nat)
    requires LaunchingEnabled(s, a) && q < |s.queues| && q < |LaunchingApply(s, a).queues|
    ensures LaunchingApply(s, a).queues[q].gpu.done == s.queues[q].gpu.done
  {
    hide RetainActive, RetainAll, HasCapacity, Awaits, NeedsBarrier, Chunks;
  }

  lemma RecordingDone(s: State, a: RecordStep, q: nat)
    requires RecordingEnabled(s, a) && q < |s.queues| && q < |RecordingApply(s, a).queues|
    ensures RecordingApply(s, a).queues[q].gpu.done == s.queues[q].gpu.done
  {
    hide RetainActive, RetainAll, HasCapacity, Unreferenced, Chunks;
  }

  lemma SyncingDone(s: State, a: SyncStep, q: nat)
    requires SyncingEnabled(s, a) && q < |s.queues| && q < |SyncingApply(s, a).queues|
    ensures SyncingApply(s, a).queues[q].gpu.done == s.queues[q].gpu.done
  {
    hide RetainActive, RetainAll, HasCapacity, CanSyncBegin, IsZero, RemoveAt;
  }

  /** An event that an unfinished packet names is not recorded again. */
  lemma NamedStays(s: State, a: Step, q: nat, r: nat, d: nat)
    requires Good(s) && Enabled(s, a) && d < |s.events|
    requires q < |s.queues| && r < |s.queues[q].gpu.log| && r !in s.queues[q].gpu.done
    requires s.queues[q].gpu.log[r].BarrierAnd? && EventSignal(d) in s.queues[q].gpu.log[r].deps
    ensures d < |Apply(s, a).events| && Apply(s, a).events[d].epoch == s.events[d].epoch
  {
    hide Good, Enabled, Apply;
    RearmSafe(s, a, d);
    assert !QueueIgnores(s.queues[q], d);
  }

  /** A packet that completes finds the recordings of the events it names completed. */
  lemma CompletedAfter(s: State, a: Step, q: nat, r: nat, d: nat)
    requires Good(s) && Enabled(s, a) && d < |s.events| && s.events[d].epoch > 0
    requires q < |s.queues| && r < |s.queues[q].gpu.log| && r !in s.queues[q].gpu.done
    requires s.queues[q].gpu.log[r].BarrierAnd? && EventSignal(d) in s.queues[q].gpu.log[r].deps
    requires q < |Apply(s, a).queues| && r in Apply(s, a).queues[q].gpu.done
    ensures s.events[d].epoch in s.events[d].finished
  {
    hide QueueGood, LaunchGood, Accounted, Apply;
    OnlyHardwareCompletes(s, a, q, r);
    assert IsZero(s.queues[q], s.events, EventSignal(d));
    assert EventGood(s, d);
  }

  /** Nothing loosens a guard at position `p` as long as what is still to do stays referenced. */
  lemma GuardStays(s: State, a: Step, q: nat, o: Occurrence, p: nat, todo: seq<nat>)
    requires Good(s) && Enabled(s, a) && q < |s.queues| && p <= |s.queues[q].gpu.log|
    requires Guarded(s.queues[q].gpu.log, s.queues[q].gpu.done, s.events, o, p, todo)
    requires forall d :: d in todo ==> d < |s.events| && !Untouched(s, d)
    ensures var s' := Apply(s, a);
            q < |s'.queues| && Guarded(s'.queues[q].gpu.log, s'.queues[q].gpu.done, s'.events, o, p, todo)
  {
    hide Good, Enabled, Apply, Untouched;
    StepAdvances(s, a);
    var s' := Apply(s, a);
    var x, x' := s.queues[q].gpu, s'.queues[q].gpu;
    assert QueueAdvances(s.queues[q], s'.queues[q]) && EventAdvances(s.events[o.event], s'.events[o.event]);
    if o.epoch !in s.events[o.event].finished {
      if o.event in todo {
        RearmSafe(s, a, o.event);
      } else {
        var r :| 0 <= r < p && r < |x.log| && r !in x.done && x.log[r].BarrierAnd?
          && EventSignal(o.event) in x.log[r].deps;
        NamedStays(s, a, q, r, o.event);
        if r in x'.done { CompletedAfter(s, a, q, r, o.event); } else { assert x'.log[r] == x.log[r]; }
      }
    }
  }

  // ------------------------------------------------------- a record in progress

  /** What a record in progress has not put into a barrier packet yet. */
  function Outstanding(s: State, q: nat, e: nat): seq<nat>
    requires q < |s.queues| && e < |s.events| && s.events[e].recording.Some?
  {
    if s.queues[q].holder.ByRecord? && s.queues[q].holder.event == e then s.queues[q].holder.todo
    else s.events[e].recording.value.deps
  }

  /** The record of `e` on queue `q` is in progress and holds back the recording `o`. */
  ghost predicate RecordHolds(s: State, e: nat, q: nat, o: Occurrence) {
    && e < |s.events| && q < |s.queues| && s.events[e].recording.Some? && s.events[e].recording.value.queue == q
    && Guarded(s.queues[q].gpu.log, s.queues[q].gpu.done, s.events, o, |s.queues[q].gpu.log|, Outstanding(s, q, e))
  }

  predicate Begins(a: Step, e: nat) {
    a.ByRecording? && a.recording.RecordBegin? && a.recording.e == e
  }

  /** A record is over once its marker is published or it is abandoned. */
  lemma RecordContinues(s: State, a: RecordStep, e: nat)
    requires RecordingEnabled(s, a) && e < |s.events| && !Begins(ByRecording(a), e)
    ensures e < |RecordingApply(s, a).events|
    ensures var r := RecordingApply(s, a).events[e].recording; r == s.events[e].recording || r.None?
    ensures RecordingApply(s, a).events[e].recording.Some? ==>
      RecordingApply(s, a).events[e].epoch == s.events[e].epoch
  {
    hide RetainActive, HasCapacity, Unreferenced, Chunks;
  }

  lemma OthersRecording(s: State, a: Step, e: nat)
    requires Enabled(s, a) && e < |s.events| && !a.ByRecording?
    ensures e < |Apply(s, a).events| && Apply(s, a).events[e].recording == s.events[e].recording
    ensures Apply(s, a).events[e].epoch == s.events[e].epoch
  {
    match a
    case ByDevice(x) => EpochsOfDevice(s, x, e); DeviceRecording(s, x, e);
    case ByReap(x) => EpochsOfReap(s, x, e); ReapRecording(s, x, e);
    case ByLaunching(x) => EpochsOfLaunching(s, x, e); LaunchingRecording(s, x, e);
    case BySyncing(x) => EpochsOfSyncing(s, x, e); SyncingRecording(s, x, e);
  }

  lemma DeviceRecording(s: State, a: DeviceStep, e: nat)
    requires DeviceEnabled(s, a) && e < |s.events|
    ensures e < |DeviceApply(s, a).events| && DeviceApply(s, a).events[e].recording == s.events[e].recording
  {
    hide CompleteQueue;
    if a.GpuComplete? { CompleteRecording(s.events, s.queues[a.q].gpu.log[a.p], e); }
  }

  lemma CompleteRecording(events: Events, p: Packet, e: nat)
    requires e < |events|
    ensures e < |CompleteEvents(events, p)| && CompleteEvents(events, p)[e].recording == events[e].recording
  {
  }

  lemma ReapRecording(s: State, a: ReapStep, e: nat)
    requires ReapEnabled(s, a) && e < |s.events|
    ensures e < |ReapApply(s, a).events| && ReapApply(s, a).events[e].recording == s.events[e].recording
  {
    hide IsZero, SyncNames, RetiresOn, ReapDispatchQueue, WaitEndQueue, ReapBarrierQueue;
  }

  lemma LaunchingRecording(s: State, a: LaunchStep, e: nat)
    requires LaunchingEnabled(s, a) && e < |s.events|
    ensures e < |LaunchingApply(s, a).events| && LaunchingApply(s, a).events[e].recording == s.events[e].recording
  {
    hide Acquire, RetainActive, HasCapacity, CanLaunchCollect, Awaits;
  }

  lemma SyncingRecording(s: State, a: SyncStep, e: nat)
    requires SyncingEnabled(s, a) && e < |s.events|
    ensures e < |SyncingApply(s, a).events| && SyncingApply(s, a).events[e].recording == s.events[e].recording
  {
    hide RetainActive, HasCapacity, CanSyncBegin;
  }

  /** Over one step the record goes on with the same event recording, or it is over. */
  lemma RecordStays(s: State, a: Step, e: nat)
    requires Enabled(s, a) && e < |s.events| && !Begins(a, e)
    ensures e < |Apply(s, a).events|
    ensures Apply(s, a).events[e].recording == s.events[e].recording || Apply(s, a).events[e].recording.None?
    ensures Apply(s, a).events[e].recording.Some? ==> Apply(s, a).events[e].epoch == s.events[e].epoch
  {
    hide Begins;
    match a
    case ByRecording(x) => RecordContinues(s, x, e);
    case _ => OthersRecording(s, a, e);
  }

  /** Nobody but the record itself touches the lock it holds, and it takes the lock once. */
  ghost predicate SameLock(h: Holder, h': Holder) {
    (h.ByRecord? || h'.ByRecord?) ==> h' == h
  }

  lemma ReapLock(s: State, a: ReapStep, q: nat)
    requires ReapEnabled(s, a) && q < |s.queues| && q < |ReapApply(s, a).queues|
    ensures SameLock(s.queues[q].holder, ReapApply(s, a).queues[q].holder)
  {
    hide IsZero, SyncNames, RetiresOn, DropRefs, ReleaseAll;
  }

  lemma DeviceLock(s: State, a: DeviceStep, q: nat)
    requires DeviceEnabled(s, a) && q < |s.queues| && q < |DeviceApply(s, a).queues|
    ensures SameLock(s.queues[q].holder, DeviceApply(s, a).queues[q].holder)
  {
  }

  lemma LaunchingLock(s: State, a: LaunchStep, q: nat)
    requires LaunchingEnabled(s, a) && q < |s.queues| && q < |LaunchingApply(s, a).queues|
    ensures SameLock(s.queues[q].holder, LaunchingApply(s, a).queues[q].holder)
  {
    hide RetainActive, RetainAll, HasCapacity, Awaits, NeedsBarrier, Chunks;
  }

  lemma SyncingLock(s: State, a: SyncStep, q: nat)
    requires SyncingEnabled(s, a) && q < |s.queues| && q < |SyncingApply(s, a).queues|
    ensures SameLock(s.queues[q].holder, SyncingApply(s, a).queues[q].holder)
  {
    hide RetainActive, RetainAll, HasCapacity, IsZero, RemoveAt;
  }

  predicate Barrier(s: State, a: Step, q: nat, e: nat)
    requires q < |s.queues|
  {
    a == ByRecording(RecordBarrier(q)) && s.queues[q].holder.ByRecord? && s.queues[q].holder.event == e
  }

  lemma RecordingOutstanding(s: State, a: RecordStep, q: nat, e: nat)
    requires Good(s) && RecordingEnabled(s, a) && q < |s.queues| && e < |s.events| && s.events[e].recording.Some?
    requires s.events[e].recording.value.queue == q && !Barrier(s, ByRecording(a), q, e)
    requires q < |RecordingApply(s, a).queues| && e < |RecordingApply(s, a).events|
    requires RecordingApply(s, a).events[e].recording == s.events[e].recording
    ensures Outstanding(RecordingApply(s, a), q, e) == Outstanding(s, q, e)
  {
    hide Good, RetainActive, RetainAll, HasCapacity, Unreferenced, Chunks;
    match a
    case RecordLock(x) => if s.events[x].recording.value.queue == q { LockedOnce(s, q, x); }
    case _ =>
  }

  lemma LockedOnce(s: State, q: nat, x: nat)
    requires CanRecordLock(s, x) && q < |s.queues| && s.events[x].recording.value.queue == q
    ensures s.queues[q].holder == Unlocked
  {
  }

  lemma OutstandingStays(s: State, a: Step, q: nat, e: nat)
    requires Good(s) && Enabled(s, a) && q < |s.queues| && e < |s.events| && s.events[e].recording.Some?
    requires s.events[e].recording.value.queue == q && !Barrier(s, a, q, e)
    requires q < |Apply(s, a).queues| && e < |Apply(s, a).events|
    requires Apply(s, a).events[e].recording == s.events[e].recording
    ensures Outstanding(Apply(s, a), q, e) == Outstanding(s, q, e)
  {
    hide Good;
    match a
    case ByRecording(x) => RecordingOutstanding(s, x, q, e);
    case ByDevice(x) => DeviceLock(s, x, q);
    case ByReap(x) => ReapLock(s, x, q);
    case ByLaunching(x) => LaunchingLock(s, x, q);
    case BySyncing(x) => SyncingLock(s, x, q);
  }

  /** What a record still has to name is referenced by it. */
  lemma OutstandingTouched(s: State, q: nat, e: nat, d: nat)
    requires Good(s) && q < |s.queues| && e < |s.events| && s.events[e].recording.Some?
    requires s.events[e].recording.value.queue == q && d in Outstanding(s, q, e)
    ensures d < |s.events| && !Untouched(s, d)
  {
    hide QueueOk, LaunchGood, Accounted, QueueIgnores;
    assert QueueGood(s, q) && EventGood(s, e);
    assert d in s.events[e].recording.value.deps;
  }

  lemma Later(log: Log, done: set<nat>, events: Events, o: Occurrence, p: nat, p': nat, todo: seq<nat>)
    requires p <= p' && Guarded(log, done, events, o, p, todo)
    ensures Guarded(log, done, events, o, p', todo)
  {
  }

  lemma BarrierHolds(s: State, q: nat, e: nat, o: Occurrence)
    requires Good(s) && RecordHolds(s, e, q, o) && CanRecordBarrier(s, q) && s.queues[q].holder.event == e
    requires DoRecordBarrier(s, q).events[e].recording == s.events[e].recording
    ensures RecordHolds(DoRecordBarrier(s, q), e, q, o)
  {
    hide LaunchGood, EventGood, Accounted, Guarded, RetainActive, RetainAll;
    QueueIsOk(s, q);
    var x, todo := s.queues[q], s.queues[q].holder.todo;
    HsaLaunchSteps.NotDone(x.gpu);
    HsaPublish.RetainOnlyCounts(q, s.events, Head(todo));
    HsaLaunchSteps.PublishGuards(x.gpu.log, x.gpu.done, s.events, RetainAll(s.events, q, Head(todo)), o, todo);
  }

  lemma RecordHoldsStep(s: State, a: Step, e: nat, q: nat, o: Occurrence)
    requires Good(s) && Enabled(s, a) && RecordHolds(s, e, q, o)
    requires e < |Apply(s, a).events| && Apply(s, a).events[e].recording == s.events[e].recording
    ensures RecordHolds(Apply(s, a), e, q, o)
  {
    if Barrier(s, a, q, e) {
      BarrierHolds(s, q, e, o);
    } else {
      PlainHolds(s, a, e, q, o);
    }
  }

  lemma PlainHolds(s: State, a: Step, e: nat, q: nat, o: Occurrence)
    requires Good(s) && Enabled(s, a) && RecordHolds(s, e, q, o) && !Barrier(s, a, q, e)
    requires e < |Apply(s, a).events| && Apply(s, a).events[e].recording == s.events[e].recording
    ensures RecordHolds(Apply(s, a), e, q, o)
  {
    hide Good, Enabled, Apply, Guarded, Untouched, Barrier, EventAdvances;
    StepAdvances(s, a);
    var s' := Apply(s, a);
    assert QueueAdvances(s.queues[q], s'.queues[q]);
    var todo := Outstanding(s, q, e);
    forall d | d in todo ensures d < |s.events| && !Untouched(s, d) { OutstandingTouched(s, q, e, d); }
    GuardStays(s, a, q, o, |s.queues[q].gpu.log|, todo);
    OutstandingStays(s, a, q, e);
    Later(s'.queues[q].gpu.log, s'.queues[q].gpu.done, s'.events, o,
          |s.queues[q].gpu.log|, |s'.queues[q].gpu.log|, todo);
  }

  /** Once a record is over, it stays over until the event is recorded again. */
  lemma {:induction false} RunOver(s: State, steps: seq<Step>, m: State, e: nat)
    requires Run(s, steps, m) && e < |s.events| && s.events[e].recording.None?
    requires forall a :: a in steps ==> !Begins(a, e)
    ensures e < |m.events| && m.events[e].recording.None?
    decreases |steps|
  {
    hide Enabled, Apply, Begins;
    if steps != [] {
      assert !Begins(steps[0], e);
      RecordStays(s, steps[0], e);
      RunOver(Apply(s, steps[0]), steps[1..], m, e);
    }
  }

  lemma {:induction false} RecordHoldsRun(s: State, steps: seq<Step>, m: State, e: nat, q: nat, held: set<Occurrence>)
    requires Good(s) && Run(s, steps, m) && e < |s.events| && forall a :: a in steps ==> !Begins(a, e)
    requires forall o :: o in held ==> RecordHolds(s, e, q, o)
    requires e < |m.events| && m.events[e].recording.Some?
    ensures Good(m) && m.events[e].epoch == s.events[e].epoch && m.events[e].recording == s.events[e].recording
    ensures forall o :: o in held ==> RecordHolds(m, e, q, o)
    decreases |steps|
  {
    hide Good, Enabled, Apply, Begins, RecordHolds;
    if steps != [] {
      assert !Begins(steps[0], e);
      var s1 := Apply(s, steps[0]);
      KeepStep(s, steps[0]);
      RecordStays(s, steps[0], e);
      if s1.events[e].recording.None? {
        RunOver(s1, steps[1..], m, e);
      } else {
        forall o | o in held ensures RecordHolds(s1, e, q, o) { RecordHoldsStep(s, steps[0], e, q, o); }
        RecordHoldsRun(s1, steps[1..], m, e, q, held);
      }
    }
  }

  // ------------------------------------------------------------ after the marker

  /** The packet at `p` makes recording `k` of `e`, or has made it. */
  ghost predicate MarkerStands(s: State, e: nat, q: nat, p: nat, k: nat) {
    && e < |s.events| && q < |s.queues| && p < |s.queues[q].gpu.log|
    && s.queues[q].gpu.log[p] == BarrierAnd([], Some(EventSignal(e)))
    && (p in s.queues[q].gpu.done
        || (s.events[e].pending && s.events[e].epoch == k && s.events[e].recorded == Some(Record(q, p))
            && k !in s.events[e].finished))
  }

  lemma MarkerSignal(s: State, e: nat, q: nat, p: nat)
    requires Good(s) && e < |s.events| && q < |s.queues|
    requires s.events[e].pending && s.events[e].recorded == Some(Record(q, p))
    requires s.events[e].epoch in s.events[e].finished
    ensures p in s.queues[q].gpu.done
  {
    hide LaunchGood, Accounted;
    QueueIsOk(s, q);
    assert EventGood(s, e);
    assert MarkerOk(q, s.queues[q].gpu.log, s.queues[q].gpu.done, s.events, e);
  }

  lemma MarkerStandsStep(s: State, a: Step, e: nat, q: nat, p: nat, k: nat)
    requires Good(s) && Enabled(s, a) && MarkerStands(s, e, q, p, k)
    ensures MarkerStands(Apply(s, a), e, q, p, k)
  {
    hide Good, Enabled, Apply, EventAdvances;
    StepAdvances(s, a);
    var s' := Apply(s, a);
    assert QueueAdvances(s.queues[q], s'.queues[q]);
    if p !in s.queues[q].gpu.done {
      UnfinishedStays(s, a, e);
      StepLeaves(s, a, e);
      KeepStep(s, a);
      if k in s'.events[e].finished { MarkerSignal(s', e, q, p); }
    }
  }

  lemma {:induction false} MarkerRun(s: State, steps: seq<Step>, s': State, e: nat, q: nat, p: nat, k: nat,
                                     held: set<Occurrence>)
    requires Good(s) && Run(s, steps, s') && MarkerStands(s, e, q, p, k)
    requires forall o :: o in held ==> Guarded(s.queues[q].gpu.log, s.queues[q].gpu.done, s.events, o, p, [])
    ensures Good(s') && MarkerStands(s', e, q, p, k)
    ensures forall o :: o in held ==> Guarded(s'.queues[q].gpu.log, s'.queues[q].gpu.done, s'.events, o, p, [])
    decreases |steps|
  {
    hide Good, Enabled, Apply, Guarded;
    if steps != [] {
      var a, s1 := steps[0], Apply(s, steps[0]);
      KeepStep(s, a);
      MarkerStandsStep(s, a, e, q, p, k);
      forall o | o in held ensures Guarded(s1.queues[q].gpu.log, s1.queues[q].gpu.done, s1.events, o, p, []) {
        GuardStays(s, a, q, o, p, []);
      }
      MarkerRun(s1, steps[1..], s', e, q, p, k, held);
    }
  }

  lemma MarkerStart(m: State, e: nat, q: nat, held: set<Occurrence>)
    requires Good(m) && CanRecordMarker(m, q) && m.queues[q].holder.event == e
    requires forall o :: o in held ==> RecordHolds(m, e, q, o)
    ensures var p, s2 := |m.queues[q].gpu.log|, DoRecordMarker(m, q);
            && Good(s2) && MarkerStands(s2, e, q, p, m.events[e].epoch + 1)
            && forall o :: o in held ==> Guarded(s2.queues[q].gpu.log, s2.queues[q].gpu.done, s2.events, o, p, [])
  {
    hide Good, Guarded;
    var a := ByRecording(RecordMarker(q));
    KeepStep(m, a);
    MarkerFresh(m, e);
    forall o | o in held
      ensures Guarded(Apply(m, a).queues[q].gpu.log, Apply(m, a).queues[q].gpu.done, Apply(m, a).events, o,
                      |m.queues[q].gpu.log|, [])
    {
      GuardStays(m, a, q, o, |m.queues[q].gpu.log|, []);
    }
  }

  lemma MarkerFresh(m: State, e: nat)
    requires Good(m) && e < |m.events|
    ensures m.events[e].epoch + 1 !in m.events[e].finished
  {
    hide QueueGood, LaunchGood, Accounted;
    assert EventGood(m, e);
  }

  /** A marker completes after every packet before it, and so after every guarded recording. */
  lemma MarkerLast(s: State, e: nat, q: nat, p: nat, k: nat, held: set<Occurrence>)
    requires Good(s) && MarkerStands(s, e, q, p, k) && k in s.events[e].finished
    requires forall o :: o in held ==> Guarded(s.queues[q].gpu.log, s.queues[q].gpu.done, s.events, o, p, [])
    ensures forall r: nat :: r < p ==> r in s.queues[q].gpu.done
    ensures forall o :: o in held ==> o.event < |s.events| && o.epoch in s.events[o.event].finished
  {
    hide LaunchGood, EventGood, Accounted;
    QueueIsOk(s, q);
    forall r: nat | r < p ensures r in s.queues[q].gpu.done { assert HoldsBack(s.queues[q].gpu.log, r, p); }
  }

  /** What a record holds back when it begins: on the default queue every pending copy. */
  function PendingCopies(s: State): set<Occurrence> {
    set d | 0 <= d < |s.events| && s.events[d].pending && s.events[d].copy :: Occurrence(d, s.events[d].epoch)
  }

  lemma RecordStart(s: State, e: nat, q: nat, deps: seq<nat>, onDefault: bool, o: Occurrence)
    requires Good(s) && CanRecordBegin(s, e, q, deps, onDefault) && onDefault && o in PendingCopies(s)
    ensures RecordHolds(DoRecordBegin(s, e, q, deps, onDefault), e, q, o)
  {
    hide LaunchGood, Accounted, Unreferenced;
    QueueIsOk(s, q);
    assert EventGood(s, o.event);
    if o.event !in deps && o.event in s.queues[q].active {
      HsaLaunchSteps.ActiveIsBlocked(q, s.queues[q], s.events, o.event);
    }
  }

  /** A record, from the call on: the recording it makes finishes only after every packet that
      was on its queue before the marker, and on the default queue only after the recording of
      every copy that was pending at the call. */
  lemma {:induction false} MarkerWaits(s: State, e: nat, q: nat, deps: seq<nat>, onDefault: bool,
                                       before: seq<Step>, m: State, after: seq<Step>, s': State)
    requires Reachable(s) && CanRecordBegin(s, e, q, deps, onDefault)
    requires Run(DoRecordBegin(s, e, q, deps, onDefault), before, m) && forall a :: a in before ==> !Begins(a, e)
    requires CanRecordMarker(m, q) && m.queues[q].holder.event == e && Run(DoRecordMarker(m, q), after, s')
    ensures e < |s'.events| && q < |s'.queues| && DoRecordMarker(m, q).events[e].epoch == s.events[e].epoch + 1
    ensures s.events[e].epoch + 1 in s'.events[e].finished ==>
      && (forall p: nat :: p < |m.queues[q].gpu.log| ==> p in s'.queues[q].gpu.done)
      && (onDefault ==> forall d :: 0 <= d < |s.events| && s.events[d].pending && s.events[d].copy ==>
            d < |s'.events| && s.events[d].epoch in s'.events[d].finished)
  {
    hide Reachable, Good, Run, Begins, CanRecordBegin, RecordHolds, Guarded, MarkerStands;
    ReachableGood(s);
    BeginKeeps(s, e, q, deps, onDefault);
    var held := if onDefault then PendingCopies(s) else {};
    var s0, k, p := DoRecordBegin(s, e, q, deps, onDefault), s.events[e].epoch + 1, |m.queues[q].gpu.log|;
    ReachedGood(s0, before, m);
    HolderRecording(m, q);
    forall o | o in held ensures RecordHolds(s0, e, q, o) { RecordStart(s, e, q, deps, onDefault, o); }
    RecordHoldsRun(s0, before, m, e, q, held);
    forall o | o in held ensures RecordHolds(m, e, q, o) {}
    MarkerStart(m, e, q, held);
    MarkerRun(DoRecordMarker(m, q), after, s', e, q, p, k, held);
    assert e < |s'.events| && q < |s'.queues| by { Stands(s', e, q, p, k); }
    if k in s'.events[e].finished {
      MarkerLast(s', e, q, p, k, held);
      forall d | onDefault && 0 <= d < |s.events| && s.events[d].pending && s.events[d].copy
        ensures d < |s'.events| && s.events[d].epoch in s'.events[d].finished
      {
        assert Occurrence(d, s.events[d].epoch) in held;
      }
    }
  }

  lemma Stands(s: State, e: nat, q: nat, p: nat, k: nat)
    requires MarkerStands(s, e, q, p, k)
    ensures e < |s.events| && q < |s.queues|
  {
  }

  lemma BeginKeeps(s: State, e: nat, q: nat, deps: seq<nat>, onDefault: bool)
    requires Good(s) && CanRecordBegin(s, e, q, deps, onDefault)
    ensures e < |s.events| && Good(DoRecordBegin(s, e, q, deps, onDefault))
  {
    hide Good;
    KeepStep(s, ByRecording(RecordBegin(e, q, deps, onDefault)));
  }

  lemma ReachedGood(s: State, steps: seq<Step>, m: State)
    requires Good(s) && Run(s, steps, m)
    ensures Good(m)
  {
    hide Good, Run;
    RunKeeps(s, steps, m);
  }

  lemma HolderRecording(m: State, q: nat)
    requires Good(m) && CanRecordMarker(m, q)
    ensures m.events[m.queues[q].holder.event].recording.Some?
  {
    hide QueueOk, LaunchGood, EventGood, Accounted;
    assert QueueGood(m, q);
  }
}
