/** Every step of every run keeps the invariant. */
module HsaRuns {
  import opened HsaState
  import opened HsaSteps
  import opened HsaInvariant
  import opened HsaAccounting
  import opened HsaDeviceSteps
  import opened HsaReapSteps
  import opened HsaWaitSteps
  import opened HsaLaunchSteps
  import opened HsaRecordSteps
  import opened HsaSyncSteps

  ghost predicate Good(s: State) {
    Inv(s) && Accounted(s)
  }

  lemma KeepDevice(s: State, a: DeviceStep)
    requires Good(s) && DeviceEnabled(s, a)
    ensures Inv(DeviceApply(s, a))
  {
    hide Inv, PinsOk;
    match a
    case NewQueue(size) =>
      forall e | 0 <= e < |s.events| ensures |s.queues| !in s.events[e].depQueues {
        assert RefOk(s.events, |s.queues|, e);
      }
      KeepNewQueue(s, size);
    case NewEvent => KeepNewEvent(s);
    case GpuTake(q) => KeepGpuTake(s, q);
    case GpuComplete(q, p) => KeepGpuComplete(s, q, p);
    case CopyDone(e) => KeepCopyDone(s, e);
  }

  lemma KeepReap(s: State, a: ReapStep)
    requires Good(s) && ReapEnabled(s, a)
    ensures Inv(ReapApply(s, a))
  {
    hide Inv, Accounted;
    match a
    case ReapBarrier(q, i) => KeepReapBarrier(s, q, i);
    case ReapDispatch(q) => KeepReapDispatch(s, q);
    case FinishEvent(e) => KeepFinishEvent(s, e);
    case WaitBegin(q) => KeepWaitBegin(s, q);
    case WaitEnd(q, i, j) => KeepWaitEnd(s, q, i, j);
    case EventWaitBegin(w, e) => KeepEventWaitBegin(s, w, e);
    case EventWaitEnd(w) => KeepEventWaitEnd(s, w);
  }

  lemma KeepLaunching(s: State, a: LaunchStep)
    requires Good(s) && LaunchingEnabled(s, a)
    ensures Inv(LaunchingApply(s, a))
  {
    hide Inv, Accounted;
    match a
    case LaunchCollect(t, q, explicit, deps) => KeepLaunchCollect(s, t, q, explicit, deps);
    case DefaultCollect(t, q, explicit, deps, hasDeps, implicit, k) =>
      KeepDefaultCollect(s, t, q, explicit, deps, hasDeps, implicit, k);
    case LaunchGate(t, n) => KeepLaunchGate(s, t, n);
    case LaunchResume(t) => KeepLaunchResume(s, t);
    case LaunchAcquire(t, k) => KeepLaunchAcquire(s, t, k);
    case LaunchScan(t) => KeepLaunchScan(s, t);
    case LaunchBarrier(t, i) => KeepLaunchBarrier(s, t, i);
    case LaunchDispatch(t, i) => KeepLaunchDispatch(s, t, i);
    case LaunchFail(t, i) => KeepLaunchFail(s, t, i);
    case LaunchAbandon(t) => KeepLaunchAbandon(s, t);
  }

  lemma KeepRecording(s: State, a: RecordStep)
    requires Good(s) && RecordingEnabled(s, a)
    ensures Inv(RecordingApply(s, a))
  {
    hide Inv, RefsOk, PinsOk;
    match a
    case RecordBegin(e, q, deps, onDefault) =>
      NoRefs(s, e);
      KeepRecordBegin(s, e, q, deps, onDefault);
    case RecordLock(e) => KeepRecordLock(s, e);
    case RecordBarrier(q) => KeepRecordBarrier(s, q);
    case RecordMarker(q) => KeepRecordMarker(s, q);
    case RecordAbandon(e) => KeepRecordAbandon(s, e);
    case CopySubmit(e, deps) =>
      NoRefs(s, e);
      KeepCopySubmit(s, e, deps);
  }

  lemma KeepSyncing(s: State, a: SyncStep)
    requires Good(s) && SyncingEnabled(s, a)
    ensures Inv(SyncingApply(s, a))
  {
    hide Inv, Accounted;
    match a
    case SyncBegin(q, signals) => KeepSyncBegin(s, q, signals);
    case SyncBarrier(q) => KeepSyncBarrier(s, q);
    case SyncEnd(q) => KeepSyncEnd(s, q);
    case TailMarker(q) => KeepTailMarker(s, q);
    case SyncFinish(q, i) => KeepSyncFinish(s, q, i);
    case DestroyBegin(q) => KeepDestroyBegin(s, q);
    case DestroyPin(q) => KeepDestroyPin(s, q);
    case DestroyAbandon(q) => KeepDestroyAbandon(s, q);
    case DestroyFinish(q) => KeepDestroyFinish(s, q);
  }

  lemma KeepStep(s: State, a: Step)
    requires Good(s) && Enabled(s, a)
    ensures Good(Apply(s, a))
  {
    hide Inv, Accounted;
    match a
    case ByDevice(x) => KeepDevice(s, x); AccountDevice(s, x);
    case ByReap(x) => KeepReap(s, x); AccountReap(s, x);
    case ByLaunching(x) => KeepLaunching(s, x); AccountLaunching(s, x);
    case ByRecording(x) => KeepRecording(s, x); AccountRecording(s, x);
    case BySyncing(x) => KeepSyncing(s, x); AccountSyncing(s, x);
  }

  // --------------------------------------------------------------------- runs

  ghost predicate Run(s: State, steps: seq<Step>, s': State)
    decreases |steps|
  {
    if steps == [] then s' == s
    else Enabled(s, steps[0]) && Run(Apply(s, steps[0]), steps[1..], s')
  }

  ghost predicate Reaches(s: State, s': State) {
    exists steps :: Run(s, steps, s')
  }

  ghost predicate Reachable(s: State) {
    Reaches(Init(), s)
  }

  lemma InitGood()
    ensures Good(Init())
  {
  }

  lemma {:induction false} RunKeeps(s: State, steps: seq<Step>, s': State)
    requires Good(s) && Run(s, steps, s')
    ensures Good(s')
    decreases |steps|
  {
    hide Good, Apply, Enabled;
    if steps != [] {
      KeepStep(s, steps[0]);
      RunKeeps(Apply(s, steps[0]), steps[1..], s');
    }
  }

  /** The invariant holds in every state of every run. */
  lemma ReachableGood(s: State)
    requires Reachable(s)
    ensures Good(s)
  {
    hide Good, Run;
    InitGood();
    var steps :| Run(Init(), steps, s);
    RunKeeps(Init(), steps, s);
  }

  lemma {:induction false} RunJoin(s: State, left: seq<Step>, m: State, right: seq<Step>, s': State)
    requires Run(s, left, m) && Run(m, right, s')
    ensures Run(s, left + right, s')
    decreases |left|
  {
    hide Apply, Enabled;
    if left == [] {
      assert left + right == right;
    } else {
      RunJoin(Apply(s, left[0]), left[1..], m, right, s');
      assert (left + right)[1..] == left[1..] + right;
    }
  }

  lemma ReachesTrans(s: State, m: State, s': State)
    requires Reaches(s, m) && Reaches(m, s')
    ensures Reaches(s, s')
  {
    hide Run;
    var left :| Run(s, left, m);
    var right :| Run(m, right, s');
    RunJoin(s, left, m, right, s');
  }

  lemma ReachesStep(s: State, a: Step)
    requires Enabled(s, a)
    ensures Reaches(s, Apply(s, a))
  {
    hide Apply, Enabled;
    assert Run(Apply(s, a), [], Apply(s, a));
    assert [a][1..] == [];
    assert Run(s, [a], Apply(s, a));
  }

  lemma ReachesSelf(s: State)
    ensures Reaches(s, s)
  {
    hide Apply, Enabled;
    assert Run(s, [], s);
  }
}
