/** Device-wide synchronization.  One thread registers a wait for every pending event and
    a synchronization on every queue, with locks dropped in between and any other step of
    the runtime and the hardware interleaved, then waits for all of them. */
module HsaDeviceSync {
  import opened Common
  import opened HsaState
  import opened HsaSteps
  import opened HsaInvariant
  import opened HsaFrame
  import opened HsaAccounting
  import opened HsaRuns
  import opened HsaProgress

  /** The recording of each event pending on entry, how much of each queue's log the call
      answers for (its length on entry, and from the moment the call reaches the queue its
      length then), and what the call still has to register and to wait for. */
  datatype Call = Call(
    epochs: map<nat, nat>,
    logs: map<nat, nat>,
    events: set<nat>,
    queues: set<nat>,
    waits: set<nat>,
    completions: map<nat, nat>)

  datatype CallStep =
    | Other(step: Step)
    | RegisterEvent(e: nat, w: nat)
    | SkipEvent(e: nat)
    | SyncQueue(q: nat, signals: seq<Signal>)
    | SkipQueue(q: nat)
    | EventDone(w: nat)
    | QueueDone(q: nat, i: nat)

  function Enter(s: State): Call {
    var epochs := map e | 0 <= e < |s.events| && s.events[e].pending :: s.events[e].epoch;
    var logs := map q | 0 <= q < |s.queues| && s.queues[q].lifecycle != Destroyed :: |s.queues[q].gpu.log|;
    Call(epochs, logs, epochs.Keys, logs.Keys, {}, map[])
  }

  predicate CallEnabled(s: State, c: Call, x: CallStep) {
    match x
    case Other(a) => Enabled(s, a)
    case RegisterEvent(e, w) => e in c.events && CanEventWaitBegin(s, w, e)
    case SkipEvent(e) => e in c.events && e < |s.events| && !s.events[e].pending
    case SyncQueue(q, signals) => q in c.queues && CanSyncBegin(s, q, signals)
    case SkipQueue(q) =>
      q in c.queues && Free(s, q) && s.queues[q].lifecycle == Live && s.queues[q].pendingDispatches == []
      && forall e :: e in s.queues[q].pendingEvents ==> e < |s.events| && s.events[e].signal == 0
    case EventDone(w) => w in c.waits && CanEventWaitEnd(s, w)
    case QueueDone(q, i) =>
      q in c.completions && CanSyncFinish(s, q, i) && s.queues[q].pendingSyncs[i].completion == c.completions[q]
  }

  /** The step of the runtime behind a step of the call, if there is one. */
  function Underlying(s: State, c: Call, x: CallStep): (r: Option<Step>)
    requires CallEnabled(s, c, x)
    ensures r.Some? ==> Enabled(s, r.value)
  {
    match x
    case Other(a) => Some(a)
    case RegisterEvent(e, w) => Some(ByReap(EventWaitBegin(w, e)))
    case SkipEvent(_) => None
    case SyncQueue(q, signals) => Some(BySyncing(SyncBegin(q, signals)))
    case SkipQueue(_) => None
    case EventDone(w) => Some(ByReap(EventWaitEnd(w)))
    case QueueDone(q, i) => Some(BySyncing(SyncFinish(q, i)))
  }

  function NextState(s: State, c: Call, x: CallStep): State
    requires CallEnabled(s, c, x)
  {
    match Underlying(s, c, x)
    case Some(a) => Apply(s, a)
    case None => s
  }

  function NextCall(s: State, c: Call, x: CallStep): Call
    requires CallEnabled(s, c, x)
  {
    match x
    case Other(_) => c
    case RegisterEvent(e, w) => c.(events := c.events - {e}, waits := c.waits + {w})
    case SkipEvent(e) => c.(events := c.events - {e})
    case SyncQueue(q, _) =>
      c.(queues := c.queues - {q}, logs := c.logs[q := |s.queues[q].gpu.log|],
         completions := c.completions[q := |s.queues[q].syncValues|])
    case SkipQueue(q) => c.(queues := c.queues - {q}, logs := c.logs[q := |s.queues[q].gpu.log|])
    case EventDone(w) => c.(waits := c.waits - {w})
    case QueueDone(q, _) => c.(completions := c.completions - {q})
  }

  ghost predicate CallRun(s: State, c: Call, steps: seq<CallStep>, s': State, c': Call)
    decreases |steps|
  {
    if steps == [] then s' == s && c' == c
    else CallEnabled(s, c, steps[0]) && CallRun(NextState(s, c, steps[0]), NextCall(s, c, steps[0]), steps[1..], s', c')
  }

  predicate Returned(c: Call) {
    c.events == {} && c.queues == {} && c.waits == {} && c.completions == map[]
  }

  // -------------------------------------------------------------- the invariant

  ghost predicate DispatchesDone(q: Queue, n: nat) {
    n <= |q.gpu.log| && forall p: nat :: p < n && q.gpu.log[p].Dispatch? ==> p in q.gpu.done
  }

  /** A packet behind the first n packets completes the signal, or will be published. */
  ghost predicate Promised(q: Queue, c: nat, n: nat) {
    && c < |q.syncValues|
    && n <= |q.gpu.log|
    && (Unpublished(q.holder, c) > 0 || exists p :: n <= p < |q.gpu.log| && CompletesSync(q.gpu.log[p], c))
  }

  ghost predicate WaitsFor(s: State, c: Call, e: nat, k: nat) {
    exists w :: w in c.waits && w in s.waits && s.waits[w].event == e && s.waits[w].epoch == k
  }

  ghost predicate EventTracked(s: State, c: Call, e: nat, k: nat) {
    && e < |s.events|
    && 0 < k <= s.events[e].epoch
    && (k in s.events[e].finished || e in c.events || WaitsFor(s, c, e, k))
  }

  ghost predicate QueueTracked(s: State, c: Call, q: nat, n: nat) {
    && q < |s.queues|
    && n <= |s.queues[q].gpu.log|
    && (q in c.queues || DispatchesDone(s.queues[q], n)
      || (q in c.completions && Promised(s.queues[q], c.completions[q], n)))
  }

  ghost predicate CallOk(s: State, c: Call) {
    && (forall e :: e in c.epochs ==> EventTracked(s, c, e, c.epochs[e]))
    && (forall q :: q in c.logs ==> QueueTracked(s, c, q, c.logs[q]))
  }

  lemma EnterOk(s: State)
    requires Good(s)
    ensures CallOk(s, Enter(s))
  {
    hide Accounted, QueueGood, LaunchGood;
    var c := Enter(s);
    forall e | e in c.epochs ensures EventTracked(s, c, e, c.epochs[e]) { assert EventGood(s, e); }
  }

  // ------------------------------------------------------------ steps of others

  lemma WaitsPersist(s: State, a: Step, w: nat)
    requires Enabled(s, a) && w in s.waits && a != ByReap(EventWaitEnd(w))
    ensures w in Apply(s, a).waits && Apply(s, a).waits[w] == s.waits[w]
  {
    match a
    case ByReap(x) => ReapWaits(s, x, w);
    case ByDevice(x) => DeviceWaits(s, x);
    case ByLaunching(x) => LaunchingWaits(s, x);
    case ByRecording(x) => RecordingWaits(s, x);
    case BySyncing(x) => SyncingWaits(s, x);
  }

  lemma ReapWaits(s: State, a: ReapStep, w: nat)
    requires ReapEnabled(s, a) && w in s.waits && a != EventWaitEnd(w)
    ensures w in ReapApply(s, a).waits && ReapApply(s, a).waits[w] == s.waits[w]
  {
    hide ReapDispatchQueue, WaitEndQueue, ReapBarrierQueue;
  }

  lemma DeviceWaits(s: State, a: DeviceStep)
    requires DeviceEnabled(s, a)
    ensures DeviceApply(s, a).waits == s.waits
  {
  }

  lemma LaunchingWaits(s: State, a: LaunchStep)
    requires LaunchingEnabled(s, a)
    ensures LaunchingApply(s, a).waits == s.waits
  {
    hide Acquire, RetainActive, Awaits;
  }

  lemma RecordingWaits(s: State, a: RecordStep)
    requires RecordingEnabled(s, a)
    ensures RecordingApply(s, a).waits == s.waits
  {
    hide RetainActive;
  }

  lemma SyncingWaits(s: State, a: SyncStep)
    requires SyncingEnabled(s, a)
    ensures SyncingApply(s, a).waits == s.waits
  {
    hide RetainActive;
  }

  /** While a wait is registered its recording stays current; ending it means the
      recording has completed. */
  lemma WaitEndsFinished(s: State, w: nat)
    requires Inv(s) && CanEventWaitEnd(s, w)
    ensures s.waits[w].epoch in s.events[s.waits[w].event].finished
  {
    hide QueueGood, LaunchGood;
    assert WaitOk(s, s.waits[w]);
    assert EventGood(s, s.waits[w].event);
  }

  lemma EventStaysTracked(s: State, a: Step, c: Call, e: nat, k: nat)
    requires Good(s) && Enabled(s, a) && EventTracked(s, c, e, k)
    ensures EventTracked(Apply(s, a), c, e, k)
  {
    hide Inv, Accounted, Apply, Enabled, QueueAdvances;
    var s' := Apply(s, a);
    StepAdvances(s, a);
    assert EventAdvances(s.events[e], s'.events[e]);
    if k !in s.events[e].finished && e !in c.events {
      var w :| w in c.waits && w in s.waits && s.waits[w].event == e && s.waits[w].epoch == k;
      if a == ByReap(EventWaitEnd(w)) {
        assert CanEventWaitEnd(s, w) by { EndEnabled(s, w); }
        WaitEndsFinished(s, w);
      } else {
        WaitsPersist(s, a, w);
      }
    }
  }

  lemma EndEnabled(s: State, w: nat)
    requires Enabled(s, ByReap(EventWaitEnd(w)))
    ensures CanEventWaitEnd(s, w)
  {
  }

  lemma StillDone(q: Queue, q': Queue, n: nat)
    requires QueueAdvances(q, q') && DispatchesDone(q, n)
    ensures DispatchesDone(q', n)
  {
  }

  /** A synchronization with packets left to publish keeps the queue lock. */
  lemma SyncHolderPersists(s: State, a: Step, q: nat)
    requires Enabled(s, a) && q < |s.queues| && q < |Apply(s, a).queues|
    requires s.queues[q].holder.BySync? && s.queues[q].holder.signals != []
    requires a != BySyncing(SyncBarrier(q))
    ensures Apply(s, a).queues[q].holder == s.queues[q].holder
  {
    match a
    case ByReap(x) => ReapHolder(s, x, q);
    case ByDevice(x) => DeviceHolder(s, x, q);
    case ByLaunching(x) => LaunchingHolder(s, x, q);
    case ByRecording(x) => RecordingHolder(s, x, q);
    case BySyncing(x) => SyncingHolder(s, x, q);
  }

  lemma ReapHolder(s: State, a: ReapStep, q: nat)
    requires ReapEnabled(s, a) && q < |s.queues|
    ensures q < |ReapApply(s, a).queues| && ReapApply(s, a).queues[q].holder == s.queues[q].holder
  {
  }

  lemma DeviceHolder(s: State, a: DeviceStep, q: nat)
    requires DeviceEnabled(s, a) && q < |s.queues|
    ensures q < |DeviceApply(s, a).queues| && DeviceApply(s, a).queues[q].holder == s.queues[q].holder
  {
  }

  lemma LaunchingHolder(s: State, a: LaunchStep, q: nat)
    requires LaunchingEnabled(s, a) && q < |s.queues| && s.queues[q].holder.BySync?
    ensures q < |LaunchingApply(s, a).queues| && LaunchingApply(s, a).queues[q].holder == s.queues[q].holder
  {
    hide Awaits, HasCapacity;
  }

  lemma RecordingHolder(s: State, a: RecordStep, q: nat)
    requires RecordingEnabled(s, a) && q < |s.queues| && s.queues[q].holder.BySync?
    ensures q < |RecordingApply(s, a).queues| && RecordingApply(s, a).queues[q].holder == s.queues[q].holder
  {
    hide HasCapacity;
  }

  lemma SyncingHolder(s: State, a: SyncStep, q: nat)
    requires SyncingEnabled(s, a) && q < |s.queues| && s.queues[q].holder.BySync? && s.queues[q].holder.signals != []
    requires a != SyncBarrier(q)
    ensures q < |SyncingApply(s, a).queues| && SyncingApply(s, a).queues[q].holder == s.queues[q].holder
  {
    hide HasCapacity;
  }

  lemma SyncBarrierPromise(s: State, q: nat, c: nat, n: nat)
    requires CanSyncBarrier(s, q) && Promised(s.queues[q], c, n)
    ensures Promised(DoSyncBarrier(s, q).queues[q], c, n)
  {
    var x, x' := s.queues[q], DoSyncBarrier(s, q).queues[q];
    if Unpublished(x.holder, c) > 0 {
      assert CompletesSync(x'.gpu.log[|x.gpu.log|], c);
    } else {
      var p :| n <= p < |x.gpu.log| && CompletesSync(x.gpu.log[p], c);
      assert x'.gpu.log[p] == x.gpu.log[p];
    }
  }

  lemma PromiseKept(s: State, a: Step, q: nat, c: nat, n: nat)
    requires Good(s) && Enabled(s, a) && q < |s.queues| && Promised(s.queues[q], c, n)
    ensures q < |Apply(s, a).queues| && Promised(Apply(s, a).queues[q], c, n)
  {
    hide Inv, Accounted, Apply, Enabled, EventAdvances;
    var x := s.queues[q];
    var s' := Apply(s, a);
    StepAdvances(s, a);
    assert QueueAdvances(x, s'.queues[q]);
    if a == BySyncing(SyncBarrier(q)) {
      SyncBarrierStep(s, q, c, n);
    } else if Unpublished(x.holder, c) > 0 {
      SyncHolderPersists(s, a, q);
    } else {
      var p :| n <= p < |x.gpu.log| && CompletesSync(x.gpu.log[p], c);
      assert s'.queues[q].gpu.log[p] == x.gpu.log[p];
    }
  }

  lemma SyncBarrierStep(s: State, q: nat, c: nat, n: nat)
    requires Enabled(s, BySyncing(SyncBarrier(q))) && Promised(s.queues[q], c, n)
    ensures q < |Apply(s, BySyncing(SyncBarrier(q))).queues|
    ensures Promised(Apply(s, BySyncing(SyncBarrier(q))).queues[q], c, n)
  {
    SyncBarrierPromise(s, q, c, n);
  }

  lemma QueueStaysTracked(s: State, a: Step, c: Call, q: nat, n: nat)
    requires Good(s) && Enabled(s, a) && QueueTracked(s, c, q, n)
    ensures QueueTracked(Apply(s, a), c, q, n)
  {
    hide Inv, Accounted, Apply, Enabled, EventAdvances, Promised, DispatchesDone;
    StepAdvances(s, a);
    assert QueueAdvances(s.queues[q], Apply(s, a).queues[q]);
    if q !in c.queues {
      if DispatchesDone(s.queues[q], n) {
        StillDone(s.queues[q], Apply(s, a).queues[q], n);
      } else {
        PromiseKept(s, a, q, c.completions[q], n);
      }
    }
  }

  /** Whatever else happens, the call loses track of nothing. */
  lemma StepStaysTracked(s: State, a: Step, c: Call)
    requires Good(s) && Enabled(s, a) && CallOk(s, c)
    ensures CallOk(Apply(s, a), c)
  {
    hide Good, Apply, Enabled, EventTracked, QueueTracked;
    forall e | e in c.epochs ensures EventTracked(Apply(s, a), c, e, c.epochs[e]) {
      EventStaysTracked(s, a, c, e, c.epochs[e]);
    }
    forall q | q in c.logs ensures QueueTracked(Apply(s, a), c, q, c.logs[q]) {
      QueueStaysTracked(s, a, c, q, c.logs[q]);
    }
  }

  // -------------------------------------------------------- steps of the call

  lemma RegisterEventOk(s: State, c: Call, e: nat, w: nat)
    requires Good(s) && CallOk(s, c) && e in c.events && CanEventWaitBegin(s, w, e)
    ensures CallOk(DoEventWaitBegin(s, w, e), c.(events := c.events - {e}, waits := c.waits + {w}))
  {
    hide Accounted, QueueGood, LaunchGood, QueueTracked;
    var s' := DoEventWaitBegin(s, w, e);
    var c' := c.(events := c.events - {e}, waits := c.waits + {w});
    forall x | x in c.epochs ensures EventTracked(s', c', x, c.epochs[x]) {
      assert EventTracked(s, c, x, c.epochs[x]);
      assert EventGood(s, x);
      assert x == e ==> s'.waits[w].event == e && s'.waits[w].epoch == s.events[e].epoch;
      if WaitsFor(s, c, x, c.epochs[x]) {
        var v :| v in c.waits && v in s.waits && s.waits[v].event == x && s.waits[v].epoch == c.epochs[x];
        assert v in c'.waits && v in s'.waits && s'.waits[v] == s.waits[v];
      }
    }
    forall q | q in c.logs ensures QueueTracked(s', c', q, c.logs[q]) { SameTracking(s, c, s', c', q, c.logs[q]); }
  }

  lemma SameTracking(s: State, c: Call, s': State, c': Call, q: nat, n: nat)
    requires QueueTracked(s, c, q, n) && c'.queues == c.queues && c'.completions == c.completions
    requires |s'.queues| == |s.queues|
    requires forall k :: 0 <= k < |s.queues| ==>
      s'.queues[k].gpu == s.queues[k].gpu && s'.queues[k].holder == s.queues[k].holder
                                                 && s'.queues[k].syncValues == s.queues[k].syncValues
    ensures QueueTracked(s', c', q, n)
  {
  }

  lemma SkipEventOk(s: State, c: Call, e: nat)
    requires Good(s) && CallOk(s, c) && e < |s.events| && !s.events[e].pending
    ensures CallOk(s, c.(events := c.events - {e}))
  {
    hide Accounted, QueueGood, LaunchGood, Promised, DispatchesDone;
    var c' := c.(events := c.events - {e});
    forall x | x in c.epochs ensures EventTracked(s, c', x, c.epochs[x]) {
      assert EventTracked(s, c, x, c.epochs[x]);
      assert EventGood(s, x);
      if WaitsFor(s, c, x, c.epochs[x]) { assert WaitsFor(s, c', x, c.epochs[x]); }
    }
    forall q | q in c.logs ensures QueueTracked(s, c', q, c.logs[q]) { assert QueueTracked(s, c, q, c.logs[q]); }
  }

  lemma EventsSameTracking(s: State, c: Call, c': Call, e: nat, k: nat)
    requires EventTracked(s, c, e, k) && c'.events == c.events && c'.waits == c.waits
    ensures EventTracked(s, c', e, k)
  {
  }

  lemma SyncQueueOk(s: State, c: Call, q: nat, signals: seq<Signal>)
    requires Good(s) && CallOk(s, c) && q in c.queues && CanSyncBegin(s, q, signals)
    ensures CallOk(DoSyncBegin(s, q, signals), NextCall(s, c, SyncQueue(q, signals)))
  {
    hide Good, EventTracked;
    var s' := DoSyncBegin(s, q, signals);
    var c' := NextCall(s, c, SyncQueue(q, signals));
    assert EventsKept(s, s');
    forall e | e in c.epochs ensures EventTracked(s', c', e, c.epochs[e]) {
      EventsKeptTracked(s, s', c, c', e, c.epochs[e]);
    }
    forall k | k in c'.logs ensures QueueTracked(s', c', k, c'.logs[k]) {
      if k == q {
        assert Unpublished(s'.queues[q].holder, |s.queues[q].syncValues|) > 0;
      } else {
        assert QueueTracked(s, c, k, c.logs[k]);
      }
    }
  }

  ghost predicate EventsKept(s: State, s': State) {
    s'.events == s.events && s'.waits == s.waits
  }

  lemma EventsKeptTracked(s: State, s': State, c: Call, c': Call, e: nat, k: nat)
    requires EventTracked(s, c, e, k) && EventsKept(s, s') && c'.events == c.events && c'.waits == c.waits
    ensures EventTracked(s', c', e, k)
  {
    if WaitsFor(s, c, e, k) { assert WaitsFor(s', c', e, k); }
  }

  /** A queue with nothing to wait for has no unfinished dispatch. */
  lemma NothingToSync(qi: nat, q: Queue, events: Events)
    requires EventSide(qi, q, events) && BarriersOk(q.gpu.log, q.gpu.done, events, q.pendingBarriers)
    requires q.pendingDispatches == [] && forall e :: e in q.pendingEvents ==> e < |events| && events[e].signal == 0
    ensures DispatchesDone(q, |q.gpu.log|)
  {
    forall p: nat | p < |q.gpu.log| && q.gpu.log[p].Dispatch? ensures p in q.gpu.done {
      assert p !in q.gpu.done ==> Covered(qi, q.pendingDispatches, q.pendingBarriers, q.pendingEvents, events, p);
      assert forall i :: 0 <= i < |q.pendingBarriers| ==>
        BarrierOk(q.gpu.log, q.gpu.done, events, q.pendingBarriers[i]);
      assert forall e :: e in q.pendingEvents ==> MarkerOk(qi, q.gpu.log, q.gpu.done, events, e);
    }
  }

  lemma SkipQueueOk(s: State, c: Call, q: nat)
    requires Good(s) && CallOk(s, c) && CallEnabled(s, c, SkipQueue(q))
    ensures CallOk(s, NextCall(s, c, SkipQueue(q)))
  {
    hide Inv, Accounted, EventTracked, DispatchSide, SyncSide, Promised;
    var c' := NextCall(s, c, SkipQueue(q));
    QueueIsOk(s, q);
    NothingToSync(q, s.queues[q], s.events);
    forall e | e in c.epochs ensures EventTracked(s, c', e, c.epochs[e]) {
      EventsSameTracking(s, c, c', e, c.epochs[e]);
    }
    forall k | k in c'.logs ensures QueueTracked(s, c', k, c'.logs[k]) {
      if k != q { assert QueueTracked(s, c, k, c.logs[k]); }
    }
  }

  lemma EventDoneOk(s: State, c: Call, w: nat)
    requires Good(s) && CallOk(s, c) && CanEventWaitEnd(s, w)
    ensures CallOk(s, c.(waits := c.waits - {w}))
  {
    hide Inv, Accounted, Promised, DispatchesDone;
    var c' := c.(waits := c.waits - {w});
    WaitEndsFinished(s, w);
    forall e | e in c.epochs ensures EventTracked(s, c', e, c.epochs[e]) {
      assert EventTracked(s, c, e, c.epochs[e]);
      if WaitsFor(s, c, e, c.epochs[e]) {
        var v :| v in c.waits && v in s.waits && s.waits[v].event == e && s.waits[v].epoch == c.epochs[e];
        assert v != w ==> WaitsFor(s, c', e, c.epochs[e]);
      }
    }
    forall q | q in c.logs ensures QueueTracked(s, c', q, c.logs[q]) { assert QueueTracked(s, c, q, c.logs[q]); }
  }

  /** A synchronization signal is zero exactly when every packet that completes it has
      completed and none is left to publish. */
  lemma SyncSignalZero(q: Queue, c: nat)
    requires SyncSide(q) && c < |q.syncValues|
    ensures q.syncValues[c] == 0 <==>
      Unpublished(q.holder, c) == 0 && forall p: nat :: p < |q.gpu.log| && CompletesSync(q.gpu.log[p], c) ==>
        p in q.gpu.done
  {
    if q.syncValues[c] == 0 {
      assert |Undone(q.gpu.log, q.gpu.done, c)| == 0;
      forall p: nat | p < |q.gpu.log| && CompletesSync(q.gpu.log[p], c) ensures p in q.gpu.done {
        assert p !in Undone(q.gpu.log, q.gpu.done, c);
      }
    } else if Unpublished(q.holder, c) == 0 {
      assert |Undone(q.gpu.log, q.gpu.done, c)| > 0;
      var p :| p in Undone(q.gpu.log, q.gpu.done, c);
      assert p < |q.gpu.log| && CompletesSync(q.gpu.log[p], c) && p !in q.gpu.done;
    }
  }

  /** What a zero synchronization signal says about the dependencies of its packets: every
      packet before one of them has completed, so every dispatch it names has; and every
      event it still retains has completed its current recording. */
  lemma SyncDependenciesDone(s: State, q: nat, c: nat, p: nat)
    requires Reachable(s) && q < |s.queues| && c < |s.queues[q].syncValues| && s.queues[q].syncValues[c] == 0
    requires p < |s.queues[q].gpu.log| && CompletesSync(s.queues[q].gpu.log[p], c)
    ensures forall r: nat :: r <= p ==> r in s.queues[q].gpu.done
    ensures forall b, e :: b in s.queues[q].pendingBarriers && b.pid == p && e in b.dependencies ==>
        e < |s.events| && s.events[e].signal == 0 && s.events[e].epoch in s.events[e].finished
  {
    hide Reachable, Inv, EventSide, Conserved, Accounted;
    ReachableGood(s);
    QueueIsOk(s, q);
    var x := s.queues[q];
    SyncSignalZero(x, c);
    forall r: nat | r < p ensures r in x.gpu.done { assert HoldsBack(x.gpu.log, r, p); }
    forall b, e | b in x.pendingBarriers && b.pid == p && e in b.dependencies
      ensures e < |s.events| && s.events[e].signal == 0 && s.events[e].epoch in s.events[e].finished
    {
      var i :| 0 <= i < |x.pendingBarriers| && x.pendingBarriers[i] == b;
      assert BarrierOk(x.gpu.log, x.gpu.done, s.events, x.pendingBarriers[i]);
    }
  }

  /** Once the promised signal is zero, everything published before has completed. */
  lemma PromiseDelivered(q: Queue, c: nat, n: nat)
    requires LogOk(q.gpu) && SyncSide(q) && Promised(q, c, n) && q.syncValues[c] == 0
    ensures n <= |q.gpu.log| && forall p: nat :: p < n ==> p in q.gpu.done
  {
    SyncSignalZero(q, c);
    var r :| n <= r < |q.gpu.log| && CompletesSync(q.gpu.log[r], c);
    forall p: nat | p < n ensures p in q.gpu.done {
      assert HoldsBack(q.gpu.log, p, r);
    }
  }

  lemma QueueDoneOk(s: State, c: Call, q: nat, i: nat)
    requires Good(s) && CallOk(s, c) && CallEnabled(s, c, QueueDone(q, i))
    ensures CallOk(s, c.(completions := c.completions - {q}))
  {
    hide Inv, Accounted, EventTracked, BarrierSide, SyncSide, EventSide, Promised;
    var c' := c.(completions := c.completions - {q});
    QueueIsOk(s, q);
    forall e | e in c.epochs ensures EventTracked(s, c', e, c.epochs[e]) {
      EventsSameTracking(s, c, c', e, c.epochs[e]);
    }
    forall k | k in c.logs ensures QueueTracked(s, c', k, c.logs[k]) {
      assert QueueTracked(s, c, k, c.logs[k]);
      if k == q && Promised(s.queues[q], c.completions[q], c.logs[q]) {
        PromiseDelivered(s.queues[q], c.completions[q], c.logs[q]);
      }
    }
  }

  lemma CallStepOk(s: State, c: Call, x: CallStep)
    requires Good(s) && CallOk(s, c) && CallEnabled(s, c, x)
    ensures Good(NextState(s, c, x)) && CallOk(NextState(s, c, x), NextCall(s, c, x))
  {
    hide Good, CallOk, CanSyncBegin;
    match x
    case Other(a) => KeepStep(s, a); StepStaysTracked(s, a, c);
    case RegisterEvent(e, w) =>
      KeepStep(s, ByReap(EventWaitBegin(w, e)));
      RegisterEventOk(s, c, e, w);
    case SkipEvent(e) => SkipEventOk(s, c, e);
    case SyncQueue(q, signals) =>
      KeepStep(s, BySyncing(SyncBegin(q, signals)));
      SyncQueueOk(s, c, q, signals);
    case SkipQueue(q) => SkipQueueOk(s, c, q);
    case EventDone(w) =>
      EventDoneOk(s, c, w);
      KeepStep(s, ByReap(EventWaitEnd(w)));
      StepStaysTracked(s, ByReap(EventWaitEnd(w)), c.(waits := c.waits - {w}));
    case QueueDone(q, i) =>
      QueueDoneOk(s, c, q, i);
      KeepStep(s, BySyncing(SyncFinish(q, i)));
      StepStaysTracked(s, BySyncing(SyncFinish(q, i)), c.(completions := c.completions - {q}));
  }

  lemma {:induction false} CallRunOk(s: State, c: Call, steps: seq<CallStep>, s': State, c': Call)
    requires Good(s) && CallOk(s, c) && CallRun(s, c, steps, s', c')
    ensures Good(s') && CallOk(s', c') && c'.epochs == c.epochs && Grown(c, c')
    decreases |steps|
  {
    hide Good, CallOk, NextState, NextCall, CallEnabled;
    if steps != [] {
      CallStepOk(s, c, steps[0]);
      SameEntry(s, c, steps[0]);
      CallRunOk(NextState(s, c, steps[0]), NextCall(s, c, steps[0]), steps[1..], s', c');
    }
  }

  /** The call answers for at least as much of every queue. */
  ghost predicate Grown(c: Call, c': Call) {
    forall q :: q in c.logs ==> q in c'.logs && c.logs[q] <= c'.logs[q]
  }

  lemma SameEntry(s: State, c: Call, x: CallStep)
    requires CallEnabled(s, c, x) && CallOk(s, c)
    ensures NextCall(s, c, x).epochs == c.epochs && Grown(c, NextCall(s, c, x))
  {
    hide EventTracked, DispatchesDone, Promised, CanSyncBegin;
    forall q | q in c.logs ensures q in NextCall(s, c, x).logs && c.logs[q] <= NextCall(s, c, x).logs[q] {
      assert QueueTracked(s, c, q, c.logs[q]);
    }
  }

  /** When device synchronization returns successfully, every recording pending on entry
      has completed, and on every queue so has every dispatch published by the time the
      call reached that queue, however many other calls and packets were interleaved. */
  lemma {:induction false} DeviceSynchronized(s: State, steps: seq<CallStep>, s': State, c': Call)
    requires Reachable(s) && CallRun(s, Enter(s), steps, s', c') && Returned(c')
    ensures forall e :: 0 <= e < |s.events| && s.events[e].pending ==>
      e < |s'.events| && s.events[e].epoch in s'.events[e].finished
    ensures forall q :: 0 <= q < |s.queues| && s.queues[q].lifecycle != Destroyed ==>
      && q < |s'.queues| && q in c'.logs && |s.queues[q].gpu.log| <= c'.logs[q]
      && DispatchesDone(s'.queues[q], c'.logs[q])
  {
    hide Reachable, Good, CallRun;
    ReachableGood(s);
    EnterOk(s);
    CallRunOk(s, Enter(s), steps, s', c');
    forall e | 0 <= e < |s.events| && s.events[e].pending
      ensures e < |s'.events| && s.events[e].epoch in s'.events[e].finished {
      assert EventTracked(s', c', e, Enter(s).epochs[e]);
    }
    forall q | 0 <= q < |s.queues| && s.queues[q].lifecycle != Destroyed
      ensures q < |s'.queues| && q in c'.logs && |s.queues[q].gpu.log| <= c'.logs[q]
      ensures DispatchesDone(s'.queues[q], c'.logs[q])
    {
      assert q in Enter(s).logs && Enter(s).logs[q] == |s.queues[q].gpu.log|;
      assert QueueTracked(s', c', q, c'.logs[q]);
    }
  }
}
