/** Steps touch one queue and a few events.  What the other queues and the other
    calls in flight rely on stays true. */
module HsaFrame {
  import opened Common
  import opened HsaState
  import opened HsaSteps
  import opened HsaInvariant

  /** How events may change under a step, seen by a queue that did not take it. */
  ghost predicate EventKeeps(qi: nat, a: Event, b: Event) {
    && a.finished <= b.finished
    && (a.epoch == b.epoch || (!a.pending && Get(a.depQueues, qi) == 0 && (a.epoch == 0 || a.epoch in a.finished)))
    && Get(b.depQueues, qi) == Get(a.depQueues, qi)
    && (a.pending && a.recorded.Some? && a.recorded.value.queue == qi ==>
          b.pending && b.recorded == a.recorded && b.signal == a.signal)
    && (b.pending && b.recorded.Some? && b.recorded.value.queue == qi ==>
          a.pending && b.recorded == a.recorded)
  }

  ghost predicate EventsKeep(qi: nat, events: seq<Event>, events': seq<Event>) {
    && |events| <= |events'|
    && (forall e :: 0 <= e < |events| ==> EventKeeps(qi, events[e], events'[e]))
    && (forall e :: |events| <= e < |events'| ==> events'[e] == NewEventValue())
  }

  /** No queue but q can tell the difference. */
  ghost predicate OthersKeep(q: nat, events: seq<Event>, events': seq<Event>) {
    |events'| == |events| && forall e, k: nat :: 0 <= e < |events| && k != q ==> EventKeeps(k, events[e], events'[e])
  }

  lemma FrameQueue(qi: nat, q: Queue, events: seq<Event>, events': seq<Event>)
    requires QueueOk(qi, q, events)
    requires EventsKeep(qi, events, events')
    ensures QueueOk(qi, q, events')
  {
    FrameBarriers(qi, q, events, events');
    FrameAwaits(qi, q.gpu.log, q.gpu.done, events, events');
    FrameCover(qi, q, events, events');
  }

  lemma {:induction false} InBag(bs: seq<PendingBarrier>, i: nat, e: nat)
    requires i < |bs| && e in bs[i].dependencies
    ensures DepCount(bs, e) > 0
  {
    if i < |bs| - 1 {
      InBag(bs[..|bs| - 1], i, e);
    } else {
      assert multiset(bs[|bs| - 1].dependencies)[e] > 0;
    }
  }

  lemma FrameBarriers(qi: nat, q: Queue, events: seq<Event>, events': seq<Event>)
    requires BarrierSide(qi, q, events)
    requires EventsKeep(qi, events, events')
    ensures BarrierSide(qi, q, events')
  {
    forall i | 0 <= i < |q.pendingBarriers|
      ensures BarrierOk(q.gpu.log, q.gpu.done, events', q.pendingBarriers[i])
      ensures RetireMarkerOk(qi, events', q.holder, q.pendingBarriers[i])
    {
      var b := q.pendingBarriers[i];
      assert BarrierOk(q.gpu.log, q.gpu.done, events, b) && RetireMarkerOk(qi, events, q.holder, b);
      forall e | e in b.dependencies
        ensures e < |events'| && EventSignal(e) in q.gpu.log[b.pid].deps
        ensures b.pid in q.gpu.done ==> events'[e].epoch in events'[e].finished
      {
        InBag(q.pendingBarriers, i, e);
        assert EventKeeps(qi, events[e], events'[e]);
      }
      if b.retirement.EventSignal? {
        assert EventKeeps(qi, events[b.retirement.event], events'[b.retirement.event]);
      }
    }
  }

  lemma FrameAwaits(qi: nat, log: Log, done: set<nat>, events: seq<Event>, events': seq<Event>)
    requires AwaitsOk(log, done, events)
    requires EventsKeep(qi, events, events')
    ensures AwaitsOk(log, done, events')
  {
  }

  lemma FrameCover(qi: nat, q: Queue, events: seq<Event>, events': seq<Event>)
    requires EventSide(qi, q, events)
    requires EventsKeep(qi, events, events')
    ensures MarkersOk(qi, q.gpu.log, q.gpu.done, q.pendingEvents, events')
    ensures CoverOk(qi, q.gpu.log, q.gpu.done, q.pendingDispatches, q.pendingBarriers, q.pendingEvents, events')
  {
  }

  /** How events may change under a step, seen by calls that refer to none of `hot`. */
  ghost predicate Evolves(events: seq<Event>, events': seq<Event>, hot: set<nat>) {
    && |events| <= |events'|
    && (forall e :: 0 <= e < |events| ==>
          && events[e].finished <= events'[e].finished
          && (e in hot ==> events[e].epoch == 0 || events[e].epoch in events[e].finished)
          && (e !in hot ==>
                && events'[e].epoch == events[e].epoch
                && events'[e].signal <= events[e].signal
                && events'[e].recording == events[e].recording
                && (events[e].recording.Some? && events[e].depQueues == map[] ==> events'[e].depQueues == map[])))
  }

  /** How its queue may change under a launch that is not the one taking the step. */
  ghost predicate LaunchKeeps(q: Queue, q': Queue, events': seq<Event>) {
    && q.gpu.log <= q'.gpu.log
    && (forall r: nat, e: nat :: r < |q.gpu.log| && r !in q.gpu.done && r in q'.gpu.done && q.gpu.log[r].BarrierAnd?
                                 && EventSignal(e) in q.gpu.log[r].deps && e < |events'| ==>
          events'[e].epoch in events'[e].finished)
    && (forall e :: e in q.active && e !in q'.active && e < |events'| ==> events'[e].signal == 0)
    && (q'.lifecycle == q.lifecycle || q'.lifecycle == Destroying)
  }

  lemma {:induction false} FilterShrinks(q: Queue, events: seq<Event>, q': Queue, events': seq<Event>, deps: seq<nat>)
    requires forall e :: e in deps && NeedsBarrier(q', events', e) ==> NeedsBarrier(q, events, e)
    ensures |Filter(q', events', deps)| <= |Filter(q, events, deps)|
  {
    if deps != [] {
      FilterShrinks(q, events, q', events', deps[1..]);
    }
  }

  lemma FrameGuard(q: Queue, events: seq<Event>, q': Queue, events': seq<Event>, hot: set<nat>, o: Occurrence,
                   todo: seq<nat>)
    requires Guarded(q.gpu.log, q.gpu.done, events, o, |q.gpu.log|, todo)
    requires Evolves(events, events', hot)
    requires forall e :: e in todo ==> e !in hot
    requires LaunchKeeps(q, q', events')
    ensures Guarded(q'.gpu.log, q'.gpu.done, events', o, |q'.gpu.log|, todo)
  {
  }

  lemma FrameLaunch(q: Queue, events: seq<Event>, q': Queue, events': seq<Event>, hot: set<nat>, t: nat, l: Launch)
    requires LaunchOk(q, events, t, l)
    requires Evolves(events, events', hot)
    requires forall e :: e in l.deps ==> e !in hot
    requires LaunchKeeps(q, q', events')
    requires q'.holder == ByLaunch(t) <==> q.holder == ByLaunch(t)
    requires q.holder == ByLaunch(t) ==> PendingCount(q') == PendingCount(q) && q'.size == q.size
    ensures LaunchOk(q', events', t, l)
  {
    forall o | o in l.awaits
      ensures Guarded(q'.gpu.log, q'.gpu.done, events', o, |q'.gpu.log|, Todo(l))
    {
      FrameGuard(q, events, q', events', hot, o, Todo(l));
    }
    FilterShrinks(q, events, q', events', l.deps);
    if l.stage.Scanning? {
      assert forall e :: e in l.stage.rest ==> e in Todo(l);
      FilterShrinks(q, events, q', events', l.stage.rest);
    }
  }

  /** No call in flight other than the launch `t` refers to a hot event. */
  ghost predicate Cold(s: State, t: Option<nat>, q: nat, hot: set<nat>) {
    && (forall x, e :: x in s.launches && t != Some(x) && e in s.launches[x].deps ==> e !in hot)
    && (forall w :: w in s.waits ==> s.waits[w].event !in hot)
    && (forall x, e :: 0 <= x < |s.events| && x !in hot && s.events[x].recording.Some?
                       && e in s.events[x].recording.value.deps ==>
          e !in hot)
    && (forall k, e: nat :: 0 <= k < |s.queues| && EventSignal(e) in s.queues[k].progressWaits ==> e !in hot)
    && (forall k :: 0 <= k < |s.queues| && k != q && s.queues[k].holder.ByRecord? ==> s.queues[k].holder.event !in hot)
  }

  /** The calls in flight other than launch `t` and the other queues are as before. */
  ghost predicate SameElse(s: State, s': State, t: Option<nat>, q: nat) {
    && q < |s.queues| == |s'.queues|
    && (forall k :: 0 <= k < |s.queues| && k != q ==> s'.queues[k] == s.queues[k])
    && (forall x :: x in s'.launches && t != Some(x) ==> x in s.launches && s'.launches[x] == s.launches[x])
    && (forall x :: x in s.launches && t != Some(x) ==> x in s'.launches)
    && (t.Some? && t.value in s.launches ==> s.launches[t.value].queue == q)
    && s'.waits == s.waits
  }

  ghost predicate EventsValid(s: State) {
    forall e :: 0 <= e < |s.events| ==>
      EventOk(s.events[e])
      && (s.events[e].recorded.Some? ==> s.events[e].recorded.value.queue < |s.queues|)
  }

  lemma AllEventsValid(s: State)
    requires Inv(s)
    ensures EventsValid(s)
  {
    forall e | 0 <= e < |s.events|
      ensures EventOk(s.events[e])
      ensures s.events[e].recorded.Some? ==> s.events[e].recorded.value.queue < |s.queues|
    {
      assert EventGood(s, e);
    }
  }

  /** The queue lock changes hands at most between nobody and launch `t`; the packets
      counted for a launch that holds it are not touched by others. */
  ghost predicate LockKeeps(q: Queue, q': Queue, t: Option<nat>) {
    forall x: nat :: t != Some(x) ==>
      && (q'.holder == ByLaunch(x) <==> q.holder == ByLaunch(x))
      && (q.holder == ByLaunch(x) ==> PendingCount(q') == PendingCount(q) && q'.size == q.size)
  }

  ghost predicate Changed(s: State, s': State, t: Option<nat>, q: nat, hot: set<nat>) {
    && SameElse(s, s', t, q)
    && Evolves(s.events, s'.events, hot)
    && Cold(s, t, q, hot)
  }

  lemma AssembleEvent(s: State, s': State, t: Option<nat>, q: nat, hot: set<nat>, e: nat)
    requires Inv(s) && Changed(s, s', t, q, hot)
    requires e < |s.events| && e !in hot && e < |s'.events|
    ensures RecordingOk(s', e)
  {
    assert EventGood(s, e);
  }

  lemma AssembleLaunch(s: State, s': State, t: Option<nat>, q: nat, hot: set<nat>, x: nat)
    requires Inv(s) && Changed(s, s', t, q, hot)
    requires NoLaunchOn(s, q) || LaunchKeeps(s.queues[q], s'.queues[q], s'.events)
    requires LockKeeps(s.queues[q], s'.queues[q], t)
    requires x in s'.launches && t != Some(x)
    ensures LaunchGood(s', x)
  {
    var l := s.launches[x];
    assert LaunchGood(s, x);
    if l.queue != q {
      assert LaunchKeeps(s.queues[l.queue], s'.queues[l.queue], s'.events);
    }
    FrameLaunch(s.queues[l.queue], s.events, s'.queues[l.queue], s'.events, hot, x, l);
  }

  lemma OtherKeeps(q: nat, k: nat, events: Events, events': Events)
    requires OthersKeep(q, events, events') && k != q
    ensures EventsKeep(k, events, events')
  {
  }

  lemma AssembleCalls(s: State, s': State, t: Option<nat>, q: nat, hot: set<nat>, k: nat)
    requires Changed(s, s', t, q, hot)
    requires k < |s.queues| && k != q
    requires HolderOk(s, k) && InFlightOk(s, k) && ProgressOk(s, k)
    ensures HolderOk(s', k) && InFlightOk(s', k) && ProgressOk(s', k)
  {
  }

  lemma AssembleQueue(s: State, s': State, t: Option<nat>, q: nat, hot: set<nat>, k: nat)
    requires Inv(s) && Changed(s, s', t, q, hot)
    requires k < |s.queues| && k != q
    requires OthersKeep(q, s.events, s'.events)
    ensures QueueGood(s', k)
  {
    hide QueueOk, OthersKeep, HolderOk, InFlightOk, ProgressOk, EventsKeep, Cold, Evolves, LaunchGood, EventGood;
    assert QueueGood(s, k);
    OtherKeeps(q, k, s.events, s'.events);
    FrameQueue(k, s.queues[k], s.events, s'.events);
    AssembleCalls(s, s', t, q, hot, k);
  }

  lemma Assemble(s: State, s': State, t: Option<nat>, q: nat, hot: set<nat>)
    requires Inv(s) && Changed(s, s', t, q, hot)
    requires OthersKeep(q, s.events, s'.events)
    requires QueueGood(s', q)
    requires EventsValid(s')
    requires forall e :: e in hot && e < |s'.events| ==> RecordingOk(s', e)
    requires NoLaunchOn(s, q) || LaunchKeeps(s.queues[q], s'.queues[q], s'.events)
    requires LockKeeps(s.queues[q], s'.queues[q], t)
    requires t.Some? && t.value in s'.launches ==> LaunchGood(s', t.value)
    ensures Inv(s')
  {
    forall k | 0 <= k < |s'.queues| && k != q ensures QueueGood(s', k) { AssembleQueue(s, s', t, q, hot, k); }
    forall e | 0 <= e < |s'.events| ensures EventGood(s', e) {
      if e !in hot { AssembleEvent(s, s', t, q, hot, e); }
    }
    forall x | x in s'.launches ensures LaunchGood(s', x) {
      if t != Some(x) { AssembleLaunch(s, s', t, q, hot, x); }
    }
    forall w | w in s'.waits ensures WaitOk(s', s'.waits[w]) {
      assert WaitOk(s, s.waits[w]);
    }
  }

  /** A step that changes events but no queue and no launch. */
  lemma AssembleEventsOnly(s: State, s': State, hot: set<nat>)
    requires Inv(s)
    requires s'.queues == s.queues && s'.launches == s.launches && s'.waits == s.waits
    requires Evolves(s.events, s'.events, hot)
    requires Cold(s, None, |s.queues|, hot)
    requires forall k :: 0 <= k < |s.queues| ==> EventsKeep(k, s.events, s'.events)
    requires forall e :: |s.events| <= e < |s'.events| ==> s'.events[e] == NewEventValue()
    requires EventsValid(s')
    requires forall e :: e in hot && e < |s'.events| ==> RecordingOk(s', e)
    ensures Inv(s')
  {
    hide QueueOk, LaunchOk, EventOk, EventKeeps;
    forall k | 0 <= k < |s'.queues| ensures QueueGood(s', k) {
      assert QueueGood(s, k);
      FrameQueue(k, s.queues[k], s.events, s'.events);
    }
    forall e | 0 <= e < |s'.events| ensures EventGood(s', e) {
      if e < |s.events| { assert EventGood(s, e); }
    }
    forall x | x in s'.launches ensures LaunchGood(s', x) {
      assert LaunchGood(s, x);
      var q := s.queues[s.launches[x].queue];
      FrameLaunch(q, s.events, q, s'.events, hot, x, s.launches[x]);
    }
    forall w | w in s'.waits ensures WaitOk(s', s'.waits[w]) {
      assert WaitOk(s, s.waits[w]);
    }
  }

  /** The step changes nothing a call in flight on the queue depends on directly. */
  ghost predicate CallsKeep(q: Queue, q': Queue) {
    && q'.holder == q.holder
    && q'.size == q.size
    && q'.lifecycle == q.lifecycle
    && q'.inFlight == q.inFlight
    && (forall e :: EventSignal(e) in q'.progressWaits ==> EventSignal(e) in q.progressWaits)
    && (q.holder != Unlocked ==> PendingCount(q') == PendingCount(q))
  }

  ghost predicate ValidEvents(events: Events, n: nat) {
    forall e :: 0 <= e < |events| ==>
      EventOk(events[e]) && (events[e].recorded.Some? ==> events[e].recorded.value.queue < n)
  }

  function Put(s: State, q: nat, q': Queue, events': Events): State
    requires q < |s.queues|
  {
    State(s.queues[q := q'], events', s.launches, s.waits)
  }

  lemma CallsGood(s: State, q: nat, q': Queue, events': Events)
    requires Inv(s) && q < |s.queues|
    requires CallsKeep(s.queues[q], q')
    requires Evolves(s.events, events', {})
    ensures HolderOk(Put(s, q, q', events'), q)
    ensures InFlightOk(Put(s, q, q', events'), q)
    ensures ProgressOk(Put(s, q, q', events'), q)
  {
    assert QueueGood(s, q);
  }

  /** A step of one queue that also changes events. */
  lemma AssembleStep(s: State, q: nat, q': Queue, events': Events)
    requires Inv(s) && q < |s.queues|
    requires QueueOk(q, q', events')
    requires CallsKeep(s.queues[q], q')
    requires LaunchKeeps(s.queues[q], q', events')
    requires Evolves(s.events, events', {})
    requires OthersKeep(q, s.events, events')
    requires ValidEvents(events', |s.queues|)
    ensures Inv(Put(s, q, q', events'))
  {
    var s' := Put(s, q, q', events');
    CallsGood(s, q, q', events');
    Assemble(s, s', None, q, {});
  }

  /** A step of one queue that leaves events alone. */
  lemma AssembleQueueStep(s: State, q: nat, q': Queue)
    requires Inv(s) && q < |s.queues|
    requires QueueOk(q, q', s.events)
    requires CallsKeep(s.queues[q], q')
    requires LaunchKeeps(s.queues[q], q', s.events)
    ensures Inv(Put(s, q, q', s.events))
  {
    AllEventsValid(s);
    AssembleStep(s, q, q', s.events);
  }

  /** The queue component of the invariant. */
  lemma QueueIsOk(s: State, q: nat)
    requires Inv(s) && q < |s.queues|
    ensures QueueOk(q, s.queues[q], s.events)
    ensures ValidEvents(s.events, |s.queues|)
  {
    assert QueueGood(s, q);
    AllEventsValid(s);
  }
}
