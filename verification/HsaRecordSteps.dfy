/** Recording an event and submitting an asynchronous copy keep the invariant: the event
    is re-armed only when no packet and no call refers to it. */
module HsaRecordSteps {
  import opened Common
  import opened HsaState
  import opened HsaSteps
  import opened HsaInvariant
  import opened HsaFrame
  import opened HsaPublish
  import HsaLaunchSteps

  // ---------------------------------------------------------------- assembling

  /** A step of one queue, by nobody in particular, that may re-arm the hot events. */
  lemma AssembleHot(s: State, q: nat, q': Queue, events': Events, hot: set<nat>)
    requires Inv(s) && q < |s.queues|
    requires QueueOk(q, q', events')
    requires HolderOk(Put(s, q, q', events'), q) && InFlightOk(Put(s, q, q', events'), q)
    requires ProgressOk(Put(s, q, q', events'), q)
    requires NoLaunchOn(s, q) || LaunchKeeps(s.queues[q], q', events')
    requires LockKeeps(s.queues[q], q', None)
    requires Evolves(s.events, events', hot) && OthersKeep(q, s.events, events') && ValidEvents(events', |s.queues|)
    requires Cold(s, None, q, hot)
    requires forall e :: e in hot && e < |events'| ==> RecordingOk(Put(s, q, q', events'), e)
    ensures Inv(Put(s, q, q', events'))
  {
    hide QueueOk, OthersKeep, LaunchKeeps, LockKeeps, EventOk, LaunchOk, Cold, HolderOk, InFlightOk, ProgressOk,
      RecordingOk, Evolves;
    var s' := Put(s, q, q', events');
    assert QueueGood(s', q);
    assert EventsValid(s');
    Assemble(s, s', None, q, hot);
  }

  lemma NobodyWaits(s: State, q: nat, q': Queue, events': Events)
    requires Inv(s) && q < |s.queues| && q'.progressWaits == s.queues[q].progressWaits
    requires q'.inFlight == s.queues[q].inFlight
    requires Evolves(s.events, events', {})
    ensures InFlightOk(Put(s, q, q', events'), q) && ProgressOk(Put(s, q, q', events'), q)
  {
    hide QueueOk, EventGood, LaunchGood;
    assert QueueGood(s, q);
  }

  // -------------------------------------------------------------------- begin

  /** No call refers to an event that is being recorded. */
  lemma RecordingIsCold(s: State, e: nat, q: nat)
    requires Inv(s) && e < |s.events| && s.events[e].recording.Some?
    requires forall k :: 0 <= k < |s.queues| && k != q && s.queues[k].holder.ByRecord? ==> s.queues[k].holder.event != e
    ensures Cold(s, None, q, {e})
  {
    hide QueueOk, EventOk;
    forall x, d | x in s.launches && d in s.launches[x].deps ensures d != e {
      assert LaunchGood(s, x);
      assert Pinned(s.events, d);
    }
    forall w | w in s.waits ensures s.waits[w].event != e { assert WaitOk(s, s.waits[w]); }
    forall x, d | 0 <= x < |s.events| && s.events[x].recording.Some? && d in s.events[x].recording.value.deps
      ensures d != e {
      assert EventGood(s, x);
      assert Pinned(s.events, d);
    }
    forall k, d: nat | 0 <= k < |s.queues| && EventSignal(d) in s.queues[k].progressWaits ensures d != e {
      assert QueueGood(s, k);
      assert Pinned(s.events, d);
    }
  }

  /** No call refers to an event a record or copy may re-arm. */
  lemma IdleIsCold(s: State, e: nat, q: nat)
    requires Inv(s) && Idle(s, e)
    ensures Cold(s, None, q, {e})
  {
    hide QueueOk, EventOk, LaunchOk;
    forall k | 0 <= k < |s.queues| && s.queues[k].holder.ByRecord? ensures s.queues[k].holder.event != e {
      assert QueueGood(s, k);
    }
  }

  lemma KeepRecordBegin(s: State, e: nat, q: nat, deps: seq<nat>, onDefault: bool)
    requires Inv(s) && CanRecordBegin(s, e, q, deps, onDefault)
    requires s.events[e].depQueues == map[]
    ensures Inv(DoRecordBegin(s, e, q, deps, onDefault))
  {
    hide QueueOk, LaunchOk, Cold, Unreferenced;
    var s' := DoRecordBegin(s, e, q, deps, onDefault);
    AllEventsValid(s);
    IdleIsCold(s, e, |s.queues|);
    forall d | d in deps ensures Pinned(s'.events, d) { assert EventGood(s, d); }
    assert EventOk(s.events[e]);
    AssembleEventsOnly(s, s', {e});
  }

  lemma KeepRecordLock(s: State, e: nat)
    requires Inv(s) && CanRecordLock(s, e)
    ensures Inv(DoRecordLock(s, e))
  {
    hide QueueOk, LaunchOk, LaunchKeeps, EventOk, OthersKeep, Evolves, ValidEvents, Cold;
    var r := s.events[e].recording.value;
    var x := s.queues[r.queue];
    var x' := x.(holder := ByRecord(e, r.deps));
    assert QueueGood(s, r.queue) && EventGood(s, e);
    ChangeHolder(r.queue, x, s.events, x'.holder);
    PublishKeepsLaunches(x, x', s.events);
    HsaLaunchSteps.SameEvents(s, r.queue);
    assert Cold(s, None, r.queue, {}) by { NothingHot(s, r.queue); }
    AssembleHot(s, r.queue, x', s.events, {});
  }

  lemma NothingHot(s: State, q: nat)
    ensures Cold(s, None, q, {})
  {
  }

  // ------------------------------------------------------------------ barriers

  lemma RecordEntryFits(s: State, q: nat)
    requires Inv(s) && CanRecordBarrier(s, q)
    ensures EntryFits(q, s.queues[q], s.events, BarrierAnd(EventSignals(Head(s.queues[q].holder.todo)), None),
                      PendingBarrier(EventSignal(s.queues[q].holder.event), Head(s.queues[q].holder.todo),
                                     |s.queues[q].gpu.log|))
    ensures forall d :: d in Head(s.queues[q].holder.todo) ==> Pinned(s.events, d)
  {
    hide QueueOk, EventOk, LaunchGood;
    var h := s.queues[q].holder;
    assert QueueGood(s, q);
    assert EventGood(s, h.event);
    forall d | d in Head(h.todo) ensures Pinned(s.events, d) { assert d in h.todo; }
  }

  lemma RecordHolderStays(s: State, q: nat)
    requires Inv(s) && CanRecordBarrier(s, q)
    ensures HolderOk(DoRecordBarrier(s, q), q)
  {
    hide QueueOk, EventOk, LaunchGood, RetainActive;
    var h := s.queues[q].holder;
    assert QueueGood(s, q);
    HsaLaunchSteps.ChunkTaken(h.todo);
    forall d | d in Rest(h.todo) ensures d in h.todo {}
  }

  lemma KeepRecordBarrier(s: State, q: nat)
    requires Inv(s) && CanRecordBarrier(s, q)
    ensures Inv(DoRecordBarrier(s, q))
  {
    hide DispatchSide, BarrierSide, SyncSide, EventSide, LaunchOk, LaunchKeeps, EventOk, OthersKeep, Evolves,
      ValidEvents, Cold, EntryFits, RetainAll, RetainActive;
    hide QueueGood, EventGood, LaunchGood, HolderOk, InFlightOk, ProgressOk;
    var x := s.queues[q];
    var h := x.holder;
    var deps := Head(h.todo);
    var s' := DoRecordBarrier(s, q);
    var y := PublishDependencies(x, EventSignal(h.event), deps);
    QueueIsOk(s, q);
    RecordEntryFits(s, q);
    PublishOk(q, x, s.events, |s.queues|, EventSignal(h.event), deps);
    ChangeHolder(q, y, s'.events, ByRecord(h.event, Rest(h.todo)));
    RetainStep(q, s.events, deps, |s.queues|);
    HsaLaunchSteps.StillActive(x.active, deps);
    PublishKeepsLaunches(x, s'.queues[q], s'.events);
    NobodyWaits(s, q, s'.queues[q], s'.events);
    RecordHolderStays(s, q);
    assert Cold(s, None, q, {}) by { NothingHot(s, q); }
    AssembleHot(s, q, s'.queues[q], s'.events, {});
  }

  // -------------------------------------------------------------------- marker

  /** Re-arming event e and nothing else. */
  ghost predicate Rearmed(events: Events, events': Events, e: nat) {
    && |events'| == |events|
    && e < |events|
    && (forall x :: 0 <= x < |events| && x != e ==>
          events'[x] == events[x].(depCount := events'[x].depCount))
    && !events[e].pending
    && (events[e].epoch > 0 ==> events[e].epoch in events[e].finished)
    && events[e].depQueues == map[]
    && events'[e].epoch == events[e].epoch + 1
    && events'[e].finished == events[e].finished
    && events'[e].signal == 1
    && events'[e].pending
    && events'[e].depQueues == map[]
    && events'[e].recording.None?
  }

  lemma RearmEvolves(events: Events, events': Events, e: nat)
    requires Rearmed(events, events', e)
    ensures Evolves(events, events', {e})
  {
  }

  lemma RearmOthers(events: Events, events': Events, e: nat, q: nat)
    requires Rearmed(events, events', e)
    requires events[e].recorded.None?
    requires events'[e].recorded.Some? ==> events'[e].recorded.value.queue == q
    ensures OthersKeep(q, events, events')
  {
  }

  lemma RearmValid(events: Events, events': Events, e: nat, n: nat)
    requires Rearmed(events, events', e) && ValidEvents(events, n)
    requires events'[e].copy <==> events'[e].recorded.None?
    requires events'[e].recorded.Some? ==> events'[e].recorded.value.queue < n
    ensures ValidEvents(events', n)
  {
  }

  lemma Unretained(qi: nat, q: Queue, events: Events, e: nat, i: nat)
    requires CountsOk(qi, q.pendingBarriers, q.active, events) && e < |events| && events[e].depQueues == map[]
    requires i < |q.pendingBarriers|
    ensures e !in q.pendingBarriers[i].dependencies
  {
    if e in q.pendingBarriers[i].dependencies { InBag(q.pendingBarriers, i, e); }
  }

  lemma RearmBarriers(qi: nat, q: Queue, events: Events, events': Events, e: nat)
    requires BarriersOk(q.gpu.log, q.gpu.done, events, q.pendingBarriers)
    requires CountsOk(qi, q.pendingBarriers, q.active, events)
    requires Rearmed(events, events', e)
    ensures BarriersOk(q.gpu.log, q.gpu.done, events', q.pendingBarriers)
    ensures CountsOk(qi, q.pendingBarriers, q.active, events')
  {
    forall i | 0 <= i < |q.pendingBarriers| ensures BarrierOk(q.gpu.log, q.gpu.done, events', q.pendingBarriers[i]) {
      assert BarrierOk(q.gpu.log, q.gpu.done, events, q.pendingBarriers[i]);
      Unretained(qi, q, events, e, i);
    }
  }

  lemma RearmAwaits(log: Log, done: set<nat>, events: Events, events': Events, e: nat)
    requires AwaitsOk(log, done, events) && Rearmed(events, events', e)
    ensures AwaitsOk(log, done, events')
  {
    forall p, o | 0 <= p < |log| && log[p].Dispatch? && o in log[p].awaits
      ensures Guarded(log, done, events', o, p, [])
    {
      assert Guarded(log, done, events, o, p, []);
    }
  }

  /** The barriers published for this record now retire on its marker. */
  lemma MarkRetirements(qi: nat, q: Queue, events: Events, events': Events, e: nat)
    requires BarriersOk(q.gpu.log, q.gpu.done, events, q.pendingBarriers)
    requires RetireMarkersOk(qi, events, q.holder, q.pendingBarriers)
    requires Rearmed(events, events', e) && q.holder.ByRecord? && q.holder.event == e
    requires events'[e].recorded == Some(Record(qi, |q.gpu.log|))
    ensures RetireMarkersOk(qi, events', Unlocked, q.pendingBarriers)
  {
    forall i | 0 <= i < |q.pendingBarriers| ensures RetireMarkerOk(qi, events', Unlocked, q.pendingBarriers[i]) {
      assert BarrierOk(q.gpu.log, q.gpu.done, events, q.pendingBarriers[i]);
      assert RetireMarkerOk(qi, events, q.holder, q.pendingBarriers[i]);
    }
  }

  lemma MarkMarkers(qi: nat, g: Gpu, pe: seq<nat>, events: Events, events': Events, e: nat)
    requires MarkersOk(qi, g.log, g.done, pe, events) && LogOk(g) && Rearmed(events, events', e)
    requires events'[e].recorded == Some(Record(qi, |g.log|))
    ensures MarkersOk(qi, g.log + [BarrierAnd([], Some(EventSignal(e)))], g.done, pe + [e], events')
  {
    hide LogOk;
    HsaLaunchSteps.NotDone(g);
    var log' := g.log + [BarrierAnd([], Some(EventSignal(e)))];
    forall x | x in pe ensures x != e && MarkerOk(qi, log', g.done, events', x) {
      assert MarkerOk(qi, g.log, g.done, events, x);
    }
    assert MarkerOk(qi, log', g.done, events', e);
    assert Distinct(pe + [e]);
  }

  lemma MarkCover(qi: nat, q: Queue, events: Events, events': Events, e: nat, p: Packet)
    requires CoverOk(qi, q.gpu.log, q.gpu.done, q.pendingDispatches, q.pendingBarriers, q.pendingEvents, events)
    requires MarkersOk(qi, q.gpu.log, q.gpu.done, q.pendingEvents, events)
    requires Rearmed(events, events', e) && events'[e].recorded == Some(Record(qi, |q.gpu.log|))
    ensures CoverOk(qi, q.gpu.log + [p], q.gpu.done, q.pendingDispatches, q.pendingBarriers, q.pendingEvents + [e],
                    events')
  {
    var pe' := q.pendingEvents + [e];
    forall r | 0 <= r < |q.gpu.log + [p]| && r !in q.gpu.done
      ensures Covered(qi, q.pendingDispatches, q.pendingBarriers, pe', events', r)
    {
      if r < |q.gpu.log| {
        assert Covered(qi, q.pendingDispatches, q.pendingBarriers, q.pendingEvents, events, r);
        if x :| x in q.pendingEvents && x < |events| && events[x].recorded == Some(Record(qi, r)) {
          assert MarkerOk(qi, q.gpu.log, q.gpu.done, events, x);
          assert x in pe' && events'[x].recorded == Some(Record(qi, r));
        }
      } else {
        assert e in pe';
      }
    }
  }

  function MarkQueue(q: Queue, e: nat): Queue {
    Append(q, BarrierAnd([], Some(EventSignal(e)))).(pendingEvents := q.pendingEvents + [e], holder := Unlocked)
  }

  lemma MarkBarrierSide(qi: nat, q: Queue, events: Events, events': Events, e: nat)
    requires BarrierSide(qi, q, events) && q.holder.ByRecord? && q.holder.event == e
    requires Rearmed(events, events', e) && events'[e].recorded == Some(Record(qi, |q.gpu.log|))
    ensures BarrierSide(qi, MarkQueue(q, e), events')
  {
    hide BarriersOk, RetireDispatchesOk, RetireMarkersOk, CountsOk, RetireSyncsOk, Rearmed;
    var p := BarrierAnd([], Some(EventSignal(e)));
    RearmBarriers(qi, q, events, events', e);
    MarkRetirements(qi, q, events, events', e);
    GrowBarriers(q.gpu.log, q.gpu.done, events', q.pendingBarriers, |q.syncValues|, p);
    assert NamesOk(MarkQueue(q, e).gpu.log, q.gpu.done, q.pendingBarriers);
  }

  lemma MarkSyncSide(q: Queue, e: nat)
    requires SyncSide(q) && LogOk(q.gpu) && q.holder.ByRecord?
    ensures SyncSide(MarkQueue(q, e))
  {
    hide LogOk, SyncOk, SyncDepsOk;
    HsaLaunchSteps.NotDone(q.gpu);
    GrowPlainSync(q.gpu.log, q.gpu.done, q.syncValues, q.pendingDispatches, q.pendingDispatches, q.pendingSyncs,
                  q.holder, Unlocked, BarrierAnd([], Some(EventSignal(e))));
  }

  lemma MarkQueueOk(qi: nat, q: Queue, events: Events, events': Events, e: nat)
    requires QueueOk(qi, q, events) && q.holder.ByRecord? && q.holder.event == e
    requires Rearmed(events, events', e) && events'[e].recorded == Some(Record(qi, |q.gpu.log|))
    ensures QueueOk(qi, MarkQueue(q, e), events')
  {
    hide DispatchSide, BarrierSide, SyncSide, LogOk, MarkersOk, CoverOk, AwaitsOk, Rearmed;
    var p := BarrierAnd([], Some(EventSignal(e)));
    var q' := MarkQueue(q, e);
    LogIsOk(q);
    AppendDispatchSide(q, q', p);
    MarkBarrierSide(qi, q, events, events', e);
    MarkSyncSide(q, e);
    MarkMarkers(qi, q.gpu, q.pendingEvents, events, events', e);
    MarkCover(qi, q, events, events', e, p);
    RearmAwaits(q.gpu.log, q.gpu.done, events, events', e);
    GrowAwaits(q.gpu.log, q.gpu.done, events', p);
  }

  lemma MarkerRearms(s: State, q: nat)
    requires Inv(s) && CanRecordMarker(s, q)
    ensures Rearmed(s.events, DoRecordMarker(s, q).events, s.queues[q].holder.event)
    ensures s.events[s.queues[q].holder.event].recorded.None?
    ensures forall k :: 0 <= k < |s.queues| && k != q && s.queues[k].holder.ByRecord? ==>
      s.queues[k].holder.event != s.queues[q].holder.event
  {
    hide QueueOk, LaunchGood;
    var e := s.queues[q].holder.event;
    assert QueueGood(s, q);
    assert EventGood(s, e);
    forall k | 0 <= k < |s.queues| && k != q && s.queues[k].holder.ByRecord? ensures s.queues[k].holder.event != e {
      assert QueueGood(s, k);
    }
  }

  lemma MarkCalls(s: State, q: nat)
    requires Inv(s) && CanRecordMarker(s, q)
    ensures HolderOk(DoRecordMarker(s, q), q) && InFlightOk(DoRecordMarker(s, q), q)
    ensures ProgressOk(DoRecordMarker(s, q), q)
    ensures RecordingOk(DoRecordMarker(s, q), s.queues[q].holder.event)
  {
    hide QueueOk, EventGood, LaunchGood;
    assert QueueGood(s, q);
  }

  lemma KeepRecordMarker(s: State, q: nat)
    requires Inv(s) && CanRecordMarker(s, q)
    ensures Inv(DoRecordMarker(s, q))
    ensures Rearmed(s.events, DoRecordMarker(s, q).events, s.queues[q].holder.event)
  {
    hide DispatchSide, BarrierSide, SyncSide, EventSide, LaunchKeeps, OthersKeep, Evolves, ValidEvents, Cold, Rearmed;
    hide QueueGood, EventGood, LaunchGood, HolderOk, InFlightOk, ProgressOk, RecordingOk;
    var x := s.queues[q];
    var e := x.holder.event;
    var s' := DoRecordMarker(s, q);
    QueueIsOk(s, q);
    MarkerRearms(s, q);
    MarkQueueOk(q, x, s.events, s'.events, e);
    RearmEvolves(s.events, s'.events, e);
    RearmOthers(s.events, s'.events, e, q);
    RearmValid(s.events, s'.events, e, |s.queues|);
    assert s.events[e].recording.Some? by { HolderRecords(s, q); }
    RecordingIsCold(s, e, q);
    PublishKeepsLaunches(x, s'.queues[q], s'.events);
    MarkCalls(s, q);
    AssembleHot(s, q, s'.queues[q], s'.events, {e});
  }

  lemma HolderRecords(s: State, q: nat)
    requires Inv(s) && q < |s.queues| && s.queues[q].holder.ByRecord?
    ensures s.queues[q].holder.event < |s.events| && s.events[s.queues[q].holder.event].recording.Some?
  {
    assert QueueGood(s, q);
  }

  // ------------------------------------------------------------ abandon, copies

  lemma KeepRecordAbandon(s: State, e: nat)
    requires Inv(s) && CanRecordAbandon(s, e)
    ensures Inv(DoRecordAbandon(s, e))
  {
    hide QueueOk, LaunchOk, Cold;
    var s' := DoRecordAbandon(s, e);
    AllEventsValid(s);
    RecordingIsCold(s, e, |s.queues|);
    assert EventOk(s.events[e]);
    AssembleEventsOnly(s, s', {e});
  }

  lemma CopyRearms(s: State, e: nat, deps: seq<nat>)
    requires Inv(s) && CanCopySubmit(s, e, deps) && s.events[e].depQueues == map[]
    ensures Rearmed(s.events, DoCopySubmit(s, e, deps).events, e)
    ensures s.events[e].recorded.None?
  {
    hide QueueOk, LaunchGood;
    assert EventGood(s, e);
  }

  lemma KeepCopySubmit(s: State, e: nat, deps: seq<nat>)
    requires Inv(s) && CanCopySubmit(s, e, deps)
    requires s.events[e].depQueues == map[]
    ensures Inv(DoCopySubmit(s, e, deps))
    ensures Rearmed(s.events, DoCopySubmit(s, e, deps).events, e)
  {
    hide QueueGood, LaunchGood, EventGood, Cold, Evolves, Rearmed, OthersKeep, ValidEvents, AddRefs;
    var s' := DoCopySubmit(s, e, deps);
    CopyRearms(s, e, deps);
    RearmEvolves(s.events, s'.events, e);
    forall k | 0 <= k < |s.queues| ensures EventsKeep(k, s.events, s'.events) {
      RearmOthers(s.events, s'.events, e, k + 1);
      OtherKeeps(k + 1, k, s.events, s'.events);
    }
    assert ValidEvents(s.events, |s.queues|) by { AllEventsValid(s); EventsAgree(s); }
    RearmValid(s.events, s'.events, e, |s.queues|);
    assert EventsValid(s') by { EventsAgreeBack(s'); }
    IdleIsCold(s, e, |s.queues|);
    AssembleEventsOnly(s, s', {e});
  }

  lemma EventsAgree(s: State)
    requires EventsValid(s)
    ensures ValidEvents(s.events, |s.queues|)
  {
  }

  lemma EventsAgreeBack(s: State)
    requires ValidEvents(s.events, |s.queues|)
    ensures EventsValid(s)
  {
  }
}
