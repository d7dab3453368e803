/** What every reachable state of the HSA runtime satisfies.  Each condition is a
    predicate of exactly the components it talks about, so a step has to re-establish
    only the conditions whose components it changes. */
module HsaInvariant {
  import opened Common
  import opened HsaState
  import opened HsaSteps

  type Log = seq<Packet>
  type Events = seq<Event>

  // ------------------------------------------------------- packet processor

  /** A packet is only taken once every barrier-AND packet before it completed and,
      if it carries the barrier bit, once every packet before it completed. */
  ghost predicate LogOk(g: Gpu) {
    && g.taken <= |g.log|
    && (forall p :: p in g.done ==> p < g.taken)
    && (forall p: nat, r: nat :: p < r < g.taken && HoldsBack(g.log, p, r) ==> p in g.done)
  }

  // ----------------------------------------------------- completion signals

  ghost predicate IsRange(b: multiset<nat>, n: nat) {
    forall h: nat :: b[h] == if h < n then 1 else 0
  }

  /** Every completion signal and every kernarg buffer of the queue is in exactly one
      of: the pool, a pending dispatch, a deferred dispatch, a launch in flight. */
  ghost predicate Conserved(q: Queue) {
    IsRange(SignalBag(q), |q.dispatchValues|) && IsRange(KernargBag(q), q.kernargs)
  }

  /** Signals that stand for no dispatch are armed. */
  ghost predicate ArmedOk(values: seq<nat>, pool: seq<nat>, flights: seq<InFlight>) {
    && (forall h :: h in pool ==> h < |values| && values[h] == 1)
    && (forall f :: f in flights ==> f.signal < |values| && values[f.signal] == 1)
  }

  /** The entry and its packet agree, and its signal is zero exactly when the packet completed. */
  ghost predicate EntryOk(log: Log, done: set<nat>, values: seq<nat>, d: PendingDispatch) {
    && d.pid < |log|
    && log[d.pid].Dispatch?
    && log[d.pid].completion == d.signal
    && d.signal < |values|
    && values[d.signal] == if d.pid in done then 0 else 1
  }

  ghost predicate DispatchesOk(log: Log, done: set<nat>, values: seq<nat>, pd: seq<PendingDispatch>) {
    && (forall i :: 0 <= i < |pd| ==> EntryOk(log, done, values, pd[i]))
    && (forall i, j :: 0 <= i < j < |pd| ==> pd[i].pid < pd[j].pid)
    && (forall i :: 0 < i < |pd| ==> log[pd[i].pid].barrierBit)
  }

  ghost predicate DeferredOk(log: Log, done: set<nat>, values: seq<nat>, deferred: seq<PendingDispatch>,
                             waits: seq<Signal>) {
    forall d :: d in deferred ==>
      EntryOk(log, done, values, d) && d.pid in done && DispatchSignal(d.signal) in waits
  }

  // --------------------------------------------------------------- barriers

  /** The packet names the signal of every event the entry retains; once it completed,
      the current recording of each of them has completed. */
  ghost predicate BarrierOk(log: Log, done: set<nat>, events: Events, b: PendingBarrier) {
    && b.pid < |log|
    && log[b.pid].BarrierAnd?
    && (forall e :: e in b.dependencies ==>
          e < |events| && EventSignal(e) in log[b.pid].deps
          && (b.pid in done ==> events[e].epoch in events[e].finished))
  }

  ghost predicate BarriersOk(log: Log, done: set<nat>, events: Events, pb: seq<PendingBarrier>) {
    forall i :: 0 <= i < |pb| ==> BarrierOk(log, done, events, pb[i])
  }

  /** Why a completion signal reaching zero proves that the barrier packet was consumed:
      it stands for a dispatch published later. */
  ghost predicate RetireDispatchOk(n: nat, pd: seq<PendingDispatch>, deferred: seq<PendingDispatch>,
                                   b: PendingBarrier) {
    b.retirement.DispatchSignal? ==>
      && b.retirement.handle < n
      && (forall i :: 0 <= i < |pd| && pd[i].signal == b.retirement.handle ==> b.pid < pd[i].pid)
      && (forall d :: d in deferred && d.signal == b.retirement.handle ==> b.pid < d.pid)
  }

  ghost predicate RetireDispatchesOk(n: nat, pd: seq<PendingDispatch>, deferred: seq<PendingDispatch>,
                                     pb: seq<PendingBarrier>) {
    forall i :: 0 <= i < |pb| ==> RetireDispatchOk(n, pd, deferred, pb[i])
  }

  ghost predicate RetireSyncsOk(n: nat, log: Log, pb: seq<PendingBarrier>) {
    forall i :: 0 <= i < |pb| && pb[i].retirement.SyncSignal? ==>
      pb[i].retirement.handle < n && pb[i].pid < |log| && log[pb[i].pid].BarrierAnd?
      && log[pb[i].pid].completed == Some(pb[i].retirement)
  }

  /** A marker's signal retires the barriers published just before the marker.  Until
      the marker itself is armed the recording thread keeps the queue locked. */
  ghost predicate RetireMarkerOk(qi: nat, events: Events, holder: Holder, b: PendingBarrier) {
    b.retirement.EventSignal? ==>
      && b.retirement.event < |events|
      && ((holder.ByRecord? && holder.event == b.retirement.event)
          || (events[b.retirement.event].pending
              && events[b.retirement.event].recorded.Some?
              && events[b.retirement.event].recorded.value.queue == qi
              && b.pid < events[b.retirement.event].recorded.value.packet))
  }

  ghost predicate RetireMarkersOk(qi: nat, events: Events, holder: Holder, pb: seq<PendingBarrier>) {
    forall i :: 0 <= i < |pb| ==> RetireMarkerOk(qi, events, holder, pb[i])
  }

  ghost predicate Names(pb: seq<PendingBarrier>, p: nat, e: nat) {
    exists i :: 0 <= i < |pb| && pb[i].pid == p && e in pb[i].dependencies
  }

  /** An event named by a packet that has not completed is retained for that packet. */
  ghost predicate NamesOk(log: Log, done: set<nat>, pb: seq<PendingBarrier>) {
    forall p: nat, e: nat ::
      p < |log| && p !in done && log[p].BarrierAnd? && EventSignal(e) in log[p].deps ==> Names(pb, p, e)
  }

  // -------------------------------------------------------- synchronization

  predicate CompletesSync(p: Packet, c: nat) {
    p.BarrierAnd? && p.completed == Some(SyncSignal(c))
  }

  ghost function Undone(log: Log, done: set<nat>, c: nat): set<nat> {
    set p | 0 <= p < |log| && p !in done && CompletesSync(log[p], c)
  }

  /** The packets a synchronization still has to publish. */
  function Unpublished(holder: Holder, c: nat): nat {
    if holder.BySync? && holder.completion == c then Chunks(|holder.signals|) else 0
  }

  /** A synchronization signal counts its packets that have not completed. */
  ghost predicate SyncOk(log: Log, done: set<nat>, values: seq<nat>, holder: Holder) {
    && (forall c :: 0 <= c < |values| ==> values[c] == |Undone(log, done, c)| + Unpublished(holder, c))
    && (forall p, c: nat :: 0 <= p < |log| && CompletesSync(log[p], c) ==> c < |values|)
    && (holder.BySync? ==> holder.completion < |values|)
  }

  ghost predicate SyncsOk(values: seq<nat>, syncs: seq<PendingSync>) {
    forall y :: y in syncs ==> y.completion < |values|
  }

  ghost predicate Registered(syncs: seq<PendingSync>, holder: Holder, c: nat, h: nat) {
    || (holder.BySync? && holder.completion == c && h in holder.dispatchDeps)
    || (exists i :: 0 <= i < |syncs| && syncs[i].completion == c && h in syncs[i].dispatchDeps)
  }

  ghost predicate Pending(pd: seq<PendingDispatch>, h: nat, p: nat) {
    exists i :: 0 <= i < |pd| && pd[i].signal == h && pd[i].pid < p
  }

  /** A completion signal named by an unfinished packet is registered with the packet's
      synchronization and still stands for the dispatch it was named for. */
  ghost predicate SyncDepsOk(log: Log, done: set<nat>, pd: seq<PendingDispatch>, syncs: seq<PendingSync>,
                             holder: Holder) {
    forall p: nat, h: nat ::
      p < |log| && p !in done && log[p].BarrierAnd? && DispatchSignal(h) in log[p].deps ==>
        && log[p].completed.Some? && log[p].completed.value.SyncSignal?
        && Registered(syncs, holder, log[p].completed.value.handle, h)
        && Pending(pd, h, p)
  }

  ghost predicate SyncHolderOk(n: nat, pd: seq<PendingDispatch>, pendingEvents: seq<nat>, holder: Holder) {
    holder.BySync? ==>
      forall x :: x in holder.signals ==>
        match x
        case DispatchSignal(h) => h in holder.dispatchDeps && Pending(pd, h, n)
        case SyncSignal(_) => false
        case EventSignal(e) => e in pendingEvents
  }

  // ---------------------------------------------------------------- markers

  ghost predicate MarkerOk(qi: nat, log: Log, done: set<nat>, events: Events, e: nat) {
    && e < |events|
    && events[e].pending
    && events[e].recorded.Some?
    && events[e].recorded.value.queue == qi
    && events[e].recorded.value.packet < |log|
    && log[events[e].recorded.value.packet] == BarrierAnd([], Some(EventSignal(e)))
    && events[e].signal == if events[e].recorded.value.packet in done then 0 else 1
  }

  ghost predicate MarkersOk(qi: nat, log: Log, done: set<nat>, pendingEvents: seq<nat>, events: Events) {
    && (forall e :: e in pendingEvents ==> MarkerOk(qi, log, done, events, e))
    && Distinct(pendingEvents)
    && (forall p: nat, e: nat ::
          p < |log| && p !in done && log[p].BarrierAnd? && log[p].completed == Some(EventSignal(e)) ==>
          e in pendingEvents && events[e].recorded == Some(Record(qi, p)))
    && (forall e :: 0 <= e < |events| && events[e].pending && events[e].recorded.Some?
                    && events[e].recorded.value.queue == qi ==>
          e in pendingEvents)
  }

  // --------------------------------------------------------------- coverage

  ghost predicate Covered(qi: nat, pd: seq<PendingDispatch>, pb: seq<PendingBarrier>, pendingEvents: seq<nat>,
                          events: Events, p: nat) {
    || (exists i :: 0 <= i < |pd| && pd[i].pid == p)
    || (exists i :: 0 <= i < |pb| && pb[i].pid == p)
    || (exists e :: e in pendingEvents && e < |events| && events[e].recorded == Some(Record(qi, p)))
  }

  /** Every packet that has not completed is counted by pending_queue_packet_count. */
  ghost predicate CoverOk(qi: nat, log: Log, done: set<nat>, pd: seq<PendingDispatch>, pb: seq<PendingBarrier>,
                          pendingEvents: seq<nat>, events: Events) {
    forall p :: 0 <= p < |log| && p !in done ==> Covered(qi, pd, pb, pendingEvents, events, p)
  }

  // --------------------------------------------------------------- ordering

  ghost predicate Blocked(log: Log, done: set<nat>, e: nat, p: nat) {
    exists r :: 0 <= r < p && r < |log| && r !in done && log[r].BarrierAnd? && EventSignal(e) in log[r].deps
  }

  /** The recording has completed, or it is the event's current one and something
      before position p holds it back: an unfinished barrier packet or `todo`. */
  ghost predicate Guarded(log: Log, done: set<nat>, events: Events, o: Occurrence, p: nat, todo: seq<nat>) {
    && o.event < |events|
    && 0 < o.epoch
    && (o.epoch in events[o.event].finished
        || (o.epoch == events[o.event].epoch && (o.event in todo || Blocked(log, done, o.event, p))))
  }

  ghost predicate AwaitsOk(log: Log, done: set<nat>, events: Events) {
    forall p, o :: 0 <= p < |log| && log[p].Dispatch? && o in log[p].awaits ==> Guarded(log, done, events, o, p, [])
  }

  // --------------------------------------------------------------- counting

  /** The queue's index of referenced events, its pending barriers, and the events'
      own per-queue counts say the same. */
  ghost predicate CountsOk(qi: nat, pb: seq<PendingBarrier>, active: map<nat, nat>, events: Events) {
    && (forall e :: e in active ==> active[e] > 0 && e < |events|)
    && (forall e: nat :: DepCount(pb, e) == Get(active, e))
    && (forall e :: 0 <= e < |events| ==> Get(events[e].depQueues, qi) == Get(active, e))
  }

  // ---------------------------------------------------------------- waiting

  /** A thread waiting for progress on a dispatch keeps its signal out of the pool. */
  ghost predicate WaitsOk(pd: seq<PendingDispatch>, deferred: seq<PendingDispatch>, waits: seq<Signal>) {
    forall x :: x in waits ==>
      match x
      case DispatchSignal(h) => h in Signals(pd) || h in Signals(deferred)
      case SyncSignal(_) => false
      case EventSignal(_) => true
  }

  // -------------------------------------------------------------- one queue

  ghost predicate DispatchSide(q: Queue) {
    && LogOk(q.gpu)
    && Conserved(q)
    && ArmedOk(q.dispatchValues, q.signalPool, q.inFlight)
    && DispatchesOk(q.gpu.log, q.gpu.done, q.dispatchValues, q.pendingDispatches)
    && DeferredOk(q.gpu.log, q.gpu.done, q.dispatchValues, q.deferred, q.progressWaits)
    && WaitsOk(q.pendingDispatches, q.deferred, q.progressWaits)
  }

  ghost predicate BarrierSide(qi: nat, q: Queue, events: Events) {
    && BarriersOk(q.gpu.log, q.gpu.done, events, q.pendingBarriers)
    && RetireDispatchesOk(|q.dispatchValues|, q.pendingDispatches, q.deferred, q.pendingBarriers)
    && RetireSyncsOk(|q.syncValues|, q.gpu.log, q.pendingBarriers)
    && RetireMarkersOk(qi, events, q.holder, q.pendingBarriers)
    && NamesOk(q.gpu.log, q.gpu.done, q.pendingBarriers)
    && CountsOk(qi, q.pendingBarriers, q.active, events)
  }

  ghost predicate SyncSide(q: Queue) {
    && SyncOk(q.gpu.log, q.gpu.done, q.syncValues, q.holder)
    && SyncsOk(q.syncValues, q.pendingSyncs)
    && SyncDepsOk(q.gpu.log, q.gpu.done, q.pendingDispatches, q.pendingSyncs, q.holder)
    && SyncHolderOk(|q.gpu.log|, q.pendingDispatches, q.pendingEvents, q.holder)
  }

  ghost predicate EventSide(qi: nat, q: Queue, events: Events) {
    && MarkersOk(qi, q.gpu.log, q.gpu.done, q.pendingEvents, events)
    && CoverOk(qi, q.gpu.log, q.gpu.done, q.pendingDispatches, q.pendingBarriers, q.pendingEvents, events)
    && AwaitsOk(q.gpu.log, q.gpu.done, events)
  }

  ghost predicate QueueOk(qi: nat, q: Queue, events: Events) {
    DispatchSide(q) && BarrierSide(qi, q, events) && SyncSide(q) && EventSide(qi, q, events)
  }

  // ----------------------------------------------------------------- events

  /** The signal is zero exactly when the current recording completed; earlier
      recordings all completed; an event that is not pending has nothing outstanding. */
  ghost predicate EventOk(ev: Event) {
    && ev.signal <= 1
    && (ev.epoch > 0 ==> (ev.signal == 0 <==> ev.epoch in ev.finished))
    && (ev.epoch == 0 ==> ev.signal == 1 && ev.finished == {})
    && (forall k :: 0 < k < ev.epoch ==> k in ev.finished)
    && (forall k :: k in ev.finished ==> 0 < k <= ev.epoch)
    && (!ev.pending && ev.epoch > 0 ==> ev.signal == 0)
    && (ev.pending ==> ev.epoch > 0 && ev.recording.None?)
    && (ev.recorded.Some? ==> ev.pending && !ev.copy)
    && (ev.pending && !ev.copy ==> ev.recorded.Some?)
    && (forall k :: k in ev.depQueues ==> ev.depQueues[k] > 0)
  }

  // --------------------------------------------------------- calls in flight

  function Todo(l: Launch): seq<nat> {
    match l.stage
    case Scanning(rest, found) => rest + found
    case Registering(todo) => todo
    case _ => l.deps
  }

  predicate Locked(g: Stage) {
    g.Ready? || g.Scanning? || g.Registering?
  }

  /** The packets the launch will still publish fit into the queue. */
  ghost predicate Reserved(q: Queue, events: Events, l: Launch) {
    match l.stage
    case Collected => true
    case Waiting(r) => Chunks(Bound(q, events, l)) + 1 <= r
    case Ready(r) => Chunks(Bound(q, events, l)) + 1 <= r && HasCapacity(q, r)
    case Scanning(rest, found) => PendingCount(q) + Chunks(|found| + |Filter(q, events, rest)|) + 1 <= q.size
    case Registering(todo) => PendingCount(q) + Chunks(|todo|) + 1 <= q.size
  }

  /** An event some call still refers to is not being re-armed. */
  ghost predicate Pinned(events: Events, e: nat) {
    e < |events| && events[e].epoch > 0 && events[e].recording.None?
  }

  ghost predicate LaunchOk(q: Queue, events: Events, t: nat, l: Launch) {
    && (forall e :: e in l.deps ==> Pinned(events, e))
    && (forall e :: e in Todo(l) ==> e in l.deps)
    && (forall o :: o in l.awaits ==> Guarded(q.gpu.log, q.gpu.done, events, o, |q.gpu.log|, Todo(l)))
    && (Locked(l.stage) <==> q.holder == ByLaunch(t))
    && Reserved(q, events, l)
    && (q.lifecycle == Live || q.lifecycle == Destroying)
  }

  ghost predicate HolderOk(s: State, qi: nat)
    requires qi < |s.queues|
  {
    var q := s.queues[qi];
    match q.holder
    case Unlocked => true
    case ByLaunch(t) => t in s.launches && s.launches[t].queue == qi
    case ByRecord(e, todo) =>
      && e < |s.events| && s.events[e].recording.Some? && s.events[e].recording.value.queue == qi
      && (forall d :: d in todo ==> d in s.events[e].recording.value.deps)
      && PendingCount(q) + Chunks(|todo|) + 1 <= q.size
      && q.lifecycle != Destroyed && q.lifecycle != DestroyPinned
    case BySync(_, signals, _) =>
      && PendingCount(q) + Chunks(|signals|) <= q.size
      && q.lifecycle != Destroyed && q.lifecycle != DestroyPinned
  }

  ghost predicate RecordingOk(s: State, e: nat)
    requires e < |s.events|
  {
    s.events[e].recording.Some? ==>
      && s.events[e].recording.value.queue < |s.queues|
      && s.events[e].depQueues == map[]
      && (forall d :: d in s.events[e].recording.value.deps ==> Pinned(s.events, d))
  }

  ghost predicate InFlightOk(s: State, qi: nat)
    requires qi < |s.queues|
  {
    && (forall f :: f in s.queues[qi].inFlight ==>
          && f.thread in s.launches
          && s.launches[f.thread].queue == qi
          && (s.launches[f.thread].direct || s.launches[f.thread].stage.Scanning?
            || s.launches[f.thread].stage.Registering?))
    && OneFlightEach(s.queues[qi].inFlight)
  }

  ghost predicate OneFlightEach(flights: seq<InFlight>) {
    forall i, j :: 0 <= i < j < |flights| ==> flights[i].thread != flights[j].thread
  }

  ghost predicate ProgressOk(s: State, qi: nat)
    requires qi < |s.queues|
  {
    forall e :: EventSignal(e) in s.queues[qi].progressWaits ==> Pinned(s.events, e)
  }

  ghost predicate WaitOk(s: State, w: Wait) {
    Pinned(s.events, w.event) && s.events[w.event].epoch == w.epoch
  }

  ghost predicate QueueGood(s: State, qi: nat)
    requires qi < |s.queues|
  {
    QueueOk(qi, s.queues[qi], s.events) && HolderOk(s, qi) && InFlightOk(s, qi) && ProgressOk(s, qi)
  }

  ghost predicate EventGood(s: State, e: nat)
    requires e < |s.events|
  {
    && EventOk(s.events[e])
    && RecordingOk(s, e)
    && (s.events[e].recorded.Some? ==> s.events[e].recorded.value.queue < |s.queues|)
  }

  ghost predicate LaunchGood(s: State, t: nat)
    requires t in s.launches
  {
    s.launches[t].queue < |s.queues| && LaunchOk(s.queues[s.launches[t].queue], s.events, t, s.launches[t])
  }

  ghost predicate Inv(s: State) {
    && (forall qi :: 0 <= qi < |s.queues| ==> QueueGood(s, qi))
    && (forall e :: 0 <= e < |s.events| ==> EventGood(s, e))
    && (forall t :: t in s.launches ==> LaunchGood(s, t))
    && (forall w :: w in s.waits ==> WaitOk(s, s.waits[w]))
  }
}
