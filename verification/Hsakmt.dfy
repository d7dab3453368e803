/** The single-lock hsakmt backend.  A dispatch may borrow an event's signal as its own
    completion signal, and a barrier borrows the dispatch behind it as proof that it was
    consumed.  The host runs under one lock; the hardware runs all the time. */
module Hsakmt {
  import opened Common

  /** A dispatch completes a signal of its own or the signal of an event. */
  datatype Signal = Own(handle: nat) | Borrowed(event: nat)

  datatype Packet =
    | Kernel(completion: Signal, bit: bool)
    | Barrier(deps: seq<nat>)
    | Marker(event: nat)

  datatype Dispatch = Dispatch(signal: Signal, pid: nat)

  /** `retirement` is the packet of the dispatch the entry points to. */
  datatype Pending = Pending(retirement: nat, deps: seq<nat>, pid: nat)

  datatype Queue = Queue(
    log: seq<Packet>, taken: nat, done: set<nat>,
    values: seq<nat>,
    dispatches: seq<Dispatch>, barriers: seq<Pending>, pendingEvents: seq<nat>)

  /** `packet` is the packet that completes a pending event; `released` says that the event
      was destroyed and its signal given back. */
  datatype Event = Event(
    signal: nat, pending: bool, completed: bool, recorded: Option<nat>, packet: nat, depCount: nat, released: bool)

  datatype State = State(queues: seq<Queue>, events: seq<Event>)

  type Log = seq<Packet>
  type Events = seq<Event>

  predicate Bit(p: Packet) {
    !p.Kernel? || p.bit
  }

  predicate HoldsBack(log: Log, p: nat, r: nat)
    requires p < |log| && r < |log|
  {
    !log[p].Kernel? || Bit(log[r])
  }

  predicate IsZero(q: Queue, events: Events, x: Signal) {
    match x
    case Own(h) => h < |q.values| && q.values[h] == 0
    case Borrowed(e) => e < |events| && events[e].signal == 0
  }

  // ------------------------------------------------------------------- hardware

  datatype GpuStep = Take(q: nat) | Complete(q: nat, p: nat)

  predicate GpuEnabled(s: State, a: GpuStep) {
    match a
    case Take(q) =>
      q < |s.queues| && s.queues[q].taken < |s.queues[q].log|
      && forall p: nat :: p < s.queues[q].taken && HoldsBack(s.queues[q].log, p, s.queues[q].taken) ==>
        p in s.queues[q].done
    case Complete(q, p) =>
      q < |s.queues| && p < s.queues[q].taken <= |s.queues[q].log| && p !in s.queues[q].done
      && (s.queues[q].log[p].Barrier? ==> forall e :: e in s.queues[q].log[p].deps ==>
            e < |s.events| && s.events[e].signal == 0)
  }

  function Zero(events: Events, e: nat): Events {
    if e < |events| then events[e := events[e].(signal := 0)] else events
  }

  function GpuNext(s: State, a: GpuStep): State
    requires GpuEnabled(s, a)
  {
    match a
    case Take(q) => s.(queues := s.queues[q := s.queues[q].(taken := s.queues[q].taken + 1)])
    case Complete(q, p) =>
      var x := s.queues[q].(done := s.queues[q].done + {p});
      match s.queues[q].log[p]
      case Kernel(Own(h), _) =>
        s.(queues := s.queues[q := if h < |x.values| then x.(values := x.values[h := 0]) else x])
      case Kernel(Borrowed(e), _) => State(s.queues[q := x], Zero(s.events, e))
      case Marker(e) => State(s.queues[q := x], Zero(s.events, e))
      case Barrier(_) => s.(queues := s.queues[q := x])
  }

  // -------------------------------------------------------------- the invariant

  ghost predicate LogOk(log: Log, taken: nat, done: set<nat>) {
    && taken <= |log|
    && (forall p :: p in done ==> p < taken)
    && (forall p: nat, r: nat :: p < r < taken && HoldsBack(log, p, r) ==> p in done)
  }

  /** A pending dispatch stands for its packet; its signal is zero exactly when the packet
      completed; an event it borrows is pending, and pending because of this packet. */
  ghost predicate DispatchOk(qi: nat, log: Log, done: set<nat>, values: seq<nat>, events: Events, d: Dispatch) {
    && d.pid < |log|
    && log[d.pid].Kernel?
    && log[d.pid].completion == d.signal
    && (d.signal.Own? ==>
          d.signal.handle < |values| && values[d.signal.handle] == if d.pid in done then 0 else 1)
    && (d.signal.Borrowed? ==>
          && d.signal.event < |events|
          && events[d.signal.event].pending
          && events[d.signal.event].recorded == Some(qi)
          && events[d.signal.event].packet == d.pid)
  }

  ghost predicate DispatchesOk(qi: nat, log: Log, done: set<nat>, values: seq<nat>, events: Events, ds: seq<Dispatch>) {
    forall i :: 0 <= i < |ds| ==> DispatchOk(qi, log, done, values, events, ds[i])
  }

  /** In order, completion-ordered, and no two share a signal of their own. */
  ghost predicate OrderOk(log: Log, ds: seq<Dispatch>) {
    && (forall i, j :: 0 <= i < j < |ds| ==> ds[i].pid < ds[j].pid)
    && (forall i :: 0 < i < |ds| && ds[i].pid < |log| ==> Bit(log[ds[i].pid]))
    && (forall i, j :: 0 <= i < j < |ds| && ds[i].signal.Own? && ds[j].signal.Own? ==> ds[i].signal != ds[j].signal)
  }

  ghost predicate Stands(ds: seq<Dispatch>, p: nat) {
    exists i :: 0 <= i < |ds| && ds[i].pid == p
  }

  /** The dispatch a barrier entry points to is still pending: the pointer is alive. */
  ghost predicate BarriersOk(log: Log, events: Events, ds: seq<Dispatch>, bs: seq<Pending>) {
    forall i :: 0 <= i < |bs| ==>
      && bs[i].pid < bs[i].retirement
      && bs[i].pid < |log|
      && log[bs[i].pid] == Barrier(bs[i].deps)
      && Stands(ds, bs[i].retirement)
      && (forall e :: e in bs[i].deps ==> e < |events|)
  }

  ghost predicate Named(bs: seq<Pending>, p: nat) {
    exists i :: 0 <= i < |bs| && bs[i].pid == p
  }

  /** A packet that may still read event signals is registered. */
  ghost predicate NamesOk(log: Log, done: set<nat>, bs: seq<Pending>) {
    forall p: nat :: p < |log| && p !in done && log[p].Barrier? && log[p].deps != [] ==> Named(bs, p)
  }

  predicate Completes(p: Packet, e: nat) {
    p == Marker(e) || (p.Kernel? && p.completion == Borrowed(e))
  }

  ghost predicate EventOk(qi: nat, log: Log, done: set<nat>, events: Events, e: nat) {
    && e < |events|
    && events[e].pending
    && events[e].recorded == Some(qi)
    && events[e].packet < |log|
    && Completes(log[events[e].packet], e)
    && events[e].signal == if events[e].packet in done then 0 else 1
  }

  ghost predicate EventsOk(qi: nat, log: Log, done: set<nat>, events: Events, pe: seq<nat>) {
    && Distinct(pe)
    && (forall e :: e in pe ==> EventOk(qi, log, done, events, e))
    && (forall e :: 0 <= e < |events| && events[e].pending && events[e].recorded == Some(qi) ==> e in pe)
    && (forall p: nat, e: nat :: p < |log| && p !in done && Completes(log[p], e) ==> PendingBy(pe, events, e, p))
  }

  /** The event is pending because of packet p. */
  predicate PendingBy(pe: seq<nat>, events: Events, e: nat, p: nat) {
    e in pe && e < |events| && events[e].packet == p
  }

  ghost predicate ValuesOk(log: Log, done: set<nat>, values: seq<nat>, ds: seq<Dispatch>) {
    forall p: nat :: p < |log| && p !in done && log[p].Kernel? ==> Stands(ds, p)
  }

  ghost predicate QueueOk(qi: nat, q: Queue, events: Events) {
    && LogOk(q.log, q.taken, q.done)
    && DispatchesOk(qi, q.log, q.done, q.values, events, q.dispatches)
    && OrderOk(q.log, q.dispatches)
    && BarriersOk(q.log, events, q.dispatches, q.barriers)
    && NamesOk(q.log, q.done, q.barriers)
    && EventsOk(qi, q.log, q.done, events, q.pendingEvents)
    && ValuesOk(q.log, q.done, q.values, q.dispatches)
  }

  /** Occurrences of an event in the barrier entries of a queue. */
  function Uses(bs: seq<Pending>, e: nat): nat {
    if bs == [] then 0 else Uses(bs[..|bs| - 1], e) + multiset(bs[|bs| - 1].deps)[e]
  }

  function AllUses(queues: seq<Queue>, e: nat): nat {
    if queues == [] then 0 else AllUses(queues[..|queues| - 1], e) + Uses(queues[|queues| - 1].barriers, e)
  }

  ghost predicate CountsOk(queues: seq<Queue>, events: Events) {
    forall e: nat :: e < |events| ==> events[e].depCount == AllUses(queues, e)
  }

  ghost predicate RecordedOk(events: Events, n: nat) {
    forall e :: 0 <= e < |events| ==>
      && events[e].signal <= 1
      && (events[e].pending ==> events[e].recorded.Some? && events[e].recorded.value < n)
      && (!events[e].pending ==> events[e].recorded.None?)
      && (events[e].released ==> !events[e].pending && events[e].depCount == 0)
  }

  ghost predicate Inv(s: State) {
    && (forall q :: 0 <= q < |s.queues| ==> QueueOk(q, s.queues[q], s.events))
    && CountsOk(s.queues, s.events)
    && RecordedOk(s.events, |s.queues|)
  }

  // ------------------------------------------------------ hardware keeps the invariant

  lemma TakeKeeps(s: State, q: nat)
    requires Inv(s) && GpuEnabled(s, Take(q))
    ensures Inv(GpuNext(s, Take(q)))
  {
    hide AllUses;
    var s' := GpuNext(s, Take(q));
    assert QueueOk(q, s.queues[q], s.events);
    forall k | 0 <= k < |s.queues| ensures QueueOk(k, s'.queues[k], s'.events) {
      assert QueueOk(k, s.queues[k], s.events);
    }
    SameUses(s, s');
  }

  lemma SameUses(s: State, s': State)
    requires CountsOk(s.queues, s.events) && |s'.queues| == |s.queues| && |s'.events| == |s.events|
    requires forall q :: 0 <= q < |s.queues| ==> s'.queues[q].barriers == s.queues[q].barriers
    requires forall e :: 0 <= e < |s.events| ==> s'.events[e].depCount == s.events[e].depCount
    ensures CountsOk(s'.queues, s'.events)
  {
    forall e: nat | e < |s'.events| ensures s'.events[e].depCount == AllUses(s'.queues, e) {
      UsesSame(s.queues, s'.queues, e);
    }
  }

  lemma {:induction false} UsesSame(queues: seq<Queue>, queues': seq<Queue>, e: nat)
    requires |queues'| == |queues| && forall q :: 0 <= q < |queues| ==> queues'[q].barriers == queues[q].barriers
    ensures AllUses(queues', e) == AllUses(queues, e)
  {
    if queues != [] { UsesSame(queues[..|queues| - 1], queues'[..|queues| - 1], e); }
  }

  /** The event signals that completing a packet clears. */
  function Completed(events: Events, p: Packet): Events {
    match p
    case Kernel(Borrowed(e), _) => Zero(events, e)
    case Marker(e) => Zero(events, e)
    case _ => events
  }

  function CompletedQueue(q: Queue, p: nat): Queue
    requires p < |q.log|
  {
    var x := q.(done := q.done + {p});
    match q.log[p]
    case Kernel(Own(h), _) => if h < |x.values| then x.(values := x.values[h := 0]) else x
    case _ => x
  }

  lemma CompleteIs(s: State, q: nat, p: nat)
    requires GpuEnabled(s, Complete(q, p))
    ensures GpuNext(s, Complete(q, p))
         == State(s.queues[q := CompletedQueue(s.queues[q], p)], Completed(s.events, s.queues[q].log[p]))
  {
  }

  /** Only the event the packet completes changes, and it belongs to this queue. */
  lemma CompletedEvents(qi: nat, q: Queue, events: Events, p: nat)
    requires QueueOk(qi, q, events) && p < |q.log| && p !in q.done
    ensures |Completed(events, q.log[p])| == |events|
    ensures forall e :: 0 <= e < |events| ==>
      Completed(events, q.log[p])[e] == events[e]
      || (Completed(events, q.log[p])[e] == events[e].(signal := 0) && events[e].pending
        && events[e].recorded == Some(qi)
          && events[e].packet == p && Completes(q.log[p], e))
  {
    hide LogOk, DispatchesOk, OrderOk, BarriersOk, NamesOk, ValuesOk;
    assert forall e: nat :: Completes(q.log[p], e) ==>
      PendingBy(q.pendingEvents, events, e, p) && EventOk(qi, q.log, q.done, events, e);
    match q.log[p]
    case Kernel(Borrowed(e), _) => assert Completes(q.log[p], e);
    case Marker(e) => assert Completes(q.log[p], e);
    case _ =>
  }

  lemma CompleteDispatches(qi: nat, q: Queue, events: Events, p: nat)
    requires QueueOk(qi, q, events) && p < |q.log| && p !in q.done
    ensures DispatchesOk(qi, q.log, CompletedQueue(q, p).done, CompletedQueue(q, p).values,
                         Completed(events, q.log[p]), q.dispatches)
  {
    hide LogOk, BarriersOk, NamesOk, EventsOk, Completed;
    CompletedEvents(qi, q, events, p);
    var q' := CompletedQueue(q, p);
    assert q.log[p].Kernel? ==> Stands(q.dispatches, p);
    forall i | 0 <= i < |q.dispatches|
      ensures DispatchOk(qi, q.log, q'.done, q'.values, Completed(events, q.log[p]), q.dispatches[i])
    {
      assert DispatchOk(qi, q.log, q.done, q.values, events, q.dispatches[i]);
      if q.log[p].Kernel? && q.dispatches[i].pid != p {
        var j :| 0 <= j < |q.dispatches| && q.dispatches[j].pid == p;
        assert DispatchOk(qi, q.log, q.done, q.values, events, q.dispatches[j]);
        assert i != j;
      }
    }
  }

  lemma CompleteEventsOk(qi: nat, q: Queue, events: Events, p: nat)
    requires QueueOk(qi, q, events) && p < |q.log| && p !in q.done
    ensures EventsOk(qi, q.log, q.done + {p}, Completed(events, q.log[p]), q.pendingEvents)
  {
    hide LogOk, BarriersOk, NamesOk, DispatchesOk, OrderOk, ValuesOk, Completed;
    var events' := Completed(events, q.log[p]);
    CompletedEvents(qi, q, events, p);
    forall e | e in q.pendingEvents ensures EventOk(qi, q.log, q.done + {p}, events', e) {
      assert EventOk(qi, q.log, q.done, events, e);
      if events[e].packet == p { CompletesIt(events, q.log[p], e); }
    }
  }

  lemma CompletesIt(events: Events, p: Packet, e: nat)
    requires e < |events| && Completes(p, e)
    ensures |Completed(events, p)| == |events| && Completed(events, p)[e].signal == 0
  {
  }

  lemma CompleteQueueOk(qi: nat, q: Queue, events: Events, p: nat)
    requires QueueOk(qi, q, events) && p < q.taken && p !in q.done
    ensures QueueOk(qi, CompletedQueue(q, p), Completed(events, q.log[p]))
  {
    hide DispatchesOk, OrderOk, EventsOk, Completed;
    CompletedEvents(qi, q, events, p);
    CompleteDispatches(qi, q, events, p);
    CompleteEventsOk(qi, q, events, p);
    CompletedFields(q, p);
  }

  lemma CompletedFields(q: Queue, p: nat)
    requires p < |q.log|
    ensures CompletedQueue(q, p) == q.(done := q.done + {p}, values := CompletedQueue(q, p).values)
  {
  }

  /** How events may change, seen from a queue that is not concerned. */
  ghost predicate Unconcerned(qi: nat, a: Event, b: Event) {
    && (a.pending && a.recorded == Some(qi) ==>
          b.pending && b.recorded == Some(qi) && b.packet == a.packet && b.signal == a.signal)
    && (b.pending && b.recorded == Some(qi) ==> a.pending && a.recorded == Some(qi))
  }

  lemma OtherQueue(qi: nat, q: Queue, events: Events, events': Events)
    requires QueueOk(qi, q, events) && |events'| == |events|
    requires forall e :: 0 <= e < |events| ==> Unconcerned(qi, events[e], events'[e])
    ensures QueueOk(qi, q, events')
  {
    forall i | 0 <= i < |q.dispatches| ensures DispatchOk(qi, q.log, q.done, q.values, events', q.dispatches[i]) {
      assert DispatchOk(qi, q.log, q.done, q.values, events, q.dispatches[i]);
    }
    forall e | e in q.pendingEvents ensures EventOk(qi, q.log, q.done, events', e) {
      assert EventOk(qi, q.log, q.done, events, e);
    }
    forall e | 0 <= e < |events'| && events'[e].pending && events'[e].recorded == Some(qi)
      ensures e in q.pendingEvents {
      assert Unconcerned(qi, events[e], events'[e]);
    }
    forall p: nat, e: nat | p < |q.log| && p !in q.done && Completes(q.log[p], e)
      ensures PendingBy(q.pendingEvents, events', e, p)
    {
      assert PendingBy(q.pendingEvents, events, e, p) && EventOk(qi, q.log, q.done, events, e);
      assert Unconcerned(qi, events[e], events'[e]);
    }
  }

  lemma CompleteKeeps(s: State, q: nat, p: nat)
    requires Inv(s) && GpuEnabled(s, Complete(q, p))
    ensures Inv(GpuNext(s, Complete(q, p)))
  {
    hide QueueOk, GpuNext, AllUses, Completed, CompletedQueue;
    CompleteIs(s, q, p);
    var events' := Completed(s.events, s.queues[q].log[p]);
    var s' := State(s.queues[q := CompletedQueue(s.queues[q], p)], events');
    CompletedEvents(q, s.queues[q], s.events, p);
    CompletedFields(s.queues[q], p);
    CompleteQueueOk(q, s.queues[q], s.events, p);
    forall k | 0 <= k < |s.queues| && k != q ensures QueueOk(k, s'.queues[k], events') {
      OtherQueue(k, s.queues[k], s.events, events');
    }
    SameUses(s, s');
  }

  lemma GpuKeeps(s: State, a: GpuStep)
    requires Inv(s) && GpuEnabled(s, a)
    ensures Inv(GpuNext(s, a))
  {
    hide Inv, GpuEnabled, GpuNext;
    match a
    case Take(q) => TakeKeeps(s, q);
    case Complete(q, p) => CompleteKeeps(s, q, p);
  }
}
