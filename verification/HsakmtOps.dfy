/** The host operations of the hsakmt backend, each one under the runtime lock. */
module HsakmtOps {
  import opened Common
  import opened Hsakmt

  function Remove(pe: seq<nat>, e: nat): (r: seq<nat>)
    ensures forall x :: x in r <==> x in pe && (x != e || x in r)
    ensures forall x :: x in pe && x != e ==> x in r
  {
    if pe == [] then [] else if pe[0] == e then pe[1..] else [pe[0]] + Remove(pe[1..], e)
  }

  // ------------------------------------------------------------------- counting

  lemma {:induction false} UsesAppend(a: seq<Pending>, b: seq<Pending>, e: nat)
    ensures Uses(a + b, e) == Uses(a, e) + Uses(b, e)
  {
    if b == [] {
      assert a + b == a;
    } else {
      UsesAppend(a, b[..|b| - 1], e);
      assert (a + b)[..|a + b| - 1] == a + b[..|b| - 1];
    }
  }

  lemma {:induction false} UsesUpdate(bs: seq<Pending>, i: nat, b: Pending, e: nat)
    requires i < |bs|
    ensures Uses(bs[i := b], e) + multiset(bs[i].deps)[e] == Uses(bs, e) + multiset(b.deps)[e]
  {
    var n := |bs| - 1;
    if i < n {
      UsesUpdate(bs[..n], i, b, e);
      assert bs[i := b][..n] == bs[..n][i := b];
    } else {
      assert bs[i := b][..n] == bs[..n];
    }
  }

  lemma {:induction false} UsesRemove(bs: seq<Pending>, i: nat, e: nat)
    requires i < |bs|
    ensures Uses(SwapRemove(bs, i), e) + multiset(bs[i].deps)[e] == Uses(bs, e)
  {
    var n := |bs| - 1;
    if i < n {
      UsesUpdate(bs, i, bs[n], e);
      var u := bs[i := bs[n]];
      assert u[n] == bs[n];
    }
  }

  lemma {:induction false} UsesAt(bs: seq<Pending>, i: nat, e: nat)
    requires i < |bs| && e in bs[i].deps
    ensures Uses(bs, e) > 0
  {
    UsesRemove(bs, i, e);
    assert multiset(bs[i].deps)[e] > 0;
  }

  lemma {:induction false} AllUsesUpdate(queues: seq<Queue>, q: nat, x: Queue, e: nat)
    requires q < |queues|
    ensures AllUses(queues[q := x], e) + Uses(queues[q].barriers, e) == AllUses(queues, e) + Uses(x.barriers, e)
  {
    var n := |queues| - 1;
    if q < n {
      AllUsesUpdate(queues[..n], q, x, e);
      assert queues[q := x][..n] == queues[..n][q := x];
    } else {
      assert queues[q := x][..n] == queues[..n];
    }
  }

  lemma {:induction false} AllUsesAt(queues: seq<Queue>, q: nat, e: nat)
    requires q < |queues|
    ensures AllUses(queues, e) >= Uses(queues[q].barriers, e)
  {
    var n := |queues| - 1;
    if q < n { AllUsesAt(queues[..n], q, e); }
  }

  /** Nothing the hardware may read and nothing the host keeps refers to the event. */
  ghost predicate Untouched(s: State, e: nat)
    requires e < |s.events|
  {
    forall q :: 0 <= q < |s.queues| ==> Ignored(s.queues[q], e)
  }

  ghost predicate Ignored(q: Queue, e: nat) {
    && (forall d :: d in q.dispatches ==> d.signal != Borrowed(e))
    && (forall b :: b in q.barriers ==> e !in b.deps)
    && (forall p: nat :: p < |q.log| && p !in q.done ==>
          !Completes(q.log[p], e) && (q.log[p].Barrier? ==> e !in q.log[p].deps))
  }

  /** An event that is not pending and not counted may be re-armed, and its signal may be
      released: no dispatch borrows it, no barrier names it, no packet uses it. */
  lemma RearmSafe(s: State, e: nat)
    requires Inv(s) && e < |s.events| && !s.events[e].pending && s.events[e].depCount == 0
    ensures Untouched(s, e)
  {
    forall q | 0 <= q < |s.queues| ensures Ignored(s.queues[q], e) {
      AllUsesAt(s.queues, q, e);
      NotUsed(q, s.queues[q], s.events, e);
    }
  }

  lemma {:induction false} NotUsed(qi: nat, q: Queue, events: Events, e: nat)
    requires QueueOk(qi, q, events) && e < |events| && !events[e].pending && Uses(q.barriers, e) == 0
    ensures Ignored(q, e)
  {
    hide LogOk, OrderOk, ValuesOk, Uses;
    forall d | d in q.dispatches ensures d.signal != Borrowed(e) {
      var i :| 0 <= i < |q.dispatches| && q.dispatches[i] == d;
      assert DispatchOk(qi, q.log, q.done, q.values, events, q.dispatches[i]);
    }
    forall b | b in q.barriers ensures e !in b.deps {
      var i :| 0 <= i < |q.barriers| && q.barriers[i] == b;
      if e in b.deps { UsesAt(q.barriers, i, e); }
    }
    forall p: nat | p < |q.log| && p !in q.done
      ensures !Completes(q.log[p], e) && (q.log[p].Barrier? ==> e !in q.log[p].deps)
    {
      assert Completes(q.log[p], e) ==>
        PendingBy(q.pendingEvents, events, e, p) && EventOk(qi, q.log, q.done, events, e);
      if q.log[p].Barrier? && q.log[p].deps != [] {
        assert Named(q.barriers, p);
        var i :| 0 <= i < |q.barriers| && q.barriers[i].pid == p;
        assert q.barriers[i] in q.barriers;
      }
    }
  }

  // ------------------------------------------------------------ retiring barriers

  /** The dispatch the barrier points to has completed. */
  predicate Retired(q: Queue, events: Events, b: Pending) {
    exists i :: 0 <= i < |q.dispatches| && q.dispatches[i].pid == b.retirement
      && IsZero(q, events, q.dispatches[i].signal)
  }

  function Release(events: Events, deps: seq<nat>): (r: Events)
    ensures |r| == |events|
    ensures forall e :: 0 <= e < |events| ==>
      r[e] == events[e].(depCount := if events[e].depCount <= multiset(deps)[e] then 0
        else events[e].depCount - multiset(deps)[e])
  {
    seq(|events|, e requires 0 <= e < |events| =>
      events[e].(depCount := if events[e].depCount <= multiset(deps)[e] then 0
        else events[e].depCount - multiset(deps)[e]))
  }

  function Retain(events: Events, deps: seq<nat>): (r: Events)
    ensures |r| == |events|
    ensures forall e :: 0 <= e < |events| ==> r[e] == events[e].(depCount := events[e].depCount + multiset(deps)[e])
  {
    seq(|events|, e requires 0 <= e < |events| => events[e].(depCount := events[e].depCount + multiset(deps)[e]))
  }

  function RetireBarrier(s: State, q: nat, i: nat): State
    requires q < |s.queues| && i < |s.queues[q].barriers|
  {
    State(s.queues[q := s.queues[q].(barriers := SwapRemove(s.queues[q].barriers, i))],
          Release(s.events, s.queues[q].barriers[i].deps))
  }

  /** A completed dispatch proves that the barrier before it was consumed. */
  lemma RetiredIsDone(qi: nat, q: Queue, events: Events, i: nat)
    requires QueueOk(qi, q, events) && i < |q.barriers| && Retired(q, events, q.barriers[i])
    ensures q.barriers[i].pid in q.done
  {
    hide OrderOk, NamesOk, ValuesOk;
    var j :| 0 <= j < |q.dispatches| && q.dispatches[j].pid == q.barriers[i].retirement
      && IsZero(q, events, q.dispatches[j].signal);
    ZeroIsDone(qi, q, events, j);
    assert HoldsBack(q.log, q.barriers[i].pid, q.dispatches[j].pid);
  }

  lemma ZeroIsDone(qi: nat, q: Queue, events: Events, j: nat)
    requires QueueOk(qi, q, events) && j < |q.dispatches|
    ensures IsZero(q, events, q.dispatches[j].signal) <==> q.dispatches[j].pid in q.done
  {
  }

  /** Events that differ in smaller dependency counts only. */
  ghost predicate FewerCounts(events: Events, events': Events) {
    && |events'| == |events|
    && (forall e :: 0 <= e < |events| ==>
          events'[e] == events[e].(depCount := events'[e].depCount) && events'[e].depCount <= events[e].depCount)
  }

  lemma ReleaseCounts(events: Events, deps: seq<nat>)
    ensures FewerCounts(events, Release(events, deps))
  {
  }

  lemma CountsIrrelevant(qi: nat, q: Queue, events: Events, events': Events)
    requires QueueOk(qi, q, events) && FewerCounts(events, events')
    ensures QueueOk(qi, q, events')
  {
    hide QueueOk;
    OtherQueue(qi, q, events, events');
  }

  lemma FewerRecorded(events: Events, events': Events, n: nat)
    requires RecordedOk(events, n) && FewerCounts(events, events')
    ensures RecordedOk(events', n)
  {
  }

  lemma RetireBarrierKeeps(s: State, q: nat, i: nat)
    requires Inv(s) && q < |s.queues| && i < |s.queues[q].barriers|
    requires Retired(s.queues[q], s.events, s.queues[q].barriers[i])
    ensures Inv(RetireBarrier(s, q, i))
  {
    hide QueueOk, Retired, CountsOk, RecordedOk, FewerCounts, Release, SwapRemove;
    var s' := RetireBarrier(s, q, i);
    ReleaseCounts(s.events, s.queues[q].barriers[i].deps);
    RetiredIsDone(q, s.queues[q], s.events, i);
    FewerBarriers(q, s.queues[q], s.events, i);
    CountsIrrelevant(q, s'.queues[q], s.events, s'.events);
    forall k | 0 <= k < |s.queues| && k != q ensures QueueOk(k, s'.queues[k], s'.events) {
      CountsIrrelevant(k, s.queues[k], s.events, s'.events);
    }
    FewerRecorded(s.events, s'.events, |s.queues|);
    RetireBarrierCounts(s, q, i);
  }

  lemma RetireBarrierCounts(s: State, q: nat, i: nat)
    requires CountsOk(s.queues, s.events) && q < |s.queues| && i < |s.queues[q].barriers|
    ensures CountsOk(RetireBarrier(s, q, i).queues, RetireBarrier(s, q, i).events)
  {
    hide AllUses, Uses;
    var s' := RetireBarrier(s, q, i);
    forall e: nat | e < |s'.events| ensures s'.events[e].depCount == AllUses(s'.queues, e) {
      UsesRemove(s.queues[q].barriers, i, e);
      AllUsesUpdate(s.queues, q, s'.queues[q], e);
    }
  }

  lemma FewerBarriers(qi: nat, q: Queue, events: Events, i: nat)
    requires QueueOk(qi, q, events) && i < |q.barriers| && q.barriers[i].pid in q.done
    ensures QueueOk(qi, q.(barriers := SwapRemove(q.barriers, i)), events)
  {
  }

  // ---------------------------------------------------------- retiring dispatches

  predicate Blocks(q: Queue, p: nat) {
    exists i :: 0 <= i < |q.barriers| && q.barriers[i].retirement == p
  }

  predicate CanRetire(s: State, q: nat) {
    q < |s.queues| && s.queues[q].dispatches != []
    && IsZero(s.queues[q], s.events, s.queues[q].dispatches[0].signal)
    && !Blocks(s.queues[q], s.queues[q].dispatches[0].pid)
  }

  function RetireDispatch(s: State, q: nat): State
    requires CanRetire(s, q)
  {
    s.(queues := s.queues[q := s.queues[q].(dispatches := s.queues[q].dispatches[1..])])
  }

  lemma FewerDispatches(qi: nat, q: Queue, events: Events)
    requires QueueOk(qi, q, events) && q.dispatches != [] && q.dispatches[0].pid in q.done
    requires !Blocks(q, q.dispatches[0].pid)
    ensures QueueOk(qi, q.(dispatches := q.dispatches[1..]), events)
  {
  }

  lemma RetireDispatchKeeps(s: State, q: nat)
    requires Inv(s) && CanRetire(s, q)
    ensures Inv(RetireDispatch(s, q))
  {
    hide QueueOk, AllUses;
    var s' := RetireDispatch(s, q);
    ZeroIsDone(q, s.queues[q], s.events, 0);
    FewerDispatches(q, s.queues[q], s.events);
    SameUses(s, s');
  }

  // ------------------------------------------------------------- finishing events

  predicate CanFinish(s: State, e: nat) {
    e < |s.events| && s.events[e].pending && s.events[e].signal == 0
    && s.events[e].recorded.Some? && s.events[e].recorded.value < |s.queues|
    && forall d :: d in s.queues[s.events[e].recorded.value].dispatches ==> d.signal != Borrowed(e)
  }

  function FinishEvent(s: State, e: nat): State
    requires CanFinish(s, e)
  {
    var q := s.events[e].recorded.value;
    State(s.queues[q := s.queues[q].(pendingEvents := Remove(s.queues[q].pendingEvents, e))],
          s.events[e := s.events[e].(pending := false, completed := true, recorded := None)])
  }

  lemma {:induction false} FinishQueue(qi: nat, q: Queue, events: Events, e: nat)
    requires QueueOk(qi, q, events) && e < |events| && events[e].signal == 0 && events[e].pending
    requires events[e].recorded == Some(qi)
    requires forall d :: d in q.dispatches ==> d.signal != Borrowed(e)
    ensures QueueOk(qi, q.(pendingEvents := Remove(q.pendingEvents, e)),
                    events[e := events[e].(pending := false, completed := true, recorded := None)])
  {
    hide LogOk, OrderOk, NamesOk, ValuesOk;
    var events' := events[e := events[e].(pending := false, completed := true, recorded := None)];
    var pe := Remove(q.pendingEvents, e);
    RemoveDistinct(q.pendingEvents, e);
    assert EventOk(qi, q.log, q.done, events, e);
    forall i | 0 <= i < |q.dispatches| ensures DispatchOk(qi, q.log, q.done, q.values, events', q.dispatches[i]) {
      assert DispatchOk(qi, q.log, q.done, q.values, events, q.dispatches[i]);
      assert q.dispatches[i] in q.dispatches;
    }
    forall x | x in pe ensures EventOk(qi, q.log, q.done, events', x) { assert EventOk(qi, q.log, q.done, events, x); }
    forall x | 0 <= x < |events'| && events'[x].pending && events'[x].recorded == Some(qi) ensures x in pe {
      assert events[x].pending && events[x].recorded == Some(qi);
      assert x in q.pendingEvents && x != e;
    }
    forall p: nat, x: nat | p < |q.log| && p !in q.done && Completes(q.log[p], x)
      ensures PendingBy(pe, events', x, p)
    {
      assert PendingBy(q.pendingEvents, events, x, p);
      assert x != e;
    }
    assert EventsOk(qi, q.log, q.done, events', pe);
  }

  lemma {:induction false} RemoveDistinct(pe: seq<nat>, e: nat)
    requires Distinct(pe)
    ensures e !in Remove(pe, e) && Distinct(Remove(pe, e))
    ensures forall x :: x in Remove(pe, e) ==> x in pe
  {
    if pe != [] && pe[0] != e {
      RemoveDistinct(pe[1..], e);
      var r := Remove(pe[1..], e);
      assert Remove(pe, e) == [pe[0]] + r;
      forall i, j | 0 <= i < j < |[pe[0]] + r| ensures ([pe[0]] + r)[i] != ([pe[0]] + r)[j] {
        if i == 0 { assert r[j - 1] in r; }
      }
    } else if pe != [] {
      assert forall x :: x in pe[1..] ==> x != e;
    }
  }

  lemma FinishKeeps(s: State, e: nat)
    requires Inv(s) && CanFinish(s, e)
    ensures Inv(FinishEvent(s, e))
  {
    hide QueueOk, AllUses;
    var q := s.events[e].recorded.value;
    var s' := FinishEvent(s, e);
    FinishQueue(q, s.queues[q], s.events, e);
    forall k | 0 <= k < |s.queues| && k != q ensures QueueOk(k, s'.queues[k], s'.events) {
      OtherQueue(k, s.queues[k], s.events, s'.events);
    }
    SameUses(s, s');
  }

  // -------------------------------------------------------------------- submitting

  /** The dependency list cut into packets of five. */
  function Cut(deps: seq<nat>): (r: seq<seq<nat>>)
    ensures |r| == (|deps| + 4) / 5
    ensures forall i :: 0 <= i < |r| ==> r[i] != [] && |r[i]| <= 5
  {
    if deps == [] then [] else if |deps| <= 5 then [deps] else [deps[..5]] + Cut(deps[5..])
  }

  function Packets(cs: seq<seq<nat>>): (r: seq<Packet>)
    ensures |r| == |cs|
    ensures forall i :: 0 <= i < |cs| ==> r[i] == Barrier(cs[i])
  {
    seq(|cs|, i requires 0 <= i < |cs| => Barrier(cs[i]))
  }

  function Entries(cs: seq<seq<nat>>, base: nat, retirement: nat): (r: seq<Pending>)
    ensures |r| == |cs|
    ensures forall i :: 0 <= i < |cs| ==> r[i] == Pending(retirement, cs[i], base + i)
  {
    seq(|cs|, i requires 0 <= i < |cs| => Pending(retirement, cs[i], base + i))
  }

  lemma {:induction false} CutIn(deps: seq<nat>, i: nat, e: nat)
    requires i < |Cut(deps)| && e in Cut(deps)[i]
    ensures e in deps
  {
    if |deps| > 5 && i > 0 { CutIn(deps[5..], i - 1, e); }
  }

  lemma {:induction false} SingleUse(b: Pending, e: nat)
    ensures Uses([b], e) == multiset(b.deps)[e]
  {
  }

  /** Every dependency is in exactly one packet entry. */
  lemma {:induction false} EntryUses(deps: seq<nat>, base: nat, retirement: nat, e: nat)
    ensures Uses(Entries(Cut(deps), base, retirement), e) == multiset(deps)[e]
  {
    hide Uses;
    if deps == [] {
      assert Uses([], e) == 0 by { NoUse(e); }
      assert Entries(Cut(deps), base, retirement) == [];
    } else {
      var head := Pending(retirement, if |deps| <= 5 then deps else deps[..5], base);
      SingleUse(head, e);
      if |deps| <= 5 {
        assert Entries(Cut(deps), base, retirement) == [head];
      } else {
        EntryUses(deps[5..], base + 1, retirement, e);
        assert Entries(Cut(deps), base, retirement) == [head] + Entries(Cut(deps[5..]), base + 1, retirement);
        UsesAppend([head], Entries(Cut(deps[5..]), base + 1, retirement), e);
        assert deps == deps[..5] + deps[5..];
      }
    }
  }

  lemma {:induction false} NoUse(e: nat)
    ensures Uses([], e) == 0
  {
  }

  /** The event is neither pending nor a dependency of anything. */
  predicate Idle(s: State, e: nat) {
    e < |s.events| && !s.events[e].pending && s.events[e].depCount == 0 && !s.events[e].released
  }

  predicate CanSubmit(s: State, q: nat, deps: seq<nat>, completion: Option<nat>) {
    && q < |s.queues|
    && (forall e :: e in deps ==> e < |s.events| && !s.events[e].released)
    && (completion.Some? ==> Idle(s, completion.value) && completion.value !in deps)
  }

  function CompletionSignal(q: Queue, completion: Option<nat>): Signal {
    if completion.Some? then Borrowed(completion.value) else Own(|q.values|)
  }

  /** The queue lists after the host has registered the submission. */
  function StageQueue(q: Queue, deps: seq<nat>, completion: Option<nat>): Queue {
    var pid := |q.log| + |Cut(deps)|;
    q.(values := if completion.Some? then q.values else q.values + [1],
       dispatches := q.dispatches + [Dispatch(CompletionSignal(q, completion), pid)],
       barriers := q.barriers + Entries(Cut(deps), |q.log|, pid),
       pendingEvents := if completion.Some? then q.pendingEvents + [completion.value] else q.pendingEvents)
  }

  function StageEvents(events: Events, qi: nat, pid: nat, deps: seq<nat>, completion: Option<nat>): Events
    requires completion.Some? ==> completion.value < |events|
  {
    var r := Retain(events, deps);
    if completion.Some? then
      r[completion.value := r[completion.value].(signal := 1, pending := true, completed := false,
                                                 recorded := Some(qi), packet := pid)]
    else r
  }

  function Stage(s: State, q: nat, deps: seq<nat>, completion: Option<nat>): State
    requires CanSubmit(s, q, deps, completion)
  {
    State(s.queues[q := StageQueue(s.queues[q], deps, completion)],
          StageEvents(s.events, q, |s.queues[q].log| + |Cut(deps)|, deps, completion))
  }

  /** The batch that goes into the ring: the barriers and then the dispatch. */
  function Batch(q: Queue, deps: seq<nat>, completion: Option<nat>): seq<Packet> {
    Packets(Cut(deps)) + [Kernel(CompletionSignal(q, completion), q.dispatches != [] || Cut(deps) != [])]
  }

  function Submitted(s: State, q: nat, deps: seq<nat>, completion: Option<nat>): State
    requires CanSubmit(s, q, deps, completion)
  {
    var t := Stage(s, q, deps, completion);
    t.(queues := t.queues[q := t.queues[q].(log := s.queues[q].log + Batch(s.queues[q], deps, completion))])
  }

  // ------------------------------------------------------- submitting, by condition

  lemma ExtendLog(log: Log, tail: seq<Packet>, taken: nat, done: set<nat>)
    requires LogOk(log, taken, done)
    ensures LogOk(log + tail, taken, done)
  {
    forall p: nat, r: nat | p < r < taken && HoldsBack(log + tail, p, r) ensures p in done {
      assert HoldsBack(log, p, r);
    }
  }

  /** Events that were pending stay as they are; the completion event was not pending. */
  ghost predicate Armed(events: Events, events': Events, qi: nat, pid: nat, completion: Option<nat>) {
    && |events'| == |events|
    && (forall e :: 0 <= e < |events| && Some(e) != completion ==>
      events'[e] == events[e].(depCount := events'[e].depCount))
    && (completion.Some? ==>
          && completion.value < |events| && !events[completion.value].pending
          && events'[completion.value].signal == 1 && events'[completion.value].pending
          && events'[completion.value].recorded == Some(qi) && events'[completion.value].packet == pid
          && events'[completion.value].released == events[completion.value].released)
  }

  lemma {:induction false} StageArms(s: State, q: nat, deps: seq<nat>, completion: Option<nat>)
    requires CanSubmit(s, q, deps, completion)
    ensures Armed(s.events, Stage(s, q, deps, completion).events, q, |s.queues[q].log| + |Cut(deps)|, completion)
  {
  }

  lemma {:induction false} SubmitDispatches(qi: nat, q: Queue, events: Events, events': Events, deps: seq<nat>,
                                            completion: Option<nat>)
    requires QueueOk(qi, q, events) && Armed(events, events', qi, |q.log| + |Cut(deps)|, completion)
    ensures var x := StageQueue(q, deps, completion); var log' := q.log + Batch(q, deps, completion);
      DispatchesOk(qi, log', q.done, x.values, events', x.dispatches)
      && OrderOk(log', x.dispatches) && ValuesOk(log', q.done, x.values, x.dispatches)
  {
    hide BarriersOk, NamesOk, EventsOk, Cut;
    var x := StageQueue(q, deps, completion);
    var log' := q.log + Batch(q, deps, completion);
    var pid := |q.log| + |Cut(deps)|;
    assert log'[pid] == Kernel(CompletionSignal(q, completion), q.dispatches != [] || Cut(deps) != []);
    assert pid !in q.done;
    forall i | 0 <= i < |x.dispatches| ensures DispatchOk(qi, log', q.done, x.values, events', x.dispatches[i]) {
      if i < |q.dispatches| { assert DispatchOk(qi, q.log, q.done, q.values, events, q.dispatches[i]); }
    }
    forall i | 0 <= i < |q.dispatches| ensures q.dispatches[i].pid < |q.log| {
      assert DispatchOk(qi, q.log, q.done, q.values, events, q.dispatches[i]);
    }
    forall p: nat | p < |log'| && p !in q.done && log'[p].Kernel? ensures Stands(x.dispatches, p) {
      if p < |q.log| {
        assert Stands(q.dispatches, p);
        var i :| 0 <= i < |q.dispatches| && q.dispatches[i].pid == p;
        assert x.dispatches[i].pid == p;
      } else {
        assert p == pid;
        assert x.dispatches[|q.dispatches|].pid == p;
      }
    }
    SubmitOrder(qi, q, events, deps, completion);
  }

  lemma SubmitOrder(qi: nat, q: Queue, events: Events, deps: seq<nat>, completion: Option<nat>)
    requires OrderOk(q.log, q.dispatches) && DispatchesOk(qi, q.log, q.done, q.values, events, q.dispatches)
    ensures OrderOk(q.log + Batch(q, deps, completion), StageQueue(q, deps, completion).dispatches)
  {
  }

  lemma EntryAt(qi: nat, q: Queue, events: Events, i: nat)
    requires DispatchesOk(qi, q.log, q.done, q.values, events, q.dispatches) && i < |q.dispatches|
    ensures q.dispatches[i].pid < |q.log|
      && (q.dispatches[i].signal.Own? ==> q.dispatches[i].signal.handle < |q.values|)
  {
  }

  lemma SubmitBarriers(qi: nat, q: Queue, events: Events, events': Events, deps: seq<nat>, completion: Option<nat>)
    requires QueueOk(qi, q, events) && |events'| == |events| && forall e :: e in deps ==> e < |events|
    ensures var x := StageQueue(q, deps, completion); var log' := q.log + Batch(q, deps, completion);
      BarriersOk(log', events', x.dispatches, x.barriers) && NamesOk(log', q.done, x.barriers)
  {
    hide DispatchesOk, OrderOk, EventsOk, ValuesOk, Cut;
    var x := StageQueue(q, deps, completion);
    var cs := Cut(deps);
    var log' := q.log + Batch(q, deps, completion);
    var pid := |q.log| + |cs|;
    assert x.dispatches[|q.dispatches|].pid == pid;
    forall i | 0 <= i < |x.barriers|
      ensures x.barriers[i].pid < x.barriers[i].retirement && x.barriers[i].pid < |log'|
      ensures log'[x.barriers[i].pid] == Barrier(x.barriers[i].deps) && Stands(x.dispatches, x.barriers[i].retirement)
      ensures forall e :: e in x.barriers[i].deps ==> e < |events'|
    {
      if i < |q.barriers| {
        assert Stands(q.dispatches, q.barriers[i].retirement);
        var j :| 0 <= j < |q.dispatches| && q.dispatches[j].pid == q.barriers[i].retirement;
        assert x.dispatches[j] == q.dispatches[j];
      } else {
        var k := i - |q.barriers|;
        assert x.barriers[i] == Pending(pid, cs[k], |q.log| + k);
        forall e | e in cs[k] ensures e < |events'| { CutIn(deps, k, e); }
      }
    }
    forall p: nat | p < |log'| && p !in q.done && log'[p].Barrier? && log'[p].deps != [] ensures Named(x.barriers, p) {
      if p < |q.log| {
        assert Named(q.barriers, p);
        var i :| 0 <= i < |q.barriers| && q.barriers[i].pid == p;
        assert x.barriers[i].pid == p;
      } else {
        assert p - |q.log| < |cs|;
        assert x.barriers[|q.barriers| + (p - |q.log|)].pid == p;
      }
    }
  }

  lemma {:induction false} SubmitEvents(qi: nat, q: Queue, events: Events, events': Events, deps: seq<nat>,
                                        completion: Option<nat>)
    requires QueueOk(qi, q, events) && Armed(events, events', qi, |q.log| + |Cut(deps)|, completion)
    ensures var x := StageQueue(q, deps, completion); var log' := q.log + Batch(q, deps, completion);
      EventsOk(qi, log', q.done, events', x.pendingEvents)
  {
    hide DispatchesOk, OrderOk, BarriersOk, NamesOk, ValuesOk, Cut;
    var x := StageQueue(q, deps, completion);
    var log' := q.log + Batch(q, deps, completion);
    var pid := |q.log| + |Cut(deps)|;
    assert pid !in q.done && log'[pid].Kernel? && log'[pid].completion == CompletionSignal(q, completion);
    forall e | e in q.pendingEvents ensures EventOk(qi, log', q.done, events', e) && Some(e) != completion {
      assert EventOk(qi, q.log, q.done, events, e);
    }
    forall p: nat, e: nat | p < |log'| && p !in q.done && Completes(log'[p], e)
      ensures PendingBy(x.pendingEvents, events', e, p)
    {
      if p < |q.log| {
        assert log'[p] == q.log[p] && Completes(q.log[p], e);
        assert PendingBy(q.pendingEvents, events, e, p);
        assert EventOk(qi, q.log, q.done, events, e);
      } else {
        assert p == pid;
        assert completion == Some(e);
      }
    }
    forall e | 0 <= e < |events'| && events'[e].pending && events'[e].recorded == Some(qi)
      ensures e in x.pendingEvents {
      if Some(e) != completion { assert events[e].pending && events[e].recorded == Some(qi); }
    }
    forall e | e in x.pendingEvents ensures EventOk(qi, log', q.done, events', e) {
      assert e in q.pendingEvents || Some(e) == completion;
    }
    assert Distinct(x.pendingEvents) by {
      if completion.Some? { OneMoreEvent(q.pendingEvents, completion.value); }
    }
  }

  lemma {:induction false} SubmitQueueOk(qi: nat, q: Queue, events: Events, events': Events, deps: seq<nat>,
                                         completion: Option<nat>)
    requires QueueOk(qi, q, events) && Armed(events, events', qi, |q.log| + |Cut(deps)|, completion)
    requires forall e :: e in deps ==> e < |events|
    ensures QueueOk(qi, StageQueue(q, deps, completion).(log := q.log + Batch(q, deps, completion)), events')
  {
    hide LogOk, DispatchesOk, OrderOk, BarriersOk, NamesOk, EventsOk, ValuesOk, Cut, Batch;
    ExtendLog(q.log, Batch(q, deps, completion), q.taken, q.done);
    SubmitDispatches(qi, q, events, events', deps, completion);
    SubmitBarriers(qi, q, events, events', deps, completion);
    SubmitEvents(qi, q, events, events', deps, completion);
  }

  lemma SubmitCounts(s: State, q: nat, deps: seq<nat>, completion: Option<nat>)
    requires CanSubmit(s, q, deps, completion) && CountsOk(s.queues, s.events)
    ensures CountsOk(Submitted(s, q, deps, completion).queues, Submitted(s, q, deps, completion).events)
  {
    hide Uses, AllUses, Cut, Batch;
    var s' := Submitted(s, q, deps, completion);
    assert s'.queues == s.queues[q := s'.queues[q]];
    var bag: multiset<nat> := multiset(deps);
    forall e: nat | e < |s.events| ensures s'.events[e].depCount == s.events[e].depCount + bag[e] {}
    forall e: nat | e < |s'.events| ensures s'.events[e].depCount == AllUses(s'.queues, e) {
      AllUsesUpdate(s.queues, q, s'.queues[q], e);
      UsesAppend(s.queues[q].barriers, Entries(Cut(deps), |s.queues[q].log|, |s.queues[q].log| + |Cut(deps)|), e);
      EntryUses(deps, |s.queues[q].log|, |s.queues[q].log| + |Cut(deps)|, e);
    }
  }

  lemma SubmitKeeps(s: State, q: nat, deps: seq<nat>, completion: Option<nat>)
    requires Inv(s) && CanSubmit(s, q, deps, completion)
    ensures Inv(Submitted(s, q, deps, completion))
  {
    hide QueueOk, CountsOk, Cut, Batch, StageQueue, AllUses;
    var s' := Submitted(s, q, deps, completion);
    StageArms(s, q, deps, completion);
    SubmitQueueOk(q, s.queues[q], s.events, s'.events, deps, completion);
    SubmitCounts(s, q, deps, completion);
    forall k | 0 <= k < |s.queues| && k != q ensures QueueOk(k, s'.queues[k], s'.events) {
      OtherQueue(k, s.queues[k], s.events, s'.events);
    }
  }

  // -------------------------------------------------------------------- recording

  predicate CanRecord(s: State, q: nat, e: nat) {
    q < |s.queues| && Idle(s, e)
  }

  function Recorded(s: State, q: nat, e: nat): State
    requires CanRecord(s, q, e)
  {
    var x := s.queues[q];
    State(s.queues[q := x.(log := x.log + [Marker(e)], pendingEvents := x.pendingEvents + [e])],
          s.events[e := s.events[e].(signal := 1, pending := true, completed := false, recorded := Some(q),
                                     packet := |x.log|)])
  }

  lemma RecordEvents(qi: nat, q: Queue, events: Events, e: nat)
    requires EventsOk(qi, q.log, q.done, events, q.pendingEvents) && e < |events| && !events[e].pending
    requires |q.log| !in q.done
    ensures EventsOk(qi, q.log + [Marker(e)], q.done,
                     events[e := events[e].(signal := 1, pending := true, completed := false, recorded := Some(qi),
                                            packet := |q.log|)], q.pendingEvents + [e])
  {
    var events' := events[e := events[e].(signal := 1, pending := true, completed := false, recorded := Some(qi),
                                          packet := |q.log|)];
    var log' := q.log + [Marker(e)];
    var pe := q.pendingEvents + [e];
    forall x | x in q.pendingEvents ensures EventOk(qi, log', q.done, events', x) && x != e {
      assert EventOk(qi, q.log, q.done, events, x);
    }
    assert EventOk(qi, log', q.done, events', e);
    OneMoreEvent(q.pendingEvents, e);
    forall x | x in pe ensures EventOk(qi, log', q.done, events', x) {
      assert x == e || x in q.pendingEvents;
    }
    forall p: nat, x: nat | p < |log'| && p !in q.done && Completes(log'[p], x)
      ensures PendingBy(pe, events', x, p)
    {
      if p < |q.log| {
        assert log'[p] == q.log[p] && Completes(q.log[p], x);
        assert PendingBy(q.pendingEvents, events, x, p);
        assert EventOk(qi, q.log, q.done, events, x);
      } else {
        assert x == e;
      }
    }
    forall x | 0 <= x < |events'| && events'[x].pending && events'[x].recorded == Some(qi) ensures x in pe {
      if x != e { assert events[x].pending && events[x].recorded == Some(qi); }
    }
  }

  lemma RecordQueueOk(qi: nat, q: Queue, events: Events, e: nat)
    requires QueueOk(qi, q, events) && e < |events| && !events[e].pending
    ensures QueueOk(qi, q.(log := q.log + [Marker(e)], pendingEvents := q.pendingEvents + [e]),
                    events[e := events[e].(signal := 1, pending := true, completed := false, recorded := Some(qi),
                                           packet := |q.log|)])
  {
    hide OrderOk, EventsOk;
    var events' := events[e := events[e].(signal := 1, pending := true, completed := false, recorded := Some(qi),
                                          packet := |q.log|)];
    var log' := q.log + [Marker(e)];
    ExtendLog(q.log, [Marker(e)], q.taken, q.done);
    RecordEvents(qi, q, events, e);
    forall i | 0 <= i < |q.dispatches| ensures DispatchOk(qi, log', q.done, q.values, events', q.dispatches[i]) {
      assert DispatchOk(qi, q.log, q.done, q.values, events, q.dispatches[i]);
    }
    LongerLog(qi, q, events, [Marker(e)]);
    assert BarriersOk(log', events', q.dispatches, q.barriers);
    assert NamesOk(log', q.done, q.barriers);
    assert ValuesOk(log', q.done, q.values, q.dispatches);
  }

  lemma OneMoreEvent(pe: seq<nat>, e: nat)
    requires Distinct(pe) && e !in pe
    ensures Distinct(pe + [e])
  {
  }

  lemma LongerLog(qi: nat, q: Queue, events: Events, tail: seq<Packet>)
    requires OrderOk(q.log, q.dispatches) && DispatchesOk(qi, q.log, q.done, q.values, events, q.dispatches)
    ensures OrderOk(q.log + tail, q.dispatches)
  {
  }

  lemma RecordKeeps(s: State, q: nat, e: nat)
    requires Inv(s) && CanRecord(s, q, e)
    ensures Inv(Recorded(s, q, e))
  {
    hide QueueOk, AllUses;
    var s' := Recorded(s, q, e);
    RecordQueueOk(q, s.queues[q], s.events, e);
    forall k | 0 <= k < |s.queues| && k != q ensures QueueOk(k, s'.queues[k], s'.events) {
      OtherQueue(k, s.queues[k], s.events, s'.events);
    }
    SameUses(s, s');
  }

  // ------------------------------------------------------------ loops over packets

  function Flat(cs: seq<seq<nat>>): seq<nat> {
    if cs == [] then [] else Flat(cs[..|cs| - 1]) + cs[|cs| - 1]
  }

  lemma {:induction false} FlatAppend(a: seq<seq<nat>>, b: seq<seq<nat>>)
    ensures Flat(a + b) == Flat(a) + Flat(b)
  {
    if b == [] {
      assert a + b == a;
    } else {
      FlatAppend(a, b[..|b| - 1]);
      assert (a + b)[..|a + b| - 1] == a + b[..|b| - 1];
    }
  }

  lemma {:induction false} FlatCut(deps: seq<nat>)
    ensures Flat(Cut(deps)) == deps
  {
    if |deps| > 5 {
      FlatCut(deps[5..]);
      FlatAppend([deps[..5]], Cut(deps[5..]));
      assert Flat([deps[..5]]) == deps[..5] by { assert [deps[..5]][..0] == []; }
    } else if deps != [] {
      assert [deps][..0] == [];
    }
  }

  lemma RetainTwice(events: Events, a: seq<nat>, b: seq<nat>)
    ensures Retain(Retain(events, a), b) == Retain(events, a + b)
  {
  }

  lemma ReleaseLast(events: Events, a: seq<nat>, b: seq<nat>)
    ensures Release(Retain(events, a + b), b) == Retain(events, a)
  {
    hide Release, Retain;
    var left, right := Release(Retain(events, a + b), b), Retain(events, a);
    var all: multiset<nat>, x: multiset<nat>, y: multiset<nat> := multiset(a + b), multiset(a), multiset(b);
    assert all == x + y;
    forall e: nat | e < |events| ensures left[e] == right[e] {
      assert all[e] == x[e] + y[e];
    }
  }

  lemma RetainNone(events: Events)
    ensures Retain(events, []) == events
  {
  }
}
