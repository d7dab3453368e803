/** Ordering on the hsakmt backend, about the arguments of the call itself: over every run
    from a submission on, the dispatch starts only after what it was given to wait for. */
module HsakmtOrder {
  import opened Common
  import opened Hsakmt
  import opened HsakmtOps
  import opened HsakmtRuns

  // ------------------------------------------------------------- what only moves on

  ghost predicate QueueGrows(q: Queue, q': Queue) {
    q.log <= q'.log && q.done <= q'.done
  }

  ghost predicate Grows(s: State, s': State) {
    && |s.queues| <= |s'.queues| && |s.events| <= |s'.events|
    && forall q :: 0 <= q < |s.queues| ==> QueueGrows(s.queues[q], s'.queues[q])
  }

  lemma StepGrows(s: State, a: Step)
    requires Enabled(s, a)
    ensures Grows(s, Apply(s, a))
  {
    hide Cut, Packets, Entries, Retain, Release, IsZero;
    if a.Gpu? { GpuGrows(s, a.gpu); }
  }

  lemma GpuGrows(s: State, a: GpuStep)
    requires GpuEnabled(s, a)
    ensures Grows(s, GpuNext(s, a))
  {
  }

  lemma {:induction false} RunGrows(s: State, steps: seq<Step>, s': State)
    requires Run(s, steps, s')
    ensures Grows(s, s')
    decreases |steps|
  {
    hide Enabled, Apply;
    if steps != [] {
      StepGrows(s, steps[0]);
      RunGrows(Apply(s, steps[0]), steps[1..], s');
    }
  }

  // ------------------------------------------------------------- one dependency

  /** Packet `r` of queue `q` waits for the recording of `e` that packet `pe` of queue `qe`
      completes: that packet completed, or it is what the event is still pending for. */
  ghost predicate Held(s: State, q: nat, r: nat, e: nat, qe: nat, pe: nat) {
    && q < |s.queues| && qe < |s.queues| && e < |s.events|
    && r < |s.queues[q].log| && s.queues[q].log[r].Barrier? && e in s.queues[q].log[r].deps
    && (pe in s.queues[qe].done
        || (r !in s.queues[q].done && s.events[e].pending && s.events[e].recorded == Some(qe)
          && s.events[e].packet == pe))
  }

  lemma PendingSignal(s: State, e: nat)
    requires Inv(s) && e < |s.events| && s.events[e].pending
    ensures s.events[e].recorded.Some? && s.events[e].recorded.value < |s.queues|
    ensures s.events[e].signal == 0 ==> s.events[e].packet in s.queues[s.events[e].recorded.value].done
  {
    hide CountsOk;
    var q := s.events[e].recorded.value;
    assert QueueOk(q, s.queues[q], s.events);
    assert EventOk(q, s.queues[q].log, s.queues[q].done, s.events, e);
  }

  /** A pending event keeps its recording over every step but the one that finishes it. */
  lemma PendingStays(s: State, a: Step, e: nat)
    requires Inv(s) && Enabled(s, a) && e < |s.events| && s.events[e].pending
    ensures e < |Apply(s, a).events|
    ensures a == Finish(e) ==> s.events[e].signal == 0
    ensures a != Finish(e) ==>
      && Apply(s, a).events[e].pending
      && Apply(s, a).events[e].recorded == s.events[e].recorded && Apply(s, a).events[e].packet == s.events[e].packet
  {
    hide Inv, Cut, Packets, Entries, IsZero, Uses;
  }

  /** A packet completes only by a hardware step, which finds the signals it names zero. */
  lemma DoneByHardware(s: State, a: Step, q: nat, r: nat)
    requires Enabled(s, a) && q < |s.queues| && r !in s.queues[q].done
    requires q < |Apply(s, a).queues| && r in Apply(s, a).queues[q].done
    ensures a == Gpu(Complete(q, r))
  {
    hide Cut, Packets, Entries, Retain, Release, IsZero;
  }

  lemma HeldStep(s: State, a: Step, q: nat, r: nat, e: nat, qe: nat, pe: nat)
    requires Inv(s) && Enabled(s, a) && Held(s, q, r, e, qe, pe)
    ensures Held(Apply(s, a), q, r, e, qe, pe)
  {
    hide Inv, Enabled, Apply;
    StepGrows(s, a);
    var s' := Apply(s, a);
    assert QueueGrows(s.queues[q], s'.queues[q]) && QueueGrows(s.queues[qe], s'.queues[qe]);
    if pe !in s.queues[qe].done {
      PendingSignal(s, e);
      PendingStays(s, a, e);
      if r in s'.queues[q].done { CompletedZero(s, a, q, r, e); }
    }
  }

  lemma CompletedZero(s: State, a: Step, q: nat, r: nat, e: nat)
    requires Enabled(s, a) && q < |s.queues| && q < |Apply(s, a).queues| && e < |s.events|
    requires r !in s.queues[q].done && r in Apply(s, a).queues[q].done
    requires r < |s.queues[q].log| && s.queues[q].log[r].Barrier? && e in s.queues[q].log[r].deps
    ensures s.events[e].signal == 0
  {
    hide Apply;
    DoneByHardware(s, a, q, r);
  }

  lemma {:induction false} HeldRun(s: State, steps: seq<Step>, s': State, q: nat, r: nat, e: nat, qe: nat, pe: nat)
    requires Inv(s) && Run(s, steps, s') && Held(s, q, r, e, qe, pe)
    ensures Inv(s') && Held(s', q, r, e, qe, pe)
    decreases |steps|
  {
    hide Inv, Enabled, Apply, Held;
    if steps != [] {
      StepKeeps(s, steps[0]);
      HeldStep(s, steps[0], q, r, e, qe, pe);
      HeldRun(Apply(s, steps[0]), steps[1..], s', q, r, e, qe, pe);
    }
  }

  // ------------------------------------------------------------- submissions

  lemma {:induction false} InSomeCut(deps: seq<nat>, e: nat) returns (i: nat)
    requires e in deps
    ensures i < |Cut(deps)| && e in Cut(deps)[i]
  {
    if |deps| <= 5 {
      i := 0;
    } else if e in deps[..5] {
      i := 0;
    } else {
      i := InSomeCut(deps[5..], e);
      i := i + 1;
    }
  }

  /** The packet that waits for a dependency stands before the dispatch. */
  lemma BatchWaits(s: State, q: nat, deps: seq<nat>, completion: Option<nat>, e: nat) returns (r: nat)
    requires CanSubmit(s, q, deps, completion) && e in deps
    ensures var log := Submitted(s, q, deps, completion).queues[q].log;
            && |s.queues[q].log| <= r < |log| - 1 && log[r].Barrier? && e in log[r].deps && log[|log| - 1].Kernel?
    ensures Submitted(s, q, deps, completion).queues[q].done == s.queues[q].done
  {
    hide Cut, Entries;
    var i := InSomeCut(deps, e);
    r := |s.queues[q].log| + i;
    assert Packets(Cut(deps))[i] == Barrier(Cut(deps)[i]);
  }

  ghost predicate TakenOrNext(q: Queue, p: nat) {
    && p < |q.log|
    && (p < q.taken || (p == q.taken && forall r: nat :: r < q.taken && HoldsBack(q.log, r, q.taken) ==> r in q.done))
  }

  lemma EarlierDone(s: State, q: nat, r: nat, p: nat)
    requires Inv(s) && q < |s.queues| && r < p && TakenOrNext(s.queues[q], p) && !s.queues[q].log[r].Kernel?
    ensures r in s.queues[q].done
  {
    hide CountsOk, RecordedOk;
    assert QueueOk(q, s.queues[q], s.events);
    assert HoldsBack(s.queues[q].log, r, p);
  }

  /** The events after a submission that does not complete them. */
  lemma SubmittedEvents(s: State, q: nat, deps: seq<nat>, completion: Option<nat>, e: nat)
    requires CanSubmit(s, q, deps, completion) && e < |s.events| && s.events[e].pending
    ensures var x := Submitted(s, q, deps, completion).events;
            e < |x| && x[e].pending && x[e].recorded == s.events[e].recorded && x[e].packet == s.events[e].packet
  {
    hide Cut, Entries, Packets;
  }

  /** A kernel launch or an asynchronous copy, from its submission on: the dispatch it publishes,
      the last packet of its batch, is taken or next to be taken only when the packet that
      completes each pending event of the list has completed. */
  lemma {:induction false} DispatchWaits(s: State, q: nat, deps: seq<nat>, completion: Option<nat>, steps: seq<Step>,
                                         s': State, e: nat)
    requires Reachable(s) && CanSubmit(s, q, deps, completion) && Run(Submitted(s, q, deps, completion), steps, s')
    requires e in deps && s.events[e].pending
    ensures var p, qe := |Submitted(s, q, deps, completion).queues[q].log| - 1, s.events[e].recorded;
            && q < |s'.queues| && 0 <= p < |s'.queues[q].log| && s'.queues[q].log[p].Kernel?
            && qe.Some? && qe.value < |s'.queues|
            && (TakenOrNext(s'.queues[q], p) ==> s.events[e].packet in s'.queues[qe.value].done)
  {
    hide Inv, Reachable, Run, Submitted, TakenOrNext, CanSubmit;
    ReachableInv(s);
    InRange(s, q, deps, completion, e);
    var s1 := Submitted(s, q, deps, completion);
    var r := BatchWaits(s, q, deps, completion, e);
    PendingSignal(s, e);
    SubmitQueues(s, q, deps, completion);
    var qe, pe, p := s.events[e].recorded.value, s.events[e].packet, |s1.queues[q].log| - 1;
    SubmittedEvents(s, q, deps, completion, e);
    FreshPacket(s, q, r);
    StepKeeps(s, Submit(q, deps, completion));
    HeldRun(s1, steps, s', q, r, e, qe, pe);
    RunGrows(s1, steps, s');
    assert QueueGrows(s1.queues[q], s'.queues[q]);
    if TakenOrNext(s'.queues[q], p) { EarlierDone(s', q, r, p); }
  }

  lemma InRange(s: State, q: nat, deps: seq<nat>, completion: Option<nat>, e: nat)
    requires CanSubmit(s, q, deps, completion) && e in deps
    ensures q < |s.queues| && e < |s.events| && Enabled(s, Submit(q, deps, completion))
    ensures Apply(s, Submit(q, deps, completion)) == Submitted(s, q, deps, completion)
  {
    hide Submitted;
  }

  lemma SubmitQueues(s: State, q: nat, deps: seq<nat>, completion: Option<nat>)
    requires CanSubmit(s, q, deps, completion)
    ensures |Submitted(s, q, deps, completion).queues| == |s.queues|
    ensures forall k :: 0 <= k < |s.queues| ==> Submitted(s, q, deps, completion).queues[k].done == s.queues[k].done
  {
    hide Cut, Entries, Packets;
  }

  lemma FreshPacket(s: State, q: nat, r: nat)
    requires Inv(s) && q < |s.queues| && r >= |s.queues[q].log|
    ensures r !in s.queues[q].done
  {
    hide CountsOk, RecordedOk;
    assert QueueOk(q, s.queues[q], s.events);
  }

  // ------------------------------------------------------------- records

  /** The marker of a record at packet `p`: done, or what the event is pending for. */
  ghost predicate MarkerStands(s: State, q: nat, p: nat, e: nat) {
    && q < |s.queues| && e < |s.events| && p < |s.queues[q].log| && s.queues[q].log[p] == Marker(e)
    && (p in s.queues[q].done
        || (s.events[e].pending && s.events[e].recorded == Some(q) && s.events[e].packet == p
          && s.events[e].signal != 0))
  }

  lemma PendingSet(s: State, q: nat, p: nat, e: nat)
    requires Inv(s) && e < |s.events| && q < |s.queues| && p !in s.queues[q].done
    requires s.events[e].pending && s.events[e].recorded == Some(q) && s.events[e].packet == p
    ensures s.events[e].signal != 0
  {
    hide Inv;
    PendingSignal(s, e);
  }

  lemma MarkerStep(s: State, a: Step, q: nat, p: nat, e: nat)
    requires Inv(s) && Enabled(s, a) && MarkerStands(s, q, p, e)
    ensures MarkerStands(Apply(s, a), q, p, e)
  {
    hide Inv, Enabled, Apply;
    StepGrows(s, a);
    StepKeeps(s, a);
    var s' := Apply(s, a);
    assert QueueGrows(s.queues[q], s'.queues[q]);
    if p !in s'.queues[q].done {
      PendingStays(s, a, e);
      PendingSignal(s, e);
      if a != Finish(e) { PendingSet(s', q, p, e); }
    }
  }

  lemma {:induction false} MarkerRun(s: State, steps: seq<Step>, s': State, q: nat, p: nat, e: nat)
    requires Inv(s) && Run(s, steps, s') && MarkerStands(s, q, p, e)
    ensures Inv(s') && MarkerStands(s', q, p, e)
    decreases |steps|
  {
    hide Inv, Enabled, Apply, MarkerStands;
    if steps != [] {
      StepKeeps(s, steps[0]);
      MarkerStep(s, steps[0], q, p, e);
      MarkerRun(Apply(s, steps[0]), steps[1..], s', q, p, e);
    }
  }

  /** A record, from the call on: as long as a packet that was on its queue at the call has not
      completed, the event is pending for this record and its signal is not zero. */
  lemma {:induction false} RecordWaits(s: State, q: nat, e: nat, steps: seq<Step>, s': State, r: nat)
    requires Reachable(s) && CanRecord(s, q, e) && Run(Recorded(s, q, e), steps, s') && r < |s.queues[q].log|
    ensures q < |s'.queues| && e < |s'.events|
    ensures r !in s'.queues[q].done ==>
      s'.events[e].pending && s'.events[e].packet == |s.queues[q].log| && s'.events[e].signal != 0
  {
    hide Inv, Reachable, Run;
    ReachableInv(s);
    var s1, p := Recorded(s, q, e), |s.queues[q].log|;
    StepKeeps(s, Record(q, e));
    MarkerRun(s1, steps, s', q, p, e);
    if p in s'.queues[q].done { MarkerAfter(s', q, r, p); }
  }

  lemma MarkerAfter(s: State, q: nat, r: nat, p: nat)
    requires Inv(s) && q < |s.queues| && r < p < |s.queues[q].log| && s.queues[q].log[p].Marker?
    requires p in s.queues[q].done
    ensures r in s.queues[q].done
  {
    hide CountsOk, RecordedOk;
    assert QueueOk(q, s.queues[q], s.events);
    assert HoldsBack(s.queues[q].log, r, p);
  }
}
