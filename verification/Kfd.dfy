/** The direct-KFD backend's bookkeeping for one queue: kernarg arenas that only grow,
    dispatch objects that move between a pending list and a pool, the staging of a
    submission with its undo, and the finishing of events.  Calls are serialized; the
    hardware runs at every load of a signal. */
module Kfd {
  import opened Common
  import opened KfdState
  import HsakmtOps

  class Queue {
    var arenas: seq<Arena>

    /** The heap of dispatch objects, by address. */
    var objects: map<nat, Object>
    var nextAddress: nat

    var pending: seq<nat>
    var head: nat
    var available: seq<nat>
    var barriers: seq<Barrier>
    var pendingEvents: seq<nat>
    var devicePending: seq<nat>
    var events: seq<Event>

    /** The object a submission has taken out of the pool and not yet queued. */
    ghost var hand: Option<nat>

    /** The pending dispatches that have completed on the device, from the front. */
    var finished: nat

    /** What the hardware does before each load of a signal. */
    var hardware: seq<seq<GpuStep>>

    constructor (eventCount: nat, hardware: seq<seq<GpuStep>>)
      ensures Valid() && hand == None && events == seq(eventCount, _ => FreshEvent())
      ensures arenas == [] && objects == map[] && pending == [] && barriers == [] && pendingEvents == []
      ensures devicePending == [] && finished == 0 && this.hardware == hardware
    {
      arenas, objects, nextAddress, pending, head, available := [], map[], 0, [], 0, [];
      barriers, pendingEvents, devicePending := [], [], [];
      events := seq(eventCount, _ => FreshEvent());
      hand, finished, this.hardware := None, 0, hardware;
    }

    ghost function Live(): seq<nat>
      reads this
      requires head <= |pending|
    {
      pending[head..]
    }

    ghost predicate Valid()
      reads this
    {
      && head <= |pending|
      && SlicesOk(arenas, objects)
      && SizesOk(objects)
      && OwnedOk(objects, Live(), available, hand)
      && (forall i :: i in objects ==> i < nextAddress)
      && BorrowsOk(objects, Live(), events)
      && BarriersOk(barriers, Live(), events)
      && HandOk(objects, hand)
      && DeviceOk(Live(), Dev())
      && ListedOk(pendingEvents, events)
    }

    ghost function Dev(): Device
      reads this
    {
      Device(objects, finished, events)
    }

    /** Every dispatch that has completed reads as completed. */
    ghost predicate Truthful()
      reads this
      requires head <= |pending|
    {
      TruthfulFrom(Live(), Dev(), 0)
    }

    /** The dispatch in front will never read as completed. */
    ghost predicate Jammed()
      reads this
      requires head <= |pending|
    {
      Live() != [] && Live()[0] in objects && Masked(objects[Live()[0]])
    }

    /** allocate_direct_kfd_kernarg_locked: the first arena with room, else a new one. */
    method Allocate(size: nat, granted: bool) returns (r: Option<Slice>)
      requires Valid()
      modifies `arenas
      ensures Valid()
      ensures r.Some? ==> Unowned(arenas, objects, r.value) && (size == 0 <==> r.value == NoSlice)
      ensures r.Some? && size > 0 ==>
        r.value.Slice? && r.value.size == size && FirstFit(old(arenas), arenas, size, r.value)
      ensures size == 0 ==> arenas == old(arenas)
      ensures r.None? ==> !granted && size > 0 && arenas == old(arenas) && forall a :: 0 <= a < |arenas| ==>
        !Room(arenas[a], size)
    {
      hide SlicesOk, Unowned, OwnedOk, BorrowsOk, BarriersOk, SizesOk;
      if size == 0 {
        assert Unowned(arenas, objects, NoSlice) by { NoSliceUnowned(arenas, objects); }
        return Some(NoSlice);
      }
      for i := 0 to |arenas|
        invariant Valid() && arenas == old(arenas)
        invariant forall a :: 0 <= a < i ==> !Room(arenas[a], size)
      {
        if arenas[i].size - arenas[i].used >= size {
          BumpKeeps(arenas, objects, i, size);
          r := Some(Slice(i, arenas[i].used, size));
          arenas := arenas[i := arenas[i].(used := arenas[i].used + size)];
          return;
        }
      }
      var total := if size > ARENA_SIZE then size else ARENA_SIZE;
      if !granted { return None; }
      NewArenaKeeps(arenas, objects, total, size);
      r := Some(Slice(|arenas|, 0, size));
      arenas := arenas + [Arena(total, size)];
    }

    /** rollback_direct_kfd_kernarg_locked */
    method Rollback(s: Slice)
      requires Valid() && Unowned(arenas, objects, s) && (s.Slice? ==> s.size > 0)
      modifies `arenas
      ensures Valid() && arenas == RolledBack(old(arenas), s)
    {
      hide SlicesOk, OwnedOk, BorrowsOk, BarriersOk, HandOk, DeviceOk, ListedOk;
      if s.Slice? && s.offset + s.size == arenas[s.arena].used {
        RollbackKeeps(arenas, objects, s);
        arenas := arenas[s.arena := arenas[s.arena].(used := s.offset)];
      }
    }

    /** Search the pool from the back. */
    method FindReusable(size: nat) returns (r: Option<nat>)
      requires Valid()
      ensures r.Some? ==>
        r.value < |available| && available[r.value] in objects && Serves(objects[available[r.value]], size)
      ensures r.Some? ==> forall i :: r.value < i < |available| ==>
        available[i] in objects && !Serves(objects[available[i]], size)
      ensures r.None? ==> forall i :: 0 <= i < |available| ==>
        available[i] in objects && !Serves(objects[available[i]], size)
    {
      OwnedIn(objects, Live(), available, hand);
      var i := |available|;
      while i > 0
        invariant 0 <= i <= |available|
        invariant forall k :: i <= k < |available| ==> available[k] in objects && !Serves(objects[available[k]], size)
      {
        i := i - 1;
        assert available[i] in available;
        if Serves(objects[available[i]], size) { return Some(i); }
      }
      return None;
    }

    /** The hardware completes some of the queued work. */
    method Hardware()
      requires Valid()
      modifies `objects, `events, `finished, `hardware
      ensures Valid() && Ran(old(objects), objects) && Fell(old(events), events) && finished >= old(finished)
      ensures old(Truthful()) ==> Truthful()
      ensures Dev() == Loaded(Live(), old(Dev()), old(hardware)) && hardware == Later(old(hardware))
    {
      hide SlicesOk, SizesOk, OwnedOk, BorrowsOk, BarriersOk, HandOk, DeviceOk, TruthfulFrom, Ran, Fell, GpuNext,
        ListedOk;
      ghost var were := Dev();
      assert Ran(objects, objects) && Fell(events, events) by { Idle(objects, events); }
      if hardware == [] { return; }
      var batch := hardware[0];
      hardware := hardware[1..];
      for i := 0 to |batch|
        invariant Valid() && Ran(were.objects, objects) && Fell(were.events, events) && finished >= were.finished
        invariant TruthfulFrom(Live(), were, 0) ==> Truthful()
        invariant Dev() == GpuRun(Live(), were, batch[..i]) && hardware == old(hardware)[1..]
      {
        ghost var d := Dev();
        GpuHost(arenas, Live(), available, hand, barriers, d, batch[i]);
        GpuRunStep(Live(), were, batch, i);
        var d' := GpuNext(pending[head..], Device(objects, finished, events), batch[i]);
        objects, finished, events := d'.objects, d'.finished, d'.events;
        RanTwice(were.objects, d.objects, objects);
        FellTwice(were.events, d.events, events);
        FellListed(pendingEvents, d.events, events);
      }
      assert batch[..|batch|] == batch;
    }

    /** The signal a queued dispatch completes. */
    predicate IsDone(i: nat)
      reads this
    {
      Finished(objects, events, i)
    }

    /** The front dispatch reads as completed at the next load. */
    ghost predicate LoadedDone()
      reads this
      requires head <= |pending|
    {
      var d := Loaded(Live(), Dev(), hardware);
      Live() != [] && Finished(d.objects, d.events, Live()[0])
    }

    /** reap_completed_direct_kfd_barriers_locked, with the hardware running on: an entry
        whose dispatch had completed on entry goes, and one whose dispatch has not completed
        on exit stays. */
    method ReapBarriers()
      requires Valid()
      modifies `barriers, `events, `objects, `finished, `hardware
      ensures Valid() && Ran(old(objects), objects) && Fell(old(events), events) && finished >= old(finished)
      ensures old(Truthful()) ==> Truthful()
      ensures forall b :: b in barriers ==> b in old(barriers) && !old(IsDone(b.retirement))
      ensures forall b :: b in old(barriers) && !IsDone(b.retirement) ==> b in barriers
      ensures old(barriers) == [] ==> Dev() == old(Dev()) && hardware == old(hardware)
      ensures old(hardware) == [] ==> hardware == [] && finished == old(finished)
    {
      hide SlicesOk, SizesOk, OwnedOk, BorrowsOk, BarriersOk, HandOk, DeviceOk, ListedOk, TruthfulFrom,
        Release, Ran, Fell, Finished, SwapRemove, GpuRun;
      ghost var were, evs := objects, events;
      assert Ran(objects, objects) && Fell(events, events) by { Idle(objects, events); }
      var index := 0;
      while index < |barriers|
        invariant Valid() && index <= |barriers| && Ran(were, objects) && Fell(evs, events) && finished >= old(finished)
        invariant old(Truthful()) ==> Truthful()
        invariant forall b :: b in barriers ==> b in old(barriers)
        invariant forall b :: b in old(barriers) && !Finished(objects, events, b.retirement) ==> b in barriers
        invariant forall i :: 0 <= i < index ==> !Finished(were, evs, barriers[i].retirement)
        invariant old(barriers) == [] ==> Dev() == old(Dev()) && hardware == old(hardware)
        invariant old(hardware) == [] ==> hardware == [] && finished == old(finished)
        decreases |barriers| - index
      {
        ghost var o, v := objects, events;
        Hardware();
        RanTwice(were, o, objects);
        FellTwice(evs, v, events);
        assert forall b :: b in old(barriers) && !Finished(objects, events, b.retirement) ==> b in barriers by {
          forall b | b in old(barriers) && !Finished(objects, events, b.retirement) ensures b in barriers {
            StaysDone(o, objects, v, events, b.retirement);
          }
        }
        if !IsDone(barriers[index].retirement) {
          StaysDone(were, objects, evs, events, barriers[index].retirement);
          index := index + 1;
        } else {
          ghost var loaded := events;
          RetireEntry(index);
          FellTwice(evs, loaded, events);
        }
      }
      forall b | b in barriers ensures !old(IsDone(b.retirement)) {
        var i :| 0 <= i < |barriers| && barriers[i] == b;
      }
    }

    /** Drop a barrier entry whose dispatch has completed, and the references it held. */
    method RetireEntry(index: nat)
      requires Valid() && index < |barriers| && IsDone(barriers[index].retirement)
      modifies `barriers, `events
      ensures Valid() && barriers == SwapRemove(old(barriers), index)
      ensures events == Release(old(events), old(barriers)[index].deps) && Fell(old(events), events)
      ensures Truthful() <==> old(Truthful())
      ensures forall i :: Finished(objects, events, i) == Finished(objects, old(events), i)
      ensures forall b :: b in old(barriers) && !Finished(objects, events, b.retirement) ==> b in barriers
    {
      hide SlicesOk, SizesOk, OwnedOk, BorrowsOk, BarriersOk, HandOk, DeviceOk, ListedOk, TruthfulFrom,
        Release, Fell, Finished, SwapRemove;
      var deps := barriers[index].deps;
      ReleaseFields(events, deps);
      SameCount(objects, Live(), barriers, events, Release(events, deps));
      OtherEvents(Live(), Dev(), Release(events, deps));
      SameSignals(Live(), Dev(), Release(events, deps), 0);
      FellListed(pendingEvents, events, Release(events, deps));
      FewerBarriers(barriers, Live(), Release(events, deps), index);
      SwapKeeps(barriers, index);
      forall i ensures Finished(objects, Release(events, deps), i) == Finished(objects, events, i) {
        SameDone(objects, events, deps, i);
      }
      events := Release(events, deps);
      barriers := SwapRemove(barriers, index);
    }

    predicate Retires(i: nat)
      reads this
    {
      exists k :: 0 <= k < |barriers| && barriers[k].retirement == i
    }

    /** reap_direct_kfd_dispatches_locked: move the completed front of the pending list to
        the pool.  Every dispatch moved has completed, and the one left in front had not
        completed on entry.  If every completed dispatch reads as completed, all that had
        completed on entry are moved.  When the pool cannot grow, the dispatches stay,
        detached from their events: those that borrowed an event never read as completed
        again, and once one of them is in front no later call moves anything. */
    method Reap(granted: bool) returns (completed: nat, ok: bool)
      requires Valid()
      modifies `barriers, `events, `objects, `finished, `available, `pending, `head, `hardware
      ensures Valid() && Fell(old(events), events) && SameSlices(old(objects), objects)
      ensures completed <= |old(Live())| && (ok <==> granted || completed == 0)
      ensures ok ==> Live() == old(Live())[completed..] && available == old(available) + old(Live())[..completed]
      ensures ok ==> finished + completed >= old(finished) && SameBorrows(old(objects), objects, Live())
      ensures forall b :: b in barriers ==> b in old(barriers) && !old(IsDone(b.retirement))
      ensures forall x :: x in old(Live())[..completed] ==> WasDone(old(objects), objects, events, x)
      ensures completed < |old(Live())| ==> !old(IsDone(Live()[completed]))
      ensures old(Truthful()) ==> completed >= old(finished) && (ok ==> Truthful())
      ensures !ok ==> pending == old(pending) && head == old(head) && available == old(available)
      ensures !ok ==> completed <= finished && forall x :: x in old(Live())[..completed] ==>
        x in objects && objects[x].event.None? && (IsDone(x) <==> old(x in objects && objects[x].event.None?))
      ensures !ok && old(Truthful()) ==>
        (Truthful() <==> forall x :: x in old(Live())[..completed] ==> old(x in objects && objects[x].event.None?))
      ensures old(Jammed()) ==> Jammed() && completed == 0 && Live() == old(Live())
      ensures old(hardware) == [] ==> hardware == [] && finished == old(finished) - if ok then completed else 0
      ensures old(Live() != [] && barriers == [] && !LoadedDone()) ==>
        completed == 0 && Dev() == Loaded(Live(), old(Dev()), old(hardware)) && hardware == Later(old(hardware))
      ensures old(Live() == [] && barriers == []) ==>
        Dev() == old(Dev()) && hardware == old(hardware) && Live() == [] && barriers == []
    {
      hide SlicesOk, SizesOk, OwnedOk, BorrowsOk, BarriersOk, HandOk, DeviceOk, ListedOk, TruthfulFrom, SameBorrows,
        Ran, Fell, SameSlices, Finished, WasDone, Masked, GpuRun;
      ghost var were, evs, live := objects, events, Live();
      ReapBarriers();
      ghost var o, v := objects, events;
      completed := DetachFront();
      FellTwice(evs, v, events);
      RanSlices(were, o, objects);
      RanBorrows(were, o, objects, live[completed..]);
      forall x | x in live[..completed] ensures WasDone(were, objects, events, x) {
        RanWasDone(were, o, objects, events, x);
      }
      if completed < |live| { StaysDone(were, o, evs, v, live[completed]); }
      FrontMoved(live, Device(were, old(finished), evs), completed);
      NotMoved(were, objects, events, live, completed);
      if completed == 0 {
        assert barriers != [] ==> barriers[0] in barriers;
        assert live[0..] == live && available + [] == available;
        return 0, true;
      }
      if !granted {
        forall x | x in live[..completed] ensures IsDone(x) <==> x in were && were[x].event.None? {
          Detached(were, objects, live, evs, events, x);
        }
        TruthfulUpTo(live, Dev(), completed);
        return completed, false;
      }
      Pool(completed);
      ok := true;
    }

    /** The completed dispatches at the front, up to one that still retires a barrier, let go
        of their events. */
    method DetachFront() returns (completed: nat)
      requires Valid()
      modifies `objects, `events, `finished, `hardware
      ensures Valid() && SameSlices(old(objects), objects) && Fell(old(events), events)
      ensures completed <= finished && completed <= |Live()| && finished >= old(finished)
      ensures forall x :: x in Live()[..completed] ==>
        WasDone(old(objects), objects, events, x) && x in objects && objects[x].event.None? && !Retires(x)
      ensures completed < |Live()| ==> !old(IsDone(Live()[completed])) || Retires(Live()[completed])
      ensures SameBorrows(old(objects), objects, Live()[completed..])
      ensures old(Truthful()) ==> TruthfulFrom(Live(), Dev(), completed)
      ensures Live() == [] ==> Dev() == old(Dev()) && hardware == old(hardware)
      ensures old(hardware) == [] ==> hardware == [] && finished == old(finished)
      ensures Live() != [] && !old(LoadedDone()) ==>
        completed == 0 && Dev() == Loaded(Live(), old(Dev()), old(hardware)) && hardware == Later(old(hardware))
    {
      hide SlicesOk, SizesOk, OwnedOk, BorrowsOk, BarriersOk, HandOk, DeviceOk, ListedOk, TruthfulFrom, SameBorrows,
        SameSlices, Fell, Finished, WasDone, Steady, Walked, GpuRun;
      ghost var were, evs := objects, events;
      completed := 0;
      var more := true;
      WalkStart();
      while more && head + completed < |pending|
        invariant Valid() && Walked(were, evs, completed) && head + completed <= |pending| && finished >= old(finished)
        invariant TruthfulFrom(old(Live()), old(Dev()), 0) ==> TruthfulFrom(Live(), Dev(), completed)
        invariant !more ==>
          completed < |Live()| && (!Finished(were, evs, Live()[completed]) || Retires(Live()[completed]))
        invariant Live() == [] ==> Dev() == old(Dev()) && hardware == old(hardware)
        invariant old(hardware) == [] ==> hardware == [] && finished == old(finished)
        invariant more && completed == 0 ==> Dev() == old(Dev()) && hardware == old(hardware)
        invariant Live() != [] && !old(LoadedDone()) ==>
          completed == 0 && (more
            || (Dev() == Loaded(Live(), old(Dev()), old(hardware)) && hardware == Later(old(hardware))))
        decreases more, |pending| - completed
      {
        Watch(completed, were, evs);
        var x := pending[head + completed];
        if !IsDone(x) {
          WalkStops(were, evs, completed);
          more := false;
        } else if Retires(x) {
          more := false;
        } else {
          DetachOne(x, completed, were, evs);
          completed := completed + 1;
        }
      }
      WalkEnd(were, evs, completed);
    }

    /** The first dispatches have completed and let go of their events; the others have only
        been run by the hardware. */
    ghost predicate Walked(were: map<nat, Object>, evs: seq<Event>, completed: nat)
      reads this
      requires head <= |pending|
    {
      && completed <= |Live()| && completed <= finished
      && SameSlices(were, objects) && Fell(evs, events) && Steady(were, objects, Live()[completed..])
      && (forall x :: x in Live()[..completed] ==>
            WasDone(were, objects, events, x) && x in objects && objects[x].event.None? && !Retires(x))
    }

    lemma WalkStart()
      requires Valid()
      ensures Walked(objects, events, 0)
    {
      hide SlicesOk, SizesOk, OwnedOk, BorrowsOk, BarriersOk, HandOk, DeviceOk, ListedOk, SameSlices, Fell, Steady,
        WasDone;
      SlicesSelf(objects);
      Idle(objects, events);
      OwnedIn(objects, Live(), available, hand);
      SteadySelf(objects, Live());
    }

    lemma WalkStops(were: map<nat, Object>, evs: seq<Event>, completed: nat)
      requires head <= |pending| && Walked(were, evs, completed) && completed < |Live()| && !IsDone(Live()[completed])
      ensures !Finished(were, evs, Live()[completed])
    {
      hide SameSlices, Fell, Steady, WasDone, Finished;
      assert Live()[completed..][0] == Live()[completed];
      SteadyDone(were, objects, evs, events, Live()[completed..], 0);
    }

    lemma WalkEnd(were: map<nat, Object>, evs: seq<Event>, completed: nat)
      requires head <= |pending| && Walked(were, evs, completed)
      ensures completed <= |Live()| && completed <= finished && SameSlices(were, objects) && Fell(evs, events)
      ensures SameBorrows(were, objects, Live()[completed..])
      ensures forall x :: x in Live()[..completed] ==>
        WasDone(were, objects, events, x) && x in objects && objects[x].event.None? && !Retires(x)
    {
      hide SameSlices, Fell, Steady, WasDone, Finished, SameBorrows;
      SteadyBorrows(were, objects, Live()[completed..]);
    }

    /** The hardware runs before the load of one signal. */
    method Watch(completed: nat, ghost were: map<nat, Object>, ghost evs: seq<Event>)
      requires Valid() && Walked(were, evs, completed)
      modifies `objects, `events, `finished, `hardware
      ensures Valid() && Walked(were, evs, completed) && finished >= old(finished)
      ensures TruthfulFrom(Live(), old(Dev()), completed) ==> TruthfulFrom(Live(), Dev(), completed)
      ensures Dev() == Loaded(Live(), old(Dev()), old(hardware)) && hardware == Later(old(hardware))
    {
      hide SlicesOk, SizesOk, OwnedOk, BorrowsOk, BarriersOk, HandOk, DeviceOk, ListedOk, TruthfulFrom, Ran, Fell,
        GpuRun, SameSlices, Finished, WasDone, Steady;
      ghost var d := Dev();
      OwnedIn(objects, Live(), available, hand);
      Hardware();
      if old(hardware) != [] { GpuRunTruthful(Live(), d, old(hardware)[0], completed); }
      FellTwice(evs, d.events, events);
      RanSlices(were, d.objects, objects);
      SteadyRan(were, d.objects, objects, Live()[completed..]);
      forall x | x in Live()[..completed]
        ensures WasDone(were, objects, events, x) && x in objects && objects[x].event.None?
      {
        StillWasDone(were, d.objects, objects, d.events, events, x);
      }
    }

    /** One completed dispatch lets go of its event. */
    method DetachOne(x: nat, completed: nat, ghost were: map<nat, Object>, ghost evs: seq<Event>)
      requires Valid() && Walked(were, evs, completed)
      requires completed < |Live()| && x == Live()[completed] && IsDone(x) && !Retires(x)
      modifies `objects
      ensures Valid() && Walked(were, evs, completed + 1)
      ensures TruthfulFrom(Live(), old(Dev()), completed) ==> TruthfulFrom(Live(), Dev(), completed + 1)
    {
      hide SlicesOk, SizesOk, OwnedOk, BorrowsOk, BarriersOk, HandOk, DeviceOk, ListedOk, TruthfulFrom,
        SameSlices, Finished, Fell, Ran, Steady;
      OwnedIn(objects, Live(), available, hand);
      ghost var objects' := objects[x := objects[x].(event := None)];
      SameObjects(arenas, objects, objects', Live(), available, hand, events);
      SlicesTwice(were, objects, objects');
      assert Live()[..completed + 1] == Live()[..completed] + [x];
      assert Live()[completed..][0] == x && Live()[completed..][1..] == Live()[completed + 1..];
      SteadyDetach(were, objects, Live()[completed..], events);
      ReadsDone(Live(), Dev(), completed);
      DetachDevice(Live(), Dev(), completed);
      assert HandOk(objects', hand) by { HandElsewhere(objects, hand, x); }
      objects := objects[x := objects[x].(event := None)];
    }

    /** Move the first live dispatches to the pool. */
    method Pool(completed: nat)
      requires Valid() && 0 < completed <= finished && head + completed <= |pending|
      requires forall x :: x in Live()[..completed] ==> x in objects && objects[x].event.None? && !Retires(x)
      modifies `available, `pending, `head, `finished
      ensures Valid() && Live() == old(Live())[completed..] && available == old(available) + old(Live())[..completed]
      ensures finished == old(finished) - completed
      ensures Truthful() <==> TruthfulFrom(old(Live()), old(Dev()), completed)
    {
      hide SlicesOk, SizesOk, OwnedOk, BorrowsOk, BarriersOk, HandOk, DeviceOk, ListedOk, TruthfulFrom;
      PoolDevice(Live(), Dev(), completed);
      ghost var live, moved, rest, pool := Live(), Live()[..completed], Live()[completed..], available;
      assert live == moved + rest;
      for index := 0 to completed
        invariant pending == old(pending) && head == old(head) && finished == old(finished)
        invariant available == pool + moved[..index]
      {
        assert pending[head + index] == moved[index];
        available := available + [pending[head + index]];
      }
      assert moved[..completed] == moved;
      head, finished := head + completed, finished - completed;
      if head == |pending| {
        pending := [];
        head := 0;
      }
      assert Live() == rest;
      MoveOwners(objects, live, moved, rest, pool, hand);
      FewerLive(objects, barriers, live, moved, rest, events);
    }

    /** Take a dispatch object for a request: the last pooled one that serves it, after a
        reap if there is none, or a new one on a new slice. */
    method Acquire(size: nat, granted: bool, signalGranted: bool, poolGranted: bool) returns (r: Option<nat>)
      requires Valid() && hand == None
      modifies this
      ensures Valid() && hand == r && Fell(old(events), events)
      ensures r.Some? ==> r.value in objects && Serves(objects[r.value], size)
      ensures r.None? ==> !granted || !signalGranted || !poolGranted
      ensures SlicesKept(old(objects), objects)
      ensures pendingEvents == old(pendingEvents) && devicePending == old(devicePending)
      ensures old(Truthful()) && r.Some? ==> Truthful()
      ensures old(Jammed()) ==> Jammed() && Live() == old(Live())
      ensures old(Jammed() && hardware == []) ==> hardware == [] && finished == old(finished)
      ensures old(Live() == [] && barriers == []) ==>
        events == old(events) && Live() == [] && barriers == [] && finished == old(finished)
          && hardware == old(hardware)
    {
      hide SlicesOk, SizesOk, OwnedOk, BorrowsOk, BarriersOk, HandOk, DeviceOk, ListedOk, TruthfulFrom, SameBorrows,
        Fell, SameSlices, SlicesKept, Finished, WasDone, Masked;
      assert Fell(events, events) by { Idle(objects, events); }
      var i := FindReusable(size);
      KeptSelf(objects);
      if i.None? {
        var _, ok := Reap(poolGranted);
        SameIsKept(old(objects), objects);
        if !ok { return None; }
        i := FindReusable(size);
      }
      ghost var before := objects;
      if i.Some? {
        r := TakePooled(i.value);
        KeptUpdate(old(objects), before, r.value, objects[r.value]);
      } else {
        r := CreateObject(size, granted, signalGranted);
        if r.Some? { KeptUpdate(old(objects), before, r.value, objects[r.value]); }
      }
    }

    /** A new dispatch object on a new slice. */
    method CreateObject(size: nat, granted: bool, signalGranted: bool) returns (r: Option<nat>)
      requires Valid() && hand == None
      modifies `arenas, `objects, `nextAddress, `hand
      ensures Valid() && hand == r
      ensures r.Some? ==>
        r.value !in old(objects) && r.value in objects && objects == old(objects)[r.value := objects[r.value]]
      ensures r.Some? ==> Serves(objects[r.value], size)
      ensures r.None? ==> objects == old(objects) && (!granted || !signalGranted)
      ensures (Truthful() <==> old(Truthful())) && (old(Jammed()) ==> Jammed())
    {
      hide SlicesOk, SizesOk, OwnedOk, BorrowsOk, BarriersOk, HandOk, DeviceOk, ListedOk, TruthfulFrom, Unowned,
        FirstFit, Masked;
      var slice := Allocate(size, granted);
      if slice.None? { return None; }
      if !signalGranted {
        Rollback(slice.value);
        return None;
      }
      var x := nextAddress;
      NewObject(arenas, objects, x, slice.value, Live(), available, barriers, events);
      OwnedIn(objects, Live(), available, hand);
      OtherObjects(Live(), Dev(), objects[x := Object(slice.value, None, 1, None)], 0);
      assert Live() != [] ==> Live()[0] in Live();
      objects := objects[x := Object(slice.value, None, 1, None)];
      nextAddress := x + 1;
      hand := Some(x);
      assert HandOk(objects, hand) by { HandNew(objects, x); }
      r := Some(x);
    }

    method TakePooled(i: nat) returns (r: Option<nat>)
      requires Valid() && hand == None && i < |available|
      modifies `available, `objects, `hand
      ensures Valid() && r == hand == Some(old(available[i])) && old(available[i]) in old(objects)
      ensures objects == old(objects)[old(available[i]) := old(objects)[old(available[i])].(signal := 1)]
      ensures (Truthful() <==> old(Truthful())) && (old(Jammed()) ==> Jammed())
    {
      hide SlicesOk, SizesOk, OwnedOk, BorrowsOk, BarriersOk, HandOk, DeviceOk, ListedOk, TruthfulFrom, Masked;
      OwnedIn(objects, Live(), available, hand);
      var x := available[i];
      assert x in available;
      assert objects[x].event.None? by { PooledBorrowsNothing(objects, Live(), events, x); }
      SameObjects(arenas, objects, objects[x := objects[x].(signal := 1)], Live(), available, hand, events);
      OtherObjects(Live(), Dev(), objects[x := objects[x].(signal := 1)], 0);
      assert Live() != [] ==> Live()[0] in Live();
      objects := objects[x := objects[x].(signal := 1)];
      TakeOwners(objects, Live(), available, i);
      available := SwapRemove(available, i);
      hand := Some(x);
      assert HandOk(objects, hand) by { HandNew(objects, x); }
      r := Some(x);
    }

    /** Push the object in hand, its barriers and its completion event on the lists. */
    method StageSubmission(x: nat, completion: Option<nat>, deps: seq<nat>, clock: nat)
      requires x in objects && (completion.Some? ==> completion.value < |events|)
      modifies `barriers, `events, `objects, `pendingEvents, `devicePending, `pending
      ensures pending == old(pending) + [x] && barriers == old(barriers) + Entries(HsakmtOps.Cut(deps), x)
      ensures events == Arm(Retain(old(events), deps), completion, clock)
      ensures objects == old(objects)[x := old(objects)[x].(event := completion)]
      ensures pendingEvents == old(pendingEvents) + Listed(completion)
      ensures devicePending == old(devicePending) + Listed(completion)
    {
      hide Retain, Entries, Arm;
      HsakmtOps.FlatCut(deps);
      var bs, retained := RegisterBarriers(barriers, events, HsakmtOps.Cut(deps), x);
      events := Arm(retained, completion, clock);
      objects := objects[x := objects[x].(event := completion)];
      pendingEvents, devicePending := pendingEvents + Listed(completion), devicePending + Listed(completion);
      pending, barriers := pending + [x], bs;
    }

    /** Pop them again and restore the saved event fields. */
    method UndoSubmission(x: nat, completion: Option<nat>, deps: seq<nat>, clock: nat, saved: seq<Event>,
                          ghost bs: seq<Barrier>)
      requires x in objects && pending != [] && barriers == bs + Entries(HsakmtOps.Cut(deps), x)
      requires |pendingEvents| >= |Listed(completion)| && |devicePending| >= |Listed(completion)|
      requires completion.Some? ==>
        completion.value < |saved| && completion.value !in deps && !saved[completion.value].pending
          && !saved[completion.value].recorded
      requires events == Arm(Retain(saved, deps), completion, clock)
      modifies `barriers, `events, `objects, `pendingEvents, `devicePending, `pending
      ensures pending == old(pending)[..|old(pending)| - 1] && barriers == bs && events == Failed(saved, completion)
      ensures objects == old(objects)[x := old(objects)[x].(event := None)]
      ensures pendingEvents == old(pendingEvents)[..|old(pendingEvents)| - |Listed(completion)|]
      ensures devicePending == old(devicePending)[..|old(devicePending)| - |Listed(completion)|]
    {
      hide Retain, Entries, Arm, Disarm, Failed, HsakmtOps.Cut, HsakmtOps.Flat;
      pendingEvents := pendingEvents[..|pendingEvents| - |Listed(completion)|];
      devicePending := devicePending[..|devicePending| - |Listed(completion)|];
      objects := objects[x := objects[x].(event := None)];
      HsakmtOps.FlatCut(deps);
      DisarmRetained(saved, deps, completion, clock);
      var back, released := UnregisterBarriers(barriers, Disarm(events, saved, completion), HsakmtOps.Cut(deps), x, bs,
                                               Failed(saved, completion));
      barriers, events := back, released;
      pending := pending[..|pending| - 1];
    }

    /** Queue the object in hand with its barriers and completion event, hand the batch to
        the ring, and take everything back if the ring does not accept it.  The undo is
        complete exactly when there is no completion event or its signal was zero: a fresh
        event, whose signal is created as one, is left with a zero signal.  Arming a borrowed
        event hides the completion of the dispatch that borrows it. */
    method Submit(x: nat, completion: Option<nat>, deps: seq<nat>, clock: nat, accepted: bool) returns (r: Status)
      requires Valid() && hand == Some(x) && x in objects
      requires forall e :: e in deps ==> e < |events|
      requires completion.Some? ==>
        && completion.value < |events| && completion.value !in deps
        && !events[completion.value].pending && !events[completion.value].recorded
      modifies this
      ensures Valid() && hand == None && finished == old(finished) && hardware == old(hardware)
      ensures accepted ==>
        && r == Success && pending == old(pending) + [x] && head == old(head) && available == old(available)
        && barriers == old(barriers) + Entries(HsakmtOps.Cut(deps), x)
        && objects == old(objects)[x := old(objects)[x].(event := completion, target := completion)]
        && events == Arm(Retain(old(events), deps), completion, clock)
        && pendingEvents == old(pendingEvents) + Listed(completion)
        && devicePending == old(devicePending) + Listed(completion)
      ensures !accepted ==>
        && r == Rejected && pending == old(pending) && head == old(head) && available == old(available) + [x]
        && barriers == old(barriers) && objects == old(objects)
        && pendingEvents == old(pendingEvents) && devicePending == old(devicePending)
        && events == Failed(old(events), completion)
      ensures !accepted ==> (events == old(events) <==> completion.None? || old(events[completion.value].signal) == 0)
      ensures accepted && old(Truthful()) ==>
        (Truthful() <==> completion.None? || !old(Borrowed(objects, completion.value)))
      ensures old(Jammed()) ==> Jammed()
    {
      hide *;
      if accepted {
        SubmitAccepted(x, completion, deps, clock);
        r := Success;
      } else {
        SubmitRefused(x, completion, deps, clock);
        r := Rejected;
      }
    }

    /** The submission when the ring takes the batch. */
    method SubmitAccepted(x: nat, completion: Option<nat>, deps: seq<nat>, clock: nat)
      requires Valid() && hand == Some(x) && x in objects
      requires forall e :: e in deps ==> e < |events|
      requires completion.Some? ==>
        && completion.value < |events| && completion.value !in deps
        && !events[completion.value].pending && !events[completion.value].recorded
      modifies `barriers, `events, `objects, `pendingEvents, `devicePending, `pending, `hand
      ensures Valid() && hand == None && pending == old(pending) + [x]
      ensures barriers == old(barriers) + Entries(HsakmtOps.Cut(deps), x)
      ensures objects == old(objects)[x := old(objects)[x].(event := completion, target := completion)]
      ensures events == Arm(Retain(old(events), deps), completion, clock)
      ensures pendingEvents == old(pendingEvents) + Listed(completion)
      ensures devicePending == old(devicePending) + Listed(completion)
      ensures old(Truthful()) ==> (Truthful() <==> completion.None? || !old(Borrowed(objects, completion.value)))
      ensures old(Jammed()) ==> Jammed()
    {
      hide SlicesOk, SizesOk, OwnedOk, BorrowsOk, BarriersOk, DeviceOk, ListedOk, TruthfulFrom, Retain, Entries, Listed,
        Arm, HsakmtOps.Cut, Borrowed;
      ArmPending(events, deps, completion, clock);
      OwnedIn(objects, Live(), available, hand);
      ghost var live, were, bs, pe, saved := Live(), objects, barriers, pendingEvents, events;
      assert live != [] ==> live[0] in live;
      StageSubmission(x, completion, deps, clock);
      objects := objects[x := objects[x].(target := completion)];
      assert objects == were[x := were[x].(event := completion, target := completion)];
      assert Live() == live + [x];
      Accepted(arenas, Device(were, finished, saved), live, available, x, bs, pe, events, deps, completion);
      hand := None;
    }

    /** The submission when the ring does not: everything is taken back. */
    method SubmitRefused(x: nat, completion: Option<nat>, deps: seq<nat>, clock: nat)
      requires Valid() && hand == Some(x) && x in objects
      requires forall e :: e in deps ==> e < |events|
      requires completion.Some? ==>
        && completion.value < |events| && completion.value !in deps
        && !events[completion.value].pending && !events[completion.value].recorded
      modifies `barriers, `events, `objects, `pendingEvents, `devicePending, `pending, `available, `hand
      ensures Valid() && hand == None && pending == old(pending) && available == old(available) + [x]
      ensures barriers == old(barriers) && objects == old(objects)
      ensures pendingEvents == old(pendingEvents) && devicePending == old(devicePending)
      ensures events == Failed(old(events), completion)
      ensures events == old(events) <==> completion.None? || old(events[completion.value].signal) == 0
      ensures old(Jammed()) ==> Jammed()
    {
      hide SlicesOk, SizesOk, OwnedOk, BorrowsOk, BarriersOk, DeviceOk, ListedOk, TruthfulFrom, Retain, Entries,
        Arm, HsakmtOps.Cut, Borrowed;
      UndoExact(events, completion);
      var saved := events;
      ghost var live, were, bs := Live(), objects, barriers;
      StageSubmission(x, completion, deps, clock);
      UndoSubmission(x, completion, deps, clock, saved, bs);
      assert objects == were && Live() == live;
      Refused(Device(were, finished, saved), live, available, x, barriers, pendingEvents, completion);
      available := available + [x];
      hand := None;
    }

    /** The marker of an event: it is armed like the completion event of a submission, but no
        dispatch borrows it. */
    method Record(e: nat, clock: nat, accepted: bool)
      requires Valid() && e < |events| && !events[e].pending && !events[e].recorded
      modifies `events, `pendingEvents, `devicePending
      ensures Valid()
      ensures accepted ==>
        && events == Arm(old(events), Some(e), clock)
        && pendingEvents == old(pendingEvents) + [e] && devicePending == old(devicePending) + [e]
      ensures !accepted ==>
        events == Failed(old(events), Some(e)) && pendingEvents == old(pendingEvents)
          && devicePending == old(devicePending)
      ensures accepted && old(Truthful()) ==> (Truthful() <==> !Borrowed(objects, e))
      ensures old(Jammed()) ==> Jammed()
    {
      hide SlicesOk, SizesOk, OwnedOk, BorrowsOk, BarriersOk, HandOk, DeviceOk, ListedOk, TruthfulFrom, Borrowed;
      ghost var d := Dev();
      var saved := events;
      events := Arm(events, Some(e), clock);
      pendingEvents, devicePending := pendingEvents + [e], devicePending + [e];
      if accepted {
        SameCount(objects, Live(), barriers, saved, events);
        OtherEvents(Live(), d, events);
        ArmTruth(Live(), d, e, events);
        QueuedListed(old(pendingEvents), saved, events, Some(e));
      } else {
        pendingEvents, devicePending := pendingEvents[..|pendingEvents| - 1], devicePending[..|devicePending| - 1];
        events := Failed(saved, Some(e));
        SameCount(objects, Live(), barriers, saved, events);
        OtherEvents(Live(), d, events);
        FailedListed(pendingEvents, saved, Some(e));
      }
    }

    /** finish_direct_kfd_event_wait_locked for a completed event.  Idle events stay unborrowed
        exactly if nobody borrows this one. */
    method FinishEvent(e: nat, times: Times)
      requires Valid() && e < |events| && events[e].pending && events[e].signal == 0
      modifies `events, `pendingEvents, `devicePending
      ensures Valid() && events == old(events)[e := FinishedEvent(old(events[e]), times)]
      ensures pendingEvents == DropEvent(old(pendingEvents), e) && devicePending == DropEvent(old(devicePending), e)
      ensures (Truthful() <==> old(Truthful())) && (old(Jammed()) ==> Jammed())
      ensures old(Settled(objects, events)) ==> (Settled(objects, events) <==> !Borrowed(objects, e))
    {
      hide SlicesOk, SizesOk, OwnedOk, BorrowsOk, BarriersOk, HandOk, DeviceOk, TruthfulFrom;
      var events' := events[e := FinishedEvent(events[e], times)];
      Dropped(pendingEvents, e);
      SameCount(objects, Live(), barriers, events, events');
      OtherEvents(Live(), Dev(), events');
      SameSignals(Live(), Dev(), events', 0);
      FinishSettled(objects, events, e, events');
      pendingEvents, devicePending := DropEvent(pendingEvents, e), DropEvent(devicePending, e);
      events := events';
    }

    /** reap_completed_direct_kfd_events_locked: finish the front event while its signal reads
        zero.  Idle events stay unborrowed exactly if no event it finishes is borrowed. */
    method ReapEvents(times: Times)
      requires Valid()
      modifies `objects, `events, `finished, `hardware, `pendingEvents, `devicePending
      ensures Valid() && Ran(old(objects), objects) && |events| == |old(events)| && finished >= old(finished)
      ensures forall e :: 0 <= e < |events| && events[e].pending ==> old(events[e].pending)
      ensures old(Truthful()) ==> Truthful()
      ensures pendingEvents == [] || (pendingEvents[0] < |events| && events[pendingEvents[0]].signal != 0)
      ensures old(pendingEvents != [] && Signalled(Loaded(Live(), Dev(), hardware).events, pendingEvents[0])) ==>
        old(pendingEvents[0]) < |events| && !events[old(pendingEvents[0])].pending
      ensures old(Settled(objects, events)) ==>
        (Settled(objects, events) <==>
         forall e :: 0 <= e < |events| && old(events[e].pending) && !events[e].pending ==> !Borrowed(objects, e))
    {
      hide SlicesOk, SizesOk, OwnedOk, BorrowsOk, BarriersOk, HandOk, DeviceOk, TruthfulFrom, Borrowed, Ran, Fell,
        GpuRun, Settled, DropEvent;
      ghost var were, evs := objects, events;
      assert Ran(objects, objects) by { Idle(objects, events); }
      assert FewerPending(evs, events);
      var more := true;
      ghost var d, first := Loaded(Live(), Dev(), hardware), if pendingEvents != [] then pendingEvents[0] else 0;
      ghost var started := false;
      while more && pendingEvents != []
        invariant Valid() && Ran(were, objects) && FewerPending(evs, events) && finished >= old(finished)
        invariant !started ==>
          more && Dev() == old(Dev()) && hardware == old(hardware) && pendingEvents == old(pendingEvents)
        invariant started && Signalled(d.events, first) ==> first < |events| && !events[first].pending
        invariant old(Truthful()) ==> Truthful()
        invariant !more ==> pendingEvents != [] && pendingEvents[0] < |events| && events[pendingEvents[0]].signal != 0
        decreases more, |pendingEvents|
      {
        ghost var o, v := objects, events;
        Hardware();
        RanTwice(were, o, objects);
        FellPending(evs, v, events);
        SamePending(v, events);
        var e := pendingEvents[0];
        assert e in pendingEvents;
        if events[e].signal != 0 {
          more := false;
        } else {
          DropShorter(pendingEvents, e);
          FinishEvent(e, times);
        }
        started := true;
      }
      SettledBy(were, objects, evs, events);
    }

    /** The front event reads zero at the load after the next one. */
    ghost predicate LateEvent()
      reads this
      requires head <= |pending|
    {
      pendingEvents != []
      && Signalled(Loaded(Live(), Loaded(Live(), Dev(), hardware), Later(hardware)).events, pendingEvents[0])
    }

    /** The reap of dispatches and then of events, as queue synchronization and the capacity
        wait perform it.  A dispatch that completes after the first pass has looked at it stays
        pending, and the second pass finishes the event it borrows. */
    method ReapWork(granted: bool, times: Times) returns (ok: bool)
      requires Valid()
      modifies `barriers, `events, `objects, `finished, `available, `pending, `head, `hardware, `pendingEvents,
        `devicePending
      ensures Valid() && |events| == |old(events)| && (granted ==> ok)
      ensures ok && old(Truthful()) ==> Truthful()
      ensures ok && old(Settled(objects, events)) ==>
        (Settled(objects, events) <==>
         forall e :: 0 <= e < |events| && old(events[e].pending) && !events[e].pending ==> !Borrowed(objects, e))
      ensures old(Live() != [] && barriers == [] && !LoadedDone() && LateEvent()) ==>
        var e := old(pendingEvents)[0];
        && Live() == old(Live()) && e < |events| && !events[e].pending
        && (old(Borrowed(objects, e)) ==> Borrowed(objects, e))
    {
      hide SlicesOk, SizesOk, OwnedOk, BorrowsOk, BarriersOk, HandOk, DeviceOk, ListedOk, TruthfulFrom, SameBorrows,
        Borrowed, Ran, Settled, SameSlices, Finished, WasDone, Masked, Fell, GpuRun;
      ghost var d, live, late := Dev(), Live(), LateEvent();
      ghost var quiet := live != [] && barriers == [] && !LoadedDone();
      ghost var evs, pe := events, pendingEvents;
      var _, reaped := Reap(granted);
      if pe != [] && pe[0] < |evs| { FellCount(evs, events, pe[0]); }
      SamePending(evs, events);
      if !reaped { return false; }
      Idle(d.objects, evs);
      SettledAfter(d.objects, d.objects, objects, evs, evs, events, Live());
      if quiet && old(hardware) != [] { RunBorrowed(live, d, old(hardware)[0], if pe != [] then pe[0] else 0); }
      ghost var o := objects;
      ReapEvents(times);
      RanBorrowed(o, objects, if pe != [] then pe[0] else 0);
      ok := true;
    }

    /** wait_for_direct_kfd_event_locked: wait for the signal, reap the dispatches, finish the
        event.  If every completed dispatch reads as completed, nobody borrows the event
        afterwards.  If the dispatch in front is jammed, whoever borrowed it still does. */
    method WaitEvent(e: nat, granted: bool, times: Times) returns (ok: bool)
      requires Valid() && e < |events|
      modifies `barriers, `events, `objects, `finished, `available, `pending, `head, `hardware, `pendingEvents,
        `devicePending
      ensures Valid() && |events| == |old(events)|
      ensures ok ==> !events[e].pending && events[e].completed
      ensures granted && old(events[e].pending && events[e].signal == 0) ==> ok
      ensures ok && old(Truthful()) ==> Truthful()
      ensures ok && old(Truthful() && events[e].pending) ==> !Borrowed(objects, e)
      ensures ok && old(Truthful() && Settled(objects, events)) ==> Settled(objects, events) && !Borrowed(objects, e)
      ensures ok && old(Jammed() && Borrowed(objects, e)) ==> Jammed() && Borrowed(objects, e) && Live() == old(Live())
    {
      hide SlicesOk, SizesOk, OwnedOk, BorrowsOk, BarriersOk, HandOk, DeviceOk, ListedOk, TruthfulFrom, SameBorrows,
        Borrowed, Ran, Fell, Settled, SameSlices, Finished, WasDone, Masked, GpuRun;
      ghost var were, evs, live := objects, events, Live();
      if !events[e].pending {
        ok := events[e].completed;
        SettledIdle(objects, events, e);
        return;
      }
      assert Ran(objects, objects) && Fell(events, events) by { Idle(objects, events); }
      while events[e].signal != 0 && hardware != []
        invariant Valid() && Ran(were, objects) && Fell(evs, events) && |events| == |evs| && Live() == live
        invariant pendingEvents == old(pendingEvents) && devicePending == old(devicePending)
        invariant old(Truthful()) ==> Truthful()
        decreases |hardware|
      {
        ghost var o, v := objects, events;
        Hardware();
        RanTwice(were, o, objects);
        FellTwice(evs, v, events);
        FellCount(evs, events, e);
      }
      FellCount(evs, events, e);
      if events[e].signal != 0 { return false; }
      ghost var d := Dev();
      if old(Jammed()) { RanJammed(were, objects, live); }
      RanBorrowed(were, objects, e);
      var completed, reaped := Reap(granted);
      FellCount(d.events, events, e);
      if !reaped { return false; }
      if old(Truthful()) { ReapedBorrows(live, d, objects, events, completed, e); }
      if old(Jammed()) { KeptBorrowed(d.objects, objects, live, d.events, e); }
      SettledAfter(were, d.objects, objects, evs, d.events, events, Live());
      FinishEvent(e, times);
      ok := true;
    }
  }

  /** The refused submission of a fresh event, through the operations: the event's signal
      was created as one and is zero afterwards. */
  method RefusedFreshSubmission(clock: nat) returns (q: Queue, ghost before: seq<Event>)
    ensures fresh(q) && q.Valid() && q.Live() == [] && q.barriers == [] && q.pendingEvents == []
    ensures before == [FreshEvent()] && q.events == [FreshEvent().(signal := 0)] && q.events != before
  {
    hide SlicesOk, SizesOk, OwnedOk, BorrowsOk, BarriersOk, HandOk, SlicesKept, Fell, Arm, Retain;
    q := new Queue(1, []);
    assert q.events == [FreshEvent()];
    var x := q.Acquire(0, true, true, true);
    before := q.events;
    var _ := q.Submit(x.value, Some(0), [], clock, false);
  }

  /** A new queue with one pending dispatch that borrows the first event. */
  method OneBorrower(eventCount: nat, clock: nat) returns (q: Queue, x: nat)
    requires eventCount > 0
    ensures fresh(q) && q.Valid() && q.hand == None && q.hardware == [] && |q.events| == eventCount
    ensures q.Live() == [x] && q.finished == 0 && q.barriers == [] && q.pendingEvents == [0]
    ensures x in q.objects && q.objects[x].event == q.objects[x].target == Some(0)
    ensures forall e :: 0 < e < eventCount ==> q.events[e] == FreshEvent()
  {
    hide SlicesOk, SizesOk, OwnedOk, BorrowsOk, BarriersOk, HandOk, DeviceOk, ListedOk, SlicesKept, Retain,
      TruthfulFrom,
      Fell, Entries;
    q := new Queue(eventCount, []);
    var taken := q.Acquire(0, true, true, true);
    x := taken.value;
    RetainNone(q.events);
    var _ := q.Submit(x, Some(0), [], clock, true);
    assert q.Live() == [x];
  }

  /** A reap that cannot grow the pool, through the operations: the dispatch has completed, the
      reap fails, and the dispatch reads as unfinished for good. */
  method ReapWithoutRoom(clock: nat) returns (q: Queue, x: nat)
    ensures fresh(q) && q.Valid() && q.hand == None && q.hardware == [] && |q.events| == 2
    ensures q.Live() == [x] && q.finished == 1 && !q.IsDone(x) && q.Jammed() && !q.Truthful()
    ensures !q.events[1].pending && !q.events[1].recorded
  {
    hide SlicesOk, SizesOk, OwnedOk, BorrowsOk, BarriersOk, HandOk, ListedOk, SameBorrows, Ran, SameSlices, GpuRun;
    q, x := OneBorrower(2, clock);
    ghost var d := q.Dev();
    assert Unrun(d.objects[q.Live()[0]], d.events);
    q.hardware := [[NextDispatch]];
    q.Hardware();
    NextFrom(q.Live(), d);
    assert q.IsDone(x);
    ghost var o := q.objects;
    var completed, ok := q.Reap(false);
    assert x in [x][..completed];
    assert WasDone(o, q.objects, q.events, x);
    assert q.Live()[0] == x;
  }

  /** An event that is finished while a dispatch borrows it, through the operations: its
      dispatch completes between the two passes of a reap.  The event is idle, nothing depends on
      it, and a pending dispatch still refers to its signal. */
  method FinishedWhileBorrowed(clock: nat, times: Times) returns (q: Queue, x: nat)
    ensures fresh(q) && q.Valid() && q.Live() == [x] && |q.events| == 1
    ensures !q.events[0].pending && Borrowed(q.objects, 0) && !Settled(q.objects, q.events)
  {
    hide SlicesOk, SizesOk, OwnedOk, BorrowsOk, BarriersOk, HandOk, ListedOk, GpuRun, TruthfulFrom;
    q, x := OneBorrower(1, clock);
    ghost var d := q.Dev();
    assert Unrun(d.objects[q.Live()[0]], d.events);
    q.hardware := [[], [NextDispatch]];
    NextFrom(q.Live(), d);
    assert Later(q.hardware) == [[NextDispatch]];
    var _ := q.ReapWork(true, times);
    StillBorrowed(q.objects, q.events, 0);
  }

  /** Behind a jammed dispatch even the wait for an event leaves it borrowed. */
  method WaitBehindJam(clock: nat, times: Times) returns (q: Queue, x: nat, y: nat, ok: bool)
    ensures fresh(q) && q.Valid() && q.Live() == [x, y] && |q.events| == 2
    ensures ok && !q.events[1].pending && Borrowed(q.objects, 1) && q.Jammed()
  {
    hide SlicesOk, SizesOk, OwnedOk, BorrowsOk, BarriersOk, HandOk, DeviceOk, ListedOk, SlicesKept, Ran,
      Retain, Entries, TruthfulFrom, Masked, GpuRun, Settled;
    q, x := ReapWithoutRoom(clock);
    ghost var evs := q.events;
    var taken := q.Acquire(0, true, true, true);
    y := taken.value;
    FellCount(evs, q.events, 1);
    RetainNone(q.events);
    var _ := q.Submit(y, Some(1), [], clock, true);
    assert q.Live() == [x, y];
    q.hardware := [[NextDispatch]];
    ghost var d := q.Dev();
    q.Hardware();
    NextFrom(q.Live(), d);
    assert d.objects[y].event == Some(1);
    RanBorrowed(d.objects, q.objects, 1);
    ok := q.WaitEvent(1, true, times);
  }
}
