/** The values behind one queue of the direct-KFD backend: kernarg slices, the ownership of
    dispatch objects, what the hardware does to signals, and staged submissions. */
module KfdState {
  import opened Common
  import HsakmtOps

  const ARENA_SIZE: nat := 8 * 1024 * 1024

  datatype Arena = Arena(size: nat, used: nat)

  /** No arena for an empty argument block. */
  datatype Slice = NoSlice | Slice(arena: nat, offset: nat, size: nat)

  /** A dispatch object: its argument slice, the event whose signal it borrows, and the
      value of its own completion signal.  `target` is the event that its packet, once
      published, completes instead of that signal. */
  datatype Object = Object(slice: Slice, event: Option<nat>, signal: nat, target: Option<nat>)

  datatype Barrier = Barrier(retirement: nat, deps: seq<nat>)

  datatype Event = Event(
    signal: nat, pending: bool, completed: bool, recorded: bool,
    startTick: nat, completionTick: nat, recordClock: nat, completionClock: nat, depCount: nat)

  /** The next dispatch completes, or a marker does.  Dispatches of a queue complete in order:
      one that is submitted behind another carries the barrier bit. */
  datatype GpuStep = NextDispatch | Marker(event: nat)

  /** An event's signal is created with the value one. */
  function FreshEvent(): Event {
    Event(1, false, false, false, 0, 0, 0, 0, 0)
  }

  // --------------------------------------------------------------------- slices

  predicate Inside(arenas: seq<Arena>, s: Slice) {
    s.Slice? ==> s.arena < |arenas| && s.offset + s.size <= arenas[s.arena].used <= arenas[s.arena].size
  }

  predicate Disjoint(a: Slice, b: Slice) {
    a.Slice? && b.Slice? && a.arena == b.arena ==> a.offset + a.size <= b.offset || b.offset + b.size <= a.offset
  }

  /** Every slice lies inside the used part of its arena, and no two overlap. */
  ghost predicate SlicesOk(arenas: seq<Arena>, objects: map<nat, Object>) {
    && (forall a :: 0 <= a < |arenas| ==> arenas[a].used <= arenas[a].size)
    && (forall i :: i in objects ==> Inside(arenas, objects[i].slice))
    && (forall i, j :: i in objects && j in objects && i != j ==> Disjoint(objects[i].slice, objects[j].slice))
  }

  /** The slice could be given to a new object. */
  ghost predicate Unowned(arenas: seq<Arena>, objects: map<nat, Object>, s: Slice) {
    Inside(arenas, s) && forall i :: i in objects ==> Disjoint(objects[i].slice, s)
  }

  lemma BumpKeeps(arenas: seq<Arena>, objects: map<nat, Object>, a: nat, size: nat)
    requires SlicesOk(arenas, objects) && a < |arenas| && arenas[a].used + size <= arenas[a].size
    ensures SlicesOk(arenas[a := arenas[a].(used := arenas[a].used + size)], objects)
    ensures Unowned(arenas[a := arenas[a].(used := arenas[a].used + size)], objects, Slice(a, arenas[a].used, size))
  {
    forall i | i in objects ensures Inside(arenas[a := arenas[a].(used := arenas[a].used + size)], objects[i].slice) {
      assert Inside(arenas, objects[i].slice);
    }
    forall i | i in objects ensures Disjoint(objects[i].slice, Slice(a, arenas[a].used, size)) {
      assert Inside(arenas, objects[i].slice);
    }
  }

  lemma NewArenaKeeps(arenas: seq<Arena>, objects: map<nat, Object>, total: nat, size: nat)
    requires SlicesOk(arenas, objects) && size <= total
    ensures SlicesOk(arenas + [Arena(total, size)], objects)
    ensures Unowned(arenas + [Arena(total, size)], objects, Slice(|arenas|, 0, size))
  {
    forall i | i in objects ensures Inside(arenas + [Arena(total, size)], objects[i].slice) {
      assert Inside(arenas, objects[i].slice);
    }
    forall i | i in objects ensures Disjoint(objects[i].slice, Slice(|arenas|, 0, size)) {
      assert Inside(arenas, objects[i].slice);
    }
  }

  predicate Room(a: Arena, size: nat) {
    a.used + size <= a.size
  }

  /** The slice is the end of the first arena with room, or the start of a new arena when
      none has room; no other arena changes. */
  ghost predicate FirstFit(before: seq<Arena>, after: seq<Arena>, size: nat, s: Slice) {
    && s.Slice? && s.size == size && s.arena <= |before|
    && (forall a :: 0 <= a < s.arena ==> !Room(before[a], size))
    && if s.arena < |before| then
         && Room(before[s.arena], size) && s.offset == before[s.arena].used
         && after == before[s.arena := before[s.arena].(used := s.offset + size)]
       else
         s.offset == 0 && after == before + [Arena(if size > ARENA_SIZE then size else ARENA_SIZE, size)]
  }

  function RolledBack(arenas: seq<Arena>, s: Slice): seq<Arena> {
    if s.Slice? && s.arena < |arenas| && s.offset + s.size == arenas[s.arena].used
    then arenas[s.arena := arenas[s.arena].(used := s.offset)] else arenas
  }

  /** Rolling back a fresh slice restores every arena there was; a new arena stays, empty. */
  lemma RollbackUndoes(before: seq<Arena>, after: seq<Arena>, size: nat, s: Slice)
    requires FirstFit(before, after, size, s)
    ensures RolledBack(after, s) == if s.arena < |before| then before
      else before + [Arena(if size > ARENA_SIZE then size else ARENA_SIZE, 0)]
  {
    if s.arena < |before| {
      assert RolledBack(after, s)[s.arena] == before[s.arena];
    }
  }

  /** Giving back the topmost slice frees nothing that is owned. */
  lemma RollbackKeeps(arenas: seq<Arena>, objects: map<nat, Object>, s: Slice)
    requires SlicesOk(arenas, objects) && s.Slice? && s.size > 0 && Unowned(arenas, objects, s)
    requires s.offset + s.size == arenas[s.arena].used
    requires forall i :: i in objects && objects[i].slice.Slice? ==> objects[i].slice.size > 0
    ensures SlicesOk(arenas[s.arena := arenas[s.arena].(used := s.offset)], objects)
  {
    var arenas' := arenas[s.arena := arenas[s.arena].(used := s.offset)];
    forall i | i in objects ensures Inside(arenas', objects[i].slice) {
      assert Inside(arenas, objects[i].slice) && Disjoint(objects[i].slice, s);
    }
  }

  // ------------------------------------------------------------------- ownership

  /** Where objects are owned. */
  function Owners(live: seq<nat>, available: seq<nat>, hand: Option<nat>): multiset<nat> {
    multiset(live) + multiset(available) + (if hand.Some? then multiset{hand.value} else multiset{})
  }

  /** Each object is owned once: by the live part of the pending list, by the pool, or by
      the submission that has it in hand. */
  ghost predicate OwnedOk(objects: map<nat, Object>, live: seq<nat>, available: seq<nat>, hand: Option<nat>) {
    forall i: nat :: Owners(live, available, hand)[i] == if i in objects then 1 else 0
  }

  lemma OwnedIn(objects: map<nat, Object>, live: seq<nat>, available: seq<nat>, hand: Option<nat>)
    requires OwnedOk(objects, live, available, hand)
    ensures forall i :: i in live ==> i in objects && i !in available && hand != Some(i)
    ensures forall i :: i in available ==> i in objects && hand != Some(i)
    ensures hand.Some? ==> hand.value in objects
    ensures forall i, k :: 0 <= i < k < |live| ==> live[i] != live[k]
  {
    forall i | i in live ensures i in objects && i !in available && hand != Some(i) {
      assert Owners(live, available, hand)[i] == if i in objects then 1 else 0;
      assert multiset(live)[i] >= 1;
      assert i in available ==> multiset(available)[i] >= 1;
    }
    forall i | i in available ensures i in objects && hand != Some(i) {
      assert Owners(live, available, hand)[i] == if i in objects then 1 else 0;
      assert multiset(available)[i] >= 1;
    }
    if hand.Some? { assert Owners(live, available, hand)[hand.value] == if hand.value in objects then 1 else 0; }
    forall i, k | 0 <= i < k < |live| ensures live[i] != live[k] {
      assert Owners(live, available, hand)[live[i]] <= 1;
      Once(live, i, k);
    }
  }

  lemma Once(s: seq<nat>, i: nat, k: nat)
    requires i < k < |s| && multiset(s)[s[i]] <= 1
    ensures s[i] != s[k]
  {
    assert s == s[..i] + [s[i]] + s[i + 1..k] + [s[k]] + s[k + 1..];
  }

  ghost predicate SizesOk(objects: map<nat, Object>) {
    forall i :: i in objects && objects[i].slice.Slice? ==> objects[i].slice.size > 0
  }

  /** Pooled objects borrow nothing; a pending one borrows only the event its packet
      completes, and its own signal stays armed meanwhile. */
  ghost predicate BorrowsOk(objects: map<nat, Object>, live: seq<nat>, events: seq<Event>) {
    forall i :: i in objects && objects[i].event.Some? ==>
      && i in live && objects[i].event.value < |events|
      && objects[i].signal == 1 && objects[i].target == objects[i].event
  }

  /** A submission's object is armed and borrows nothing yet. */
  ghost predicate HandOk(objects: map<nat, Object>, hand: Option<nat>) {
    hand.Some? ==> hand.value in objects && objects[hand.value].signal == 1 && objects[hand.value].event.None?
  }

  ghost predicate BarriersOk(barriers: seq<Barrier>, live: seq<nat>, events: seq<Event>) {
    forall b :: b in barriers ==> b.retirement in live && forall e :: e in b.deps ==> e < |events|
  }

  function Retain(events: seq<Event>, deps: seq<nat>): (r: seq<Event>)
    ensures |r| == |events|
    ensures forall e :: 0 <= e < |events| ==> r[e] == events[e].(depCount := events[e].depCount + multiset(deps)[e])
  {
    seq(|events|, e requires 0 <= e < |events| => events[e].(depCount := events[e].depCount + multiset(deps)[e]))
  }

  function Release(events: seq<Event>, deps: seq<nat>): (r: seq<Event>)
    ensures |r| == |events|
    ensures forall e :: 0 <= e < |events| ==>
      r[e] == events[e].(depCount := if events[e].depCount <= multiset(deps)[e] then 0
        else events[e].depCount - multiset(deps)[e])
  {
    seq(|events|, e requires 0 <= e < |events| =>
      events[e].(depCount := if events[e].depCount <= multiset(deps)[e] then 0
        else events[e].depCount - multiset(deps)[e]))
  }

  lemma RetainTwice(events: seq<Event>, a: seq<nat>, b: seq<nat>)
    ensures Retain(Retain(events, a), b) == Retain(events, a + b)
  {
  }

  lemma ReleaseLast(events: seq<Event>, a: seq<nat>, b: seq<nat>)
    ensures Release(Retain(events, a + b), b) == Retain(events, a)
  {
    hide Release, Retain;
    var left, right := Release(Retain(events, a + b), b), Retain(events, a);
    var all: multiset<nat>, x: multiset<nat>, y: multiset<nat> := multiset(a + b), multiset(a), multiset(b);
    assert all == x + y;
    forall e: nat | e < |events| ensures left[e] == right[e] {
      assert all[e] == x[e] + y[e];
    }
  }

  lemma RetainNone(events: seq<Event>)
    ensures Retain(events, []) == events
  {
  }

  datatype Status = Success | InvalidArgument | RuntimeError | Rejected

  /** The object can serve a request of this size. */
  predicate Serves(o: Object, size: nat) {
    size == 0 || (o.slice.Slice? && o.slice.size >= size)
  }

  lemma SwapBag(s: seq<nat>, i: nat)
    requires i < |s|
    ensures multiset(s) == multiset(SwapRemove(s, i)) + multiset{s[i]}
  {
    var n := |s| - 1;
    if i < n {
      assert s == s[..i] + [s[i]] + s[i + 1..n] + [s[n]];
      assert SwapRemove(s, i) == s[..i] + [s[n]] + s[i + 1..n];
    } else {
      assert s == s[..i] + [s[i]];
    }
  }

  lemma NoSliceUnowned(arenas: seq<Arena>, objects: map<nat, Object>)
    ensures Unowned(arenas, objects, NoSlice)
  {
  }

  predicate Completed(o: Object, events: seq<Event>) {
    match o.event
    case Some(e) => e < |events| && events[e].signal == 0
    case None => o.signal == 0
  }

  /** Only signals of events fell, and dependency counts changed. */
  ghost predicate Fell(events: seq<Event>, events': seq<Event>) {
    && |events'| == |events|
    && (forall e :: 0 <= e < |events| ==>
          && events'[e] == events[e].(signal := events'[e].signal, depCount := events'[e].depCount)
          && (events[e].signal == 0 ==> events'[e].signal == 0))
  }

  lemma FellTwice(a: seq<Event>, b: seq<Event>, c: seq<Event>)
    requires Fell(a, b) && Fell(b, c)
    ensures Fell(a, c)
  {
  }

  /** Only signals of dispatch objects fell. */
  ghost predicate Ran(objects: map<nat, Object>, objects': map<nat, Object>) {
    && objects'.Keys == objects.Keys
    && (forall i :: i in objects ==> ObjectRan(objects[i], objects'[i]))
  }

  ghost predicate ObjectRan(o: Object, o': Object) {
    && o' == o.(signal := o'.signal) && (o.signal == 0 ==> o'.signal == 0)
    && (o.target.Some? ==> o'.signal == o.signal)
  }

  lemma RanTwice(a: map<nat, Object>, b: map<nat, Object>, c: map<nat, Object>)
    requires Ran(a, b) && Ran(b, c)
    ensures Ran(a, c)
  {
    forall i | i in a ensures ObjectRan(a[i], c[i]) {
      assert ObjectRan(a[i], b[i]) && ObjectRan(b[i], c[i]);
    }
  }

  lemma Idle(objects: map<nat, Object>, events: seq<Event>)
    ensures Ran(objects, objects) && Fell(events, events)
  {
  }

  // -------------------------------------------------------------------- the device

  /** `finished` counts the pending dispatches that have completed, from the front. */
  datatype Device = Device(objects: map<nat, Object>, finished: nat, events: seq<Event>)

  /** The packet has not completed: its signal, own or borrowed, is armed for it. */
  ghost predicate Unrun(o: Object, events: seq<Event>) {
    && o.event == o.target && o.signal == 1
    && (o.target.Some? ==>
          o.target.value < |events| && events[o.target.value].pending && events[o.target.value].signal == 1)
  }

  ghost predicate DeviceOk(live: seq<nat>, d: Device) {
    && d.finished <= |live|
    && (forall k :: 0 <= k < |live| ==> live[k] in d.objects)
    && (forall k :: d.finished <= k < |live| ==> Unrun(d.objects[live[k]], d.events))
    && (forall j, k :: d.finished <= j < k < |live| && d.objects[live[j]].target.Some? ==>
          d.objects[live[k]].target != d.objects[live[j]].target)
    && (forall k :: 0 <= k < d.finished && d.objects[live[k]].target.None? ==> d.objects[live[k]].signal == 0)
  }

  ghost predicate DistinctFrom(live: seq<nat>) {
    forall i, k :: 0 <= i < k < |live| ==> live[i] != live[k]
  }

  /** Every dispatch from position `n` on that has completed reads as completed. */
  ghost predicate TruthfulFrom(live: seq<nat>, d: Device, n: nat) {
    forall k :: n <= k < d.finished && k < |live| ==> Finished(d.objects, d.events, live[k])
  }

  /** Some dispatch borrows the event's signal. */
  ghost predicate Borrowed(objects: map<nat, Object>, e: nat) {
    exists i :: i in objects && objects[i].event == Some(e)
  }

  /** No idle event is borrowed. */
  ghost predicate Settled(objects: map<nat, Object>, events: seq<Event>) {
    forall i :: i in objects && objects[i].event.Some? ==>
      objects[i].event.value < |events| && events[objects[i].event.value].pending
  }

  /** The dispatch was cut off from the event its packet completed, so it never reads as
      completed again. */
  predicate Masked(o: Object) {
    o.event.None? && o.target.Some? && o.signal == 1
  }

  /** An event some dispatch has yet to complete. */
  predicate Awaited(live: seq<nat>, d: Device, e: nat) {
    exists k :: d.finished <= k < |live| && live[k] in d.objects && d.objects[live[k]].target == Some(e)
  }

  function Zeroed(events: seq<Event>, e: nat): seq<Event> {
    if e < |events| then events[e := events[e].(signal := 0)] else events
  }

  function GpuNext(live: seq<nat>, d: Device, a: GpuStep): Device {
    match a
    case NextDispatch =>
      if d.finished < |live| && live[d.finished] in d.objects then
        var x := live[d.finished];
        match d.objects[x].target
        case None => Device(d.objects[x := d.objects[x].(signal := 0)], d.finished + 1, d.events)
        case Some(e) => Device(d.objects, d.finished + 1, Zeroed(d.events, e))
      else d
    case Marker(e) =>
      if e < |d.events| && d.events[e].pending && !Awaited(live, d, e) then d.(events := Zeroed(d.events, e)) else d
  }

  function GpuRun(live: seq<nat>, d: Device, steps: seq<GpuStep>): Device {
    if steps == [] then d else GpuNext(live, GpuRun(live, d, steps[..|steps| - 1]), steps[|steps| - 1])
  }

  /** The device at the next load of a signal. */
  function Loaded(live: seq<nat>, d: Device, hardware: seq<seq<GpuStep>>): Device {
    if hardware == [] then d else GpuRun(live, d, hardware[0])
  }

  function Later<T>(hardware: seq<T>): seq<T> {
    if hardware == [] then [] else hardware[1..]
  }

  lemma {:induction false} GpuRunStep(live: seq<nat>, d: Device, steps: seq<GpuStep>, i: nat)
    requires i < |steps|
    ensures GpuRun(live, d, steps[..i + 1]) == GpuNext(live, GpuRun(live, d, steps[..i]), steps[i])
  {
    assert steps[..i + 1][..i] == steps[..i];
  }

  /** What reads as completed has completed. */
  lemma ReadsDone(live: seq<nat>, d: Device, k: nat)
    requires DeviceOk(live, d) && k < |live| && Finished(d.objects, d.events, live[k])
    ensures k < d.finished
  {
    assert k >= d.finished ==> Unrun(d.objects[live[k]], d.events);
  }

  lemma NextKeeps(live: seq<nat>, d: Device)
    requires DeviceOk(live, d) && DistinctFrom(live)
    ensures DeviceOk(live, GpuNext(live, d, NextDispatch))
  {
    var d' := GpuNext(live, d, NextDispatch);
    forall k | d'.finished <= k < |live| ensures Unrun(d'.objects[live[k]], d'.events) {
      assert Unrun(d.objects[live[k]], d.events);
    }
  }

  /** One step of the hardware, seen by everything the host keeps. */
  lemma GpuHost(arenas: seq<Arena>, live: seq<nat>, available: seq<nat>, hand: Option<nat>, barriers: seq<Barrier>,
                d: Device, a: GpuStep)
    requires SlicesOk(arenas, d.objects) && SizesOk(d.objects) && OwnedOk(d.objects, live, available, hand)
    requires BorrowsOk(d.objects, live, d.events) && BarriersOk(barriers, live, d.events) && HandOk(d.objects, hand)
    requires DeviceOk(live, d)
    ensures var d' := GpuNext(live, d, a);
      && SlicesOk(arenas, d'.objects) && SizesOk(d'.objects) && OwnedOk(d'.objects, live, available, hand)
      && BorrowsOk(d'.objects, live, d'.events) && BarriersOk(barriers, live, d'.events) && HandOk(d'.objects, hand)
      && DeviceOk(live, d') && Ran(d.objects, d'.objects) && Fell(d.events, d'.events) && d'.finished >= d.finished
      && (TruthfulFrom(live, d, 0) ==> TruthfulFrom(live, d', 0))
  {
    hide SlicesOk, SizesOk, OwnedOk, BarriersOk, DeviceOk, TruthfulFrom, GpuNext;
    var d' := GpuNext(live, d, a);
    OwnedIn(d.objects, live, available, hand);
    GpuRan(live, d, a);
    GpuLighter(live, d, a);
    SameObjects(arenas, d.objects, d'.objects, live, available, hand, d.events);
    SameCount(d'.objects, live, barriers, d.events, d'.events);
    match a {
      case NextDispatch => NextKeeps(live, d);
      case Marker(e) => MarkerKeeps(live, d, e);
    }
    if TruthfulFrom(live, d, 0) { GpuTruthful(live, d, a, 0); }
  }

  lemma GpuLighter(live: seq<nat>, d: Device, a: GpuStep)
    requires BorrowsOk(d.objects, live, d.events)
    ensures var d' := GpuNext(live, d, a);
      d'.objects.Keys == d.objects.Keys && forall i :: i in d.objects ==> Lighter(d.objects[i], d'.objects[i])
  {
  }

  lemma MarkerKeeps(live: seq<nat>, d: Device, e: nat)
    requires DeviceOk(live, d)
    ensures DeviceOk(live, GpuNext(live, d, Marker(e)))
  {
    var d' := GpuNext(live, d, Marker(e));
    forall k | d.finished <= k < |live| ensures Unrun(d'.objects[live[k]], d'.events) {
      assert Unrun(d.objects[live[k]], d.events);
    }
  }

  lemma GpuTruthful(live: seq<nat>, d: Device, a: GpuStep, n: nat)
    requires DeviceOk(live, d) && DistinctFrom(live) && TruthfulFrom(live, d, n)
    ensures TruthfulFrom(live, GpuNext(live, d, a), n)
  {
    var d' := GpuNext(live, d, a);
    forall k | n <= k < d'.finished && k < |live| ensures Finished(d'.objects, d'.events, live[k]) {
      if k < d.finished {
        assert Finished(d.objects, d.events, live[k]);
      } else {
        assert Unrun(d.objects[live[k]], d.events);
      }
    }
  }

  lemma GpuRan(live: seq<nat>, d: Device, a: GpuStep)
    ensures var d' := GpuNext(live, d, a);
      && Ran(d.objects, d'.objects) && Fell(d.events, d'.events) && d'.finished >= d.finished
      && (forall i :: i in d.objects && i !in live ==> d'.objects[i] == d.objects[i])
  {
  }

  /** Objects outside the pending list do not matter to the device. */
  lemma OtherObjects(live: seq<nat>, d: Device, objects': map<nat, Object>, n: nat)
    requires DeviceOk(live, d) && forall i :: i in live ==>
      i in objects' && i in d.objects && objects'[i] == d.objects[i]
    ensures DeviceOk(live, d.(objects := objects'))
    ensures TruthfulFrom(live, d.(objects := objects'), n) <==> TruthfulFrom(live, d, n)
  {
    assert forall k :: 0 <= k < |live| ==> live[k] in live;
    forall k | d.finished <= k < |live| ensures Unrun(objects'[live[k]], d.events) {
      assert Unrun(d.objects[live[k]], d.events);
    }
    forall k | 0 <= k < |live|
      ensures Finished(objects', d.events, live[k]) <==> Finished(d.objects, d.events, live[k]) {}
  }

  /** Events that kept flag and signal, except some no unfinished dispatch completes. */
  lemma OtherEvents(live: seq<nat>, d: Device, events': seq<Event>)
    requires DeviceOk(live, d) && |events'| == |d.events|
    requires forall e :: 0 <= e < |events'| ==>
      (events'[e].pending == d.events[e].pending && events'[e].signal == d.events[e].signal)
      || !(d.events[e].pending && d.events[e].signal == 1)
    ensures DeviceOk(live, d.(events := events'))
  {
    forall k | d.finished <= k < |live| ensures Unrun(d.objects[live[k]], events') {
      assert Unrun(d.objects[live[k]], d.events);
    }
  }

  lemma SameSignals(live: seq<nat>, d: Device, events': seq<Event>, n: nat)
    requires |events'| == |d.events| && forall e :: 0 <= e < |events'| ==> events'[e].signal == d.events[e].signal
    ensures TruthfulFrom(live, d.(events := events'), n) <==> TruthfulFrom(live, d, n)
  {
    forall k | 0 <= k < |live|
      ensures Finished(d.objects, events', live[k]) <==> Finished(d.objects, d.events, live[k]) {}
  }

  /** A completed dispatch lets go of its event. */
  lemma DetachDevice(live: seq<nat>, d: Device, n: nat)
    requires DeviceOk(live, d) && DistinctFrom(live) && n < d.finished
    ensures var d' := d.(objects := d.objects[live[n] := d.objects[live[n]].(event := None)]);
      DeviceOk(live, d') && (TruthfulFrom(live, d, n) ==> TruthfulFrom(live, d', n + 1))
  {
    var objects' := d.objects[live[n] := d.objects[live[n]].(event := None)];
    forall k | d.finished <= k < |live| ensures Unrun(objects'[live[k]], d.events) {
      assert Unrun(d.objects[live[k]], d.events);
    }
    forall k | n + 1 <= k < d.finished && k < |live|
      ensures Finished(objects', d.events, live[k]) <==> Finished(d.objects, d.events, live[k]) {}
  }

  lemma {:induction false} GpuRunTruthful(live: seq<nat>, d: Device, steps: seq<GpuStep>, n: nat)
    requires DeviceOk(live, d) && DistinctFrom(live)
    ensures DeviceOk(live, GpuRun(live, d, steps))
    ensures TruthfulFrom(live, d, n) ==> TruthfulFrom(live, GpuRun(live, d, steps), n)
  {
    hide DeviceOk, TruthfulFrom, GpuNext;
    if steps != [] {
      var m := |steps| - 1;
      GpuRunTruthful(live, d, steps[..m], n);
      var before := GpuRun(live, d, steps[..m]);
      match steps[m] {
        case NextDispatch => NextKeeps(live, before);
        case Marker(e) => MarkerKeeps(live, before, e);
      }
      if TruthfulFrom(live, before, n) { GpuTruthful(live, before, steps[m], n); }
    }
  }

  /** If every completed dispatch reads as completed, a walk that stops at an unfinished one
      has passed all that had completed. */
  lemma FrontMoved(live: seq<nat>, d: Device, completed: nat)
    requires DeviceOk(live, d) && completed <= |live|
    requires completed < |live| ==> !Finished(d.objects, d.events, live[completed])
    ensures TruthfulFrom(live, d, 0) ==> completed >= d.finished
  {
  }

  lemma TruthfulUpTo(live: seq<nat>, d: Device, n: nat)
    requires n <= d.finished && n <= |live|
    ensures TruthfulFrom(live, d, n) ==>
      (TruthfulFrom(live, d, 0) <==> forall x :: x in live[..n] ==> Finished(d.objects, d.events, x))
  {
    forall k | 0 <= k < n ensures live[k] in live[..n] { assert live[..n][k] == live[k]; }
  }

  /** A submission or a marker arms an event: the completed dispatches still read as completed
      exactly if none of them borrows it. */
  lemma ArmTruth(live: seq<nat>, d: Device, e: nat, events': seq<Event>)
    requires DeviceOk(live, d) && BorrowsOk(d.objects, live, d.events) && e < |d.events| && !d.events[e].pending
    requires |events'| == |d.events| && events'[e].signal == 1
    requires forall x :: 0 <= x < |events'| && x != e ==> events'[x].signal == d.events[x].signal
    ensures TruthfulFrom(live, d, 0) ==>
      (TruthfulFrom(live, d.(events := events'), 0) <==> !Borrowed(d.objects, e))
  {
    if TruthfulFrom(live, d, 0) && Borrowed(d.objects, e) {
      var i :| i in d.objects && d.objects[i].event == Some(e);
      var k :| 0 <= k < |live| && live[k] == i;
      assert k >= d.finished ==> Unrun(d.objects[live[k]], d.events);
      assert !Finished(d.objects, events', live[k]);
    } else if TruthfulFrom(live, d, 0) {
      forall k | 0 <= k < d.finished && k < |live| ensures Finished(d.objects, events', live[k]) {
        assert Finished(d.objects, d.events, live[k]);
      }
    }
  }

  lemma QueuedTruth(live: seq<nat>, d: Device, x: nat, completion: Option<nat>, events': seq<Event>)
    requires DeviceOk(live, d) && BorrowsOk(d.objects, live, d.events) && x in d.objects && x !in live
    requires |events'| == |d.events|
    requires completion.Some? ==>
      completion.value < |d.events| && !d.events[completion.value].pending && events'[completion.value].signal == 1
    requires forall e :: 0 <= e < |events'| && Some(e) != completion ==> events'[e].signal == d.events[e].signal
    ensures var d' := Device(d.objects[x := d.objects[x].(event := completion, target := completion)], d.finished,
                             events');
      TruthfulFrom(live, d, 0) ==>
        (TruthfulFrom(live + [x], d', 0) <==> completion.None? || !Borrowed(d.objects, completion.value))
  {
    hide Borrowed;
    var objects' := d.objects[x := d.objects[x].(event := completion, target := completion)];
    var d' := Device(objects', d.finished, events');
    if completion.Some? {
      ArmTruth(live, d, completion.value, events');
    } else {
      SameSignals(live, d, events', 0);
    }
    forall k | 0 <= k < |live|
      ensures (live + [x])[k] == live[k]
      ensures Finished(objects', events', live[k]) <==> Finished(d.objects, events', live[k])
    {
      assert live[k] in live;
    }
    assert TruthfulFrom(live + [x], d', 0) ==> TruthfulFrom(live, d.(events := events'), 0) by {
      if TruthfulFrom(live + [x], d', 0) {
        forall k | 0 <= k < d.finished && k < |live| ensures Finished(d.objects, events', live[k]) {
          assert Finished(objects', events', (live + [x])[k]);
        }
      }
    }
  }

  // ------------------------------------------------------------------- finishing events

  /** The device timestamps and the clock a finished event is given, if they can be read. */
  datatype Times = Times(start: nat, end: nat, clock: Option<nat>)

  function FinishedEvent(e: Event, t: Times): Event {
    var known := t.clock.Some? && t.start != 0 && t.end >= t.start;
    e.(pending := false, recorded := false, completed := true,
       startTick := if known then t.start else 0, completionTick := if known then t.end else 0,
       completionClock := if known then t.clock.value else 0)
  }

  /** The events listed as pending are, and no event is listed twice. */
  ghost predicate ListedOk(pe: seq<nat>, events: seq<Event>) {
    Distinct(pe) && forall e :: e in pe ==> e < |events| && events[e].pending
  }

  lemma FellListed(pe: seq<nat>, events: seq<Event>, events': seq<Event>)
    requires ListedOk(pe, events) && Fell(events, events')
    ensures ListedOk(pe, events')
  {
  }

  lemma QueuedListed(pe: seq<nat>, events: seq<Event>, events': seq<Event>, completion: Option<nat>)
    requires ListedOk(pe, events) && |events'| == |events|
    requires forall e :: 0 <= e < |events| && events[e].pending ==> events'[e].pending
    requires completion.Some? ==>
      completion.value < |events| && !events[completion.value].pending && events'[completion.value].pending
    ensures ListedOk(pe + Listed(completion), events')
  {
  }

  lemma FailedListed(pe: seq<nat>, events: seq<Event>, completion: Option<nat>)
    requires ListedOk(pe, events)
    ensures ListedOk(pe, Failed(events, completion))
  {
  }

  lemma DropShorter(pe: seq<nat>, e: nat)
    requires e in pe
    ensures |DropEvent(pe, e)| == |pe| - 1
  {
  }

  lemma FinishSettled(objects: map<nat, Object>, events: seq<Event>, e: nat, events': seq<Event>)
    requires e < |events| && |events'| == |events| && !events'[e].pending
    requires forall x :: 0 <= x < |events| && x != e ==> events'[x].pending == events[x].pending
    ensures Settled(objects, events) ==> (Settled(objects, events') <==> !Borrowed(objects, e))
  {
  }

  ghost predicate FewerPending(events: seq<Event>, events': seq<Event>) {
    |events'| == |events| && forall e :: 0 <= e < |events| && events'[e].pending ==> events[e].pending
  }

  lemma FellPending(a: seq<Event>, b: seq<Event>, c: seq<Event>)
    requires FewerPending(a, b) && Fell(b, c)
    ensures FewerPending(a, c)
  {
  }

  lemma StillBorrowed(objects: map<nat, Object>, events: seq<Event>, e: nat)
    requires e < |events| && !events[e].pending && Borrowed(objects, e)
    ensures !Settled(objects, events)
  {
  }

  predicate Signalled(events: seq<Event>, e: nat) {
    e < |events| && events[e].signal == 0
  }

  lemma SamePending(events: seq<Event>, events': seq<Event>)
    requires Fell(events, events')
    ensures |events'| == |events| && forall e :: 0 <= e < |events| ==> events'[e].pending == events[e].pending
  {
  }

  lemma SettledBy(were: map<nat, Object>, objects: map<nat, Object>, evs: seq<Event>, events: seq<Event>)
    requires Ran(were, objects) && FewerPending(evs, events)
    ensures Settled(were, evs) ==>
      (Settled(objects, events) <==>
       forall e :: 0 <= e < |events| && evs[e].pending && !events[e].pending ==> !Borrowed(objects, e))
  {
    forall i | i in objects ensures i in were && objects[i].event == were[i].event {
      assert ObjectRan(were[i], objects[i]);
    }
    if Settled(were, evs) && Settled(objects, events) {
      forall e: nat | e < |events| && evs[e].pending && !events[e].pending ensures !Borrowed(objects, e) {
        assert forall i :: i in objects && objects[i].event == Some(e) ==> events[e].pending;
      }
    } else if Settled(were, evs) {
      var i :| i in objects && objects[i].event.Some?
        && !(objects[i].event.value < |events| && events[objects[i].event.value].pending);
      assert Borrowed(objects, objects[i].event.value);
    }
  }

  lemma SettledIdle(objects: map<nat, Object>, events: seq<Event>, e: nat)
    requires e < |events| && !events[e].pending
    ensures Settled(objects, events) ==> !Borrowed(objects, e)
  {
  }

  lemma FellCount(events: seq<Event>, events': seq<Event>, e: nat)
    requires Fell(events, events') && e < |events|
    ensures |events'| == |events| && events'[e].pending == events[e].pending
    ensures events[e].signal == 0 ==> events'[e].signal == 0
  {
  }

  /** These dispatches borrow what they borrowed. */
  ghost predicate SameBorrows(were: map<nat, Object>, objects: map<nat, Object>, xs: seq<nat>) {
    forall x :: x in xs ==>
      && x in were && x in objects && objects[x].event == were[x].event && objects[x].target == were[x].target
      && (were[x].target.Some? ==> objects[x].signal == were[x].signal)
  }

  lemma SteadyBorrows(were: map<nat, Object>, objects: map<nat, Object>, xs: seq<nat>)
    requires Steady(were, objects, xs)
    ensures SameBorrows(were, objects, xs)
  {
    forall x | x in xs
      ensures x in were && x in objects && ObjectRan(were[x], objects[x])
    {
      var k :| 0 <= k < |xs| && xs[k] == x;
    }
  }

  lemma RanBorrows(were: map<nat, Object>, o: map<nat, Object>, objects: map<nat, Object>, xs: seq<nat>)
    requires Ran(were, o) && SameBorrows(o, objects, xs)
    ensures SameBorrows(were, objects, xs)
  {
    forall x | x in xs && x in were ensures x in o && ObjectRan(were[x], o[x]) {}
  }

  lemma RanJammed(were: map<nat, Object>, objects: map<nat, Object>, live: seq<nat>)
    requires Ran(were, objects) && live != [] && live[0] in were && Masked(were[live[0]])
    ensures live[0] in objects && Masked(objects[live[0]])
  {
    assert ObjectRan(were[live[0]], objects[live[0]]);
  }

  lemma RanBorrowed(were: map<nat, Object>, objects: map<nat, Object>, e: nat)
    requires Ran(were, objects)
    ensures Borrowed(objects, e) <==> Borrowed(were, e)
  {
    forall i | i in were ensures i in objects && objects[i].event == were[i].event {
      assert ObjectRan(were[i], objects[i]);
    }
    if Borrowed(were, e) {
      var i :| i in were && were[i].event == Some(e);
      assert objects[i].event == Some(e);
    }
  }

  lemma {:induction false} RunBorrowed(live: seq<nat>, d: Device, steps: seq<GpuStep>, e: nat)
    ensures Borrowed(GpuRun(live, d, steps).objects, e) <==> Borrowed(d.objects, e)
  {
    hide Borrowed, GpuNext, Ran;
    if steps != [] {
      var m := |steps| - 1;
      RunBorrowed(live, d, steps[..m], e);
      var before := GpuRun(live, d, steps[..m]);
      GpuRan(live, before, steps[m]);
      RanBorrowed(before.objects, GpuNext(live, before, steps[m]).objects, e);
    }
  }

  lemma NextFrom(live: seq<nat>, d: Device)
    ensures GpuRun(live, d, [NextDispatch]) == GpuNext(live, d, NextDispatch) && GpuRun(live, d, []) == d
  {
    assert [NextDispatch][..0] == [];
  }

  /** A jammed front is never moved and stays jammed. */
  lemma NotMoved(were: map<nat, Object>, objects: map<nat, Object>, events: seq<Event>, live: seq<nat>, completed: nat)
    requires completed <= |live| && SameBorrows(were, objects, live[completed..])
    requires forall x :: x in live[..completed] ==> WasDone(were, objects, events, x)
    ensures live != [] && live[0] in were && Masked(were[live[0]]) ==>
      completed == 0 && live[0] in objects && Masked(objects[live[0]])
  {
    assert completed > 0 ==> live[..completed][0] == live[0] && WasDone(were, objects, events, live[0]);
    assert completed == 0 && live != [] ==> live[completed..][0] == live[0];
  }

  /** Behind the dispatches that had completed, nobody borrows an event that reads zero. */
  lemma ReapedBorrows(live: seq<nat>, d: Device, objects: map<nat, Object>, events: seq<Event>, completed: nat, e: nat)
    requires DeviceOk(live, d) && d.finished <= completed <= |live|
    requires SameBorrows(d.objects, objects, live[completed..])
    requires BorrowsOk(objects, live[completed..], events) && e < |d.events| && d.events[e].signal == 0
    ensures !Borrowed(objects, e)
  {
    forall i | i in objects && objects[i].event.Some?
      ensures objects[i].event.value < |d.events| && d.events[objects[i].event.value].signal == 1
    {
      var k :| 0 <= k < |live[completed..]| && live[completed..][k] == i;
      assert live[completed + k] == i;
      assert Unrun(d.objects[live[completed + k]], d.events);
    }
  }

  lemma KeptBorrowed(were: map<nat, Object>, objects: map<nat, Object>, live: seq<nat>, evs: seq<Event>, e: nat)
    requires BorrowsOk(were, live, evs) && SameBorrows(were, objects, live)
    ensures Borrowed(were, e) ==> Borrowed(objects, e)
  {
    if Borrowed(were, e) {
      var i :| i in were && were[i].event == Some(e);
      assert i in objects && objects[i].event == Some(e);
    }
  }

  lemma SettledAfter(were: map<nat, Object>, o: map<nat, Object>, objects: map<nat, Object>, evs: seq<Event>,
                     v: seq<Event>, events: seq<Event>, live: seq<nat>)
    requires Ran(were, o) && Fell(evs, v) && Fell(v, events)
    requires SameBorrows(o, objects, live) && BorrowsOk(objects, live, events)
    ensures Settled(were, evs) ==> Settled(objects, events)
  {
    if Settled(were, evs) {
      forall i | i in objects && objects[i].event.Some?
        ensures objects[i].event.value < |events| && events[objects[i].event.value].pending
      {
        assert ObjectRan(were[i], o[i]);
      }
    }
  }

  lemma PoolDevice(live: seq<nat>, d: Device, n: nat)
    requires DeviceOk(live, d) && n <= d.finished
    ensures DeviceOk(live[n..], d.(finished := d.finished - n))
    ensures TruthfulFrom(live, d, n) <==> TruthfulFrom(live[n..], d.(finished := d.finished - n), 0)
  {
    var rest, d' := live[n..], d.(finished := d.finished - n);
    forall k | 0 <= k < |rest| ensures rest[k] == live[n + k] {}
    forall k | d'.finished <= k < |rest| ensures Unrun(d.objects[rest[k]], d.events) {
      assert Unrun(d.objects[live[n + k]], d.events);
    }
    if TruthfulFrom(rest, d', 0) {
      forall k | n <= k < d.finished && k < |live| ensures Finished(d.objects, d.events, live[k]) {
        assert rest[k - n] == live[k];
      }
    }
  }

  /** A submission joins the queue behind everything that is pending. */
  lemma QueuedDevice(live: seq<nat>, d: Device, x: nat, completion: Option<nat>, events': seq<Event>)
    requires DeviceOk(live, d) && x in d.objects && x !in live && d.objects[x].signal == 1 && |events'| == |d.events|
    requires completion.Some? ==>
      && completion.value < |events'| && !d.events[completion.value].pending
      && events'[completion.value].pending && events'[completion.value].signal == 1
    requires forall e :: 0 <= e < |events'| && Some(e) != completion ==>
      events'[e].pending == d.events[e].pending && events'[e].signal == d.events[e].signal
    ensures DeviceOk(live + [x],
        Device(d.objects[x := d.objects[x].(event := completion, target := completion)], d.finished, events'))
  {
    var objects' := d.objects[x := d.objects[x].(event := completion, target := completion)];
    forall k | d.finished <= k < |live|
      ensures Unrun(objects'[live[k]], events') && (completion.Some? ==> objects'[live[k]].target != completion)
    {
      assert live[k] in live && Unrun(d.objects[live[k]], d.events);
    }
    forall k | 0 <= k < |live| ensures objects'[live[k]] == d.objects[live[k]] { assert live[k] in live; }
  }

  /** The object kept its slice and borrows nothing new. */
  ghost predicate Lighter(o: Object, o': Object) {
    o'.slice == o.slice && (o'.event.None? || o' == o)
  }

  /** With the event it had then and the signals of now, the dispatch has completed. */
  ghost predicate WasDone(were: map<nat, Object>, objects: map<nat, Object>, events: seq<Event>, x: nat) {
    && x in were && x in objects && Completed(objects[x].(event := were[x].event), events)
    && (were[x].target.Some? ==> objects[x].signal == were[x].signal) && objects[x].target == were[x].target
  }

  /** These dispatches still have the events they had. */
  ghost predicate Steady(were: map<nat, Object>, objects: map<nat, Object>, live: seq<nat>) {
    && (forall k :: 0 <= k < |live| ==>
      live[k] in were && live[k] in objects && ObjectRan(were[live[k]], objects[live[k]]))
    && (forall i, k :: 0 <= i < k < |live| ==> live[i] != live[k])
  }

  lemma SteadySelf(objects: map<nat, Object>, live: seq<nat>)
    requires forall k :: 0 <= k < |live| ==> live[k] in objects
    requires forall i, k :: 0 <= i < k < |live| ==> live[i] != live[k]
    ensures Steady(objects, objects, live) && Steady(objects, objects, live[0..])
  {
  }

  lemma SteadyRan(were: map<nat, Object>, o: map<nat, Object>, objects: map<nat, Object>, live: seq<nat>)
    requires Steady(were, o, live) && Ran(o, objects)
    ensures Steady(were, objects, live)
  {
    forall k | 0 <= k < |live| ensures live[k] in objects && ObjectRan(were[live[k]], objects[live[k]]) {
      assert ObjectRan(were[live[k]], o[live[k]]) && ObjectRan(o[live[k]], objects[live[k]]);
    }
  }

  lemma SteadyDone(were: map<nat, Object>, objects: map<nat, Object>, evs: seq<Event>, events: seq<Event>,
                   live: seq<nat>, k: nat)
    requires Steady(were, objects, live) && Fell(evs, events) && k < |live| && !Finished(objects, events, live[k])
    ensures !Finished(were, evs, live[k])
  {
    assert ObjectRan(were[live[k]], objects[live[k]]);
  }

  lemma SteadyDetach(were: map<nat, Object>, objects: map<nat, Object>, live: seq<nat>, events: seq<Event>)
    requires Steady(were, objects, live) && live != [] && Finished(objects, events, live[0])
    ensures Steady(were, objects[live[0] := objects[live[0]].(event := None)], live[1..])
    ensures WasDone(were, objects[live[0] := objects[live[0]].(event := None)], events, live[0])
  {
    assert ObjectRan(were[live[0]], objects[live[0]]);
    forall k | 0 <= k < |live[1..]| ensures live[1..][k] == live[k + 1] && live[k + 1] != live[0] {}
  }

  lemma StillWasDone(were: map<nat, Object>, o: map<nat, Object>, objects: map<nat, Object>, v: seq<Event>,
                     events: seq<Event>, x: nat)
    requires WasDone(were, o, v, x) && x in o && Ran(o, objects) && Fell(v, events)
    ensures WasDone(were, objects, events, x) && x in objects && objects[x].event == o[x].event
  {
    assert ObjectRan(o[x], objects[x]);
  }

  lemma RanWasDone(were: map<nat, Object>, o: map<nat, Object>, objects: map<nat, Object>, events: seq<Event>, x: nat)
    requires Ran(were, o) && WasDone(o, objects, events, x)
    ensures WasDone(were, objects, events, x)
  {
    assert ObjectRan(were[x], o[x]);
  }

  /** Detached without being pooled, a dispatch is judged by its own signal again. */
  lemma Detached(were: map<nat, Object>, objects: map<nat, Object>, live: seq<nat>, evs: seq<Event>,
                 events: seq<Event>, x: nat)
    requires BorrowsOk(were, live, evs) && WasDone(were, objects, events, x) && objects[x].event.None?
    ensures Finished(objects, events, x) <==> were[x].event.None?
  {
  }

  lemma RanSlices(were: map<nat, Object>, o: map<nat, Object>, objects: map<nat, Object>)
    requires (Ran(were, o) && SameSlices(o, objects)) || (SameSlices(were, o) && Ran(o, objects))
    ensures SameSlices(were, objects)
  {
    if Ran(were, o) {
      forall i | i in were ensures o[i].slice == were[i].slice { assert ObjectRan(were[i], o[i]); }
    } else {
      forall i | i in o ensures objects[i].slice == o[i].slice { assert ObjectRan(o[i], objects[i]); }
    }
  }

  lemma StaysDone(were: map<nat, Object>, objects: map<nat, Object>, evs: seq<Event>, events: seq<Event>, x: nat)
    requires Ran(were, objects) && Fell(evs, events)
    ensures Finished(were, evs, x) ==> Finished(objects, events, x)
  {
    if x in were { assert ObjectRan(were[x], objects[x]); }
  }

  lemma HandElsewhere(objects: map<nat, Object>, hand: Option<nat>, x: nat)
    requires HandOk(objects, hand) && x in objects
    ensures HandOk(objects[x := objects[x].(event := None)], hand)
  {
  }

  lemma HandNew(objects: map<nat, Object>, x: nat)
    requires x in objects && objects[x].signal == 1 && objects[x].event.None?
    ensures HandOk(objects, Some(x))
  {
  }

  predicate Finished(objects: map<nat, Object>, events: seq<Event>, i: nat) {
    i in objects && Completed(objects[i], events)
  }

  lemma ReleaseFields(events: seq<Event>, deps: seq<nat>)
    ensures Fell(events, Release(events, deps)) && |Release(events, deps)| == |events|
    ensures forall e :: 0 <= e < |events| ==>
      Release(events, deps)[e].pending == events[e].pending && Release(events, deps)[e].signal == events[e].signal
  {
  }

  lemma FewerBarriers(barriers: seq<Barrier>, live: seq<nat>, events: seq<Event>, i: nat)
    requires BarriersOk(barriers, live, events) && i < |barriers|
    ensures BarriersOk(SwapRemove(barriers, i), live, events)
  {
  }

  /** Nobody's slice moves. */
  ghost predicate SlicesKept(objects: map<nat, Object>, objects': map<nat, Object>) {
    forall i :: i in objects ==> i in objects' && objects'[i].slice == objects[i].slice
  }

  lemma KeptSelf(objects: map<nat, Object>)
    ensures SlicesKept(objects, objects)
  {
  }

  lemma SameIsKept(objects: map<nat, Object>, objects': map<nat, Object>)
    requires SameSlices(objects, objects')
    ensures SlicesKept(objects, objects')
  {
  }

  lemma KeptUpdate(objects: map<nat, Object>, objects': map<nat, Object>, x: nat, o: Object)
    requires SlicesKept(objects, objects') && (x in objects' ==> objects'[x].slice == o.slice)
    ensures SlicesKept(objects, objects'[x := o])
  {
  }

  lemma SwapKeeps(bs: seq<Barrier>, i: nat)
    requires i < |bs|
    ensures forall b :: b in bs && b != bs[i] ==> b in SwapRemove(bs, i)
  {
    forall b | b in bs && b != bs[i] ensures b in SwapRemove(bs, i) {
      var k :| 0 <= k < |bs| && bs[k] == b;
      if k < |bs| - 1 {
        assert SwapRemove(bs, i)[k] == b;
      } else {
        assert SwapRemove(bs, i)[i] == b;
      }
    }
  }

  lemma SameDone(objects: map<nat, Object>, events: seq<Event>, deps: seq<nat>, i: nat)
    ensures Finished(objects, Release(events, deps), i) == Finished(objects, events, i)
  {
  }

  ghost predicate SameSlices(objects: map<nat, Object>, objects': map<nat, Object>) {
    objects'.Keys == objects.Keys && forall i :: i in objects ==> objects'[i].slice == objects[i].slice
  }

  lemma SlicesSelf(objects: map<nat, Object>)
    ensures SameSlices(objects, objects)
  {
  }

  lemma SlicesTwice(a: map<nat, Object>, b: map<nat, Object>, c: map<nat, Object>)
    requires SameSlices(a, b) && SameSlices(b, c)
    ensures SameSlices(a, c)
  {
  }

  /** Objects that kept their slices and borrow at most what they borrowed. */
  lemma SameObjects(arenas: seq<Arena>, objects: map<nat, Object>, objects': map<nat, Object>, live: seq<nat>,
                    available: seq<nat>, hand: Option<nat>, events: seq<Event>)
    requires objects'.Keys == objects.Keys
    requires forall i :: i in objects ==> Lighter(objects[i], objects'[i])
    requires SlicesOk(arenas, objects) && SizesOk(objects) && OwnedOk(objects, live, available, hand)
    requires BorrowsOk(objects, live, events)
    ensures SlicesOk(arenas, objects') && SizesOk(objects') && OwnedOk(objects', live, available, hand)
    ensures BorrowsOk(objects', live, events)
    ensures SameSlices(objects, objects')
  {
    hide Owners;
  }

  lemma SameCount(objects: map<nat, Object>, live: seq<nat>, barriers: seq<Barrier>, events: seq<Event>,
                  events': seq<Event>)
    requires BorrowsOk(objects, live, events) && BarriersOk(barriers, live, events) && |events'| == |events|
    ensures BorrowsOk(objects, live, events') && BarriersOk(barriers, live, events')
  {
  }

  lemma MoveOwners(objects: map<nat, Object>, live: seq<nat>, moved: seq<nat>, rest: seq<nat>, pool: seq<nat>,
                   hand: Option<nat>)
    requires OwnedOk(objects, live, pool, hand) && live == moved + rest
    ensures OwnedOk(objects, rest, pool + moved, hand)
  {
    PoolOwners(live, moved, rest, pool, hand);
  }

  lemma FewerLive(objects: map<nat, Object>, barriers: seq<Barrier>, live: seq<nat>, moved: seq<nat>,
                  rest: seq<nat>, events: seq<Event>)
    requires BorrowsOk(objects, live, events) && BarriersOk(barriers, live, events) && live == moved + rest
    requires forall x :: x in moved ==> x in objects && objects[x].event.None?
    requires forall x :: x in moved ==> forall k :: 0 <= k < |barriers| ==> barriers[k].retirement != x
    ensures BorrowsOk(objects, rest, events) && BarriersOk(barriers, rest, events)
  {
    forall b | b in barriers ensures b.retirement in rest {
      var k :| 0 <= k < |barriers| && barriers[k] == b;
      assert b.retirement in moved || b.retirement in rest;
    }
  }

  lemma TakeOwners(objects: map<nat, Object>, live: seq<nat>, available: seq<nat>, i: nat)
    requires OwnedOk(objects, live, available, None) && i < |available|
    ensures OwnedOk(objects, live, SwapRemove(available, i), Some(available[i]))
  {
    SwapBag(available, i);
    assert Owners(live, SwapRemove(available, i), Some(available[i])) == Owners(live, available, None);
  }

  lemma PooledBorrowsNothing(objects: map<nat, Object>, live: seq<nat>, events: seq<Event>, x: nat)
    requires BorrowsOk(objects, live, events) && x in objects && x !in live
    ensures objects[x].event.None?
  {
  }

  lemma NewObject(arenas: seq<Arena>, objects: map<nat, Object>, x: nat, slice: Slice, live: seq<nat>,
                  available: seq<nat>, barriers: seq<Barrier>, events: seq<Event>)
    requires SlicesOk(arenas, objects) && SizesOk(objects) && OwnedOk(objects, live, available, None)
    requires BorrowsOk(objects, live, events)
    requires x !in objects && Unowned(arenas, objects, slice) && (slice.Slice? ==> slice.size > 0)
    ensures var objects' := objects[x := Object(slice, None, 1, None)];
      SlicesOk(arenas, objects') && SizesOk(objects') && OwnedOk(objects', live, available, Some(x))
        && BorrowsOk(objects', live, events)
  {
    var objects' := objects[x := Object(slice, None, 1, None)];
    forall i: nat ensures Owners(live, available, Some(x))[i] == if i in objects' then 1 else 0 {
      assert Owners(live, available, Some(x)) == Owners(live, available, None) + multiset{x};
      assert Owners(live, available, None)[i] == if i in objects then 1 else 0;
    }
    forall i, j | i in objects' && j in objects' && i != j ensures Disjoint(objects'[i].slice, objects'[j].slice) {
      if i == x {
        assert Disjoint(objects[j].slice, slice);
      } else if j == x {
        assert Disjoint(objects[i].slice, slice);
      }
    }
  }

  lemma PoolOwners(live: seq<nat>, moved: seq<nat>, rest: seq<nat>, pool: seq<nat>, hand: Option<nat>)
    requires live == moved + rest
    ensures Owners(rest, pool + moved, hand) == Owners(live, pool, hand)
  {
  }

  // ----------------------------------------------------------- staging a submission

  function Listed(completion: Option<nat>): seq<nat> {
    if completion.Some? then [completion.value] else []
  }

  function Entries(cs: seq<seq<nat>>, x: nat): (r: seq<Barrier>)
    ensures |r| == |cs|
    ensures forall i :: 0 <= i < |cs| ==> r[i] == Barrier(x, cs[i])
  {
    seq(|cs|, i requires 0 <= i < |cs| => Barrier(x, cs[i]))
  }

  function Arm(events: seq<Event>, completion: Option<nat>, clock: nat): seq<Event> {
    if completion.Some? && completion.value < |events| then
      events[completion.value := events[completion.value].(
        signal := 1, pending := true, completed := false, startTick := 0, completionTick := 0,
        recordClock := clock, completionClock := 0, recorded := true)]
    else events
  }

  /** Restore the fields saved before staging; the signal is stored as zero. */
  function Disarm(events: seq<Event>, was: seq<Event>, completion: Option<nat>): seq<Event> {
    if completion.Some? && completion.value < |events| && completion.value < |was| then
      var saved := was[completion.value];
      events[completion.value := events[completion.value].(
        recorded := false, pending := false, completed := saved.completed, startTick := saved.startTick,
        completionTick := saved.completionTick, recordClock := saved.recordClock,
          completionClock := saved.completionClock, signal := 0)]
    else events
  }

  function Failed(events: seq<Event>, completion: Option<nat>): seq<Event> {
    if completion.Some? && completion.value < |events| then
      events[completion.value := events[completion.value].(signal := 0)]
    else events
  }

  /** The undo of a failed submission is exact if and only if there is no completion event
      or its signal was already zero. */
  lemma UndoExact(events: seq<Event>, completion: Option<nat>)
    requires completion.Some? ==> completion.value < |events|
    ensures Failed(events, completion) == events <==> (completion.None? || events[completion.value].signal == 0)
  {
    if completion.Some? && events[completion.value].signal != 0 {
      assert Failed(events, completion)[completion.value].signal == 0;
    }
  }

  lemma DisarmRetained(events: seq<Event>, deps: seq<nat>, completion: Option<nat>, clock: nat)
    requires completion.Some? ==>
      completion.value < |events| && completion.value !in deps && !events[completion.value].pending
        && !events[completion.value].recorded
    ensures Disarm(Arm(Retain(events, deps), completion, clock), events, completion)
      == Retain(Failed(events, completion), deps)
  {
    hide Retain;
    var left := Disarm(Arm(Retain(events, deps), completion, clock), events, completion);
    var right := Retain(Failed(events, completion), deps);
    forall e | 0 <= e < |events| ensures left[e] == right[e] {
      if completion == Some(e) { assert multiset(deps)[e] == 0; }
    }
  }

  /** Arming a retained event list changes flag and signal of the armed event only. */
  lemma ArmPending(events: seq<Event>, deps: seq<nat>, completion: Option<nat>, clock: nat)
    requires completion.Some? ==> completion.value < |events|
    ensures var r := Arm(Retain(events, deps), completion, clock);
      && |r| == |events| && (completion.Some? ==> r[completion.value].pending && r[completion.value].signal == 1)
      && forall e :: 0 <= e < |events| && Some(e) != completion ==>
           r[e].pending == events[e].pending && r[e].signal == events[e].signal
  {
    hide Retain;
  }

  method RegisterBarriers(bs: seq<Barrier>, events: seq<Event>, cs: seq<seq<nat>>, x: nat)
    returns (barriers: seq<Barrier>, retained: seq<Event>)
    ensures barriers == bs + Entries(cs, x) && retained == Retain(events, HsakmtOps.Flat(cs))
  {
    hide Retain, Entries;
    barriers, retained := bs, events;
    RetainNone(events);
    for index := 0 to |cs|
      invariant barriers == bs + Entries(cs[..index], x)
      invariant retained == Retain(events, HsakmtOps.Flat(cs[..index]))
    {
      RetainTwice(events, HsakmtOps.Flat(cs[..index]), cs[index]);
      assert cs[..index + 1][..index] == cs[..index];
      assert Entries(cs[..index + 1], x) == Entries(cs[..index], x) + [Barrier(x, cs[index])];
      retained := Retain(retained, cs[index]);
      barriers := barriers + [Barrier(x, cs[index])];
    }
    assert cs[..|cs|] == cs;
  }

  method UnregisterBarriers(barriers: seq<Barrier>, retained: seq<Event>, cs: seq<seq<nat>>, x: nat,
                            ghost was: seq<Barrier>, ghost before: seq<Event>)
    returns (bs: seq<Barrier>, events: seq<Event>)
    requires barriers == was + Entries(cs, x) && retained == Retain(before, HsakmtOps.Flat(cs))
    ensures bs == was && events == before
  {
    hide Retain, Release, Entries;
    bs, events := barriers, retained;
    var left := |cs|;
    assert cs[..|cs|] == cs;
    while left > 0
      invariant 0 <= left <= |cs|
      invariant bs == was + Entries(cs[..left], x)
      invariant events == Retain(before, HsakmtOps.Flat(cs[..left]))
    {
      assert cs[..left][..left - 1] == cs[..left - 1];
      assert Entries(cs[..left], x) == Entries(cs[..left - 1], x) + [Barrier(x, cs[left - 1])];
      ReleaseLast(before, HsakmtOps.Flat(cs[..left - 1]), cs[left - 1]);
      events := Release(events, bs[|bs| - 1].deps);
      bs := bs[..|bs| - 1];
      left := left - 1;
    }
    RetainNone(before);
  }

  lemma BackOwners(objects: map<nat, Object>, live: seq<nat>, available: seq<nat>, x: nat)
    requires OwnedOk(objects, live, available, Some(x))
    ensures OwnedOk(objects, live, available + [x], None)
  {
    assert Owners(live, available + [x], None) == Owners(live, available, Some(x));
  }

  lemma {:induction false} Queued(arenas: seq<Arena>, was: map<nat, Object>, objects: map<nat, Object>,
                                  live: seq<nat>, available: seq<nat>, x: nat,
               bs: seq<Barrier>, barriers: seq<Barrier>, before: seq<Event>, events: seq<Event>, deps: seq<nat>,
                 completion: Option<nat>)
    requires SlicesOk(arenas, was) && SizesOk(was) && OwnedOk(was, live, available, Some(x))
    requires BorrowsOk(was, live, before)
    requires x in was && was[x].signal == 1 && objects == was[x := was[x].(event := completion, target := completion)]
    requires BarriersOk(bs, live, before) && barriers == bs + Entries(HsakmtOps.Cut(deps), x)
    requires |events| == |before| && (forall e :: e in deps ==> e < |events|)
    requires completion.Some? ==> completion.value < |events|
    ensures SlicesOk(arenas, objects) && SizesOk(objects) && OwnedOk(objects, live + [x], available, None)
    ensures BorrowsOk(objects, live + [x], events) && BarriersOk(barriers, live + [x], events)
  {
    assert Owners(live + [x], available, None) == Owners(live, available, Some(x));
    forall b | b in barriers ensures b.retirement in live + [x] && forall e :: e in b.deps ==> e < |events| {
      if b !in bs {
        var cs := HsakmtOps.Cut(deps);
        var i :| 0 <= i < |Entries(cs, x)| && Entries(cs, x)[i] == b;
        forall e | e in cs[i] ensures e in deps { HsakmtOps.CutIn(deps, i, e); }
      }
    }
  }

  /** A submission that the ring accepted, with everything the queue keeps. */
  lemma {:induction false} Accepted(arenas: seq<Arena>, d: Device, live: seq<nat>, available: seq<nat>, x: nat,
                                    bs: seq<Barrier>, pe: seq<nat>, events': seq<Event>, deps: seq<nat>,
                                    completion: Option<nat>)
    requires SlicesOk(arenas, d.objects) && SizesOk(d.objects) && OwnedOk(d.objects, live, available, Some(x))
    requires BorrowsOk(d.objects, live, d.events) && BarriersOk(bs, live, d.events) && HandOk(d.objects, Some(x))
    requires DeviceOk(live, d) && ListedOk(pe, d.events)
    requires |events'| == |d.events| && (forall e :: e in deps ==> e < |events'|)
    requires completion.Some? ==>
      && completion.value < |events'| && !d.events[completion.value].pending
      && events'[completion.value].pending && events'[completion.value].signal == 1
    requires forall e :: 0 <= e < |events'| && Some(e) != completion ==>
      events'[e].pending == d.events[e].pending && events'[e].signal == d.events[e].signal
    ensures var objects' := d.objects[x := d.objects[x].(event := completion, target := completion)];
      var d' := Device(objects', d.finished, events');
      && SlicesOk(arenas, objects') && SizesOk(objects') && OwnedOk(objects', live + [x], available, None)
      && BorrowsOk(objects', live + [x], events')
        && BarriersOk(bs + Entries(HsakmtOps.Cut(deps), x), live + [x], events')
      && DeviceOk(live + [x], d') && ListedOk(pe + Listed(completion), events')
      && (TruthfulFrom(live, d, 0) ==>
            (TruthfulFrom(live + [x], d', 0) <==> completion.None? || !Borrowed(d.objects, completion.value)))
  {
    hide SlicesOk, SizesOk, OwnedOk, BorrowsOk, BarriersOk, DeviceOk, ListedOk, TruthfulFrom, Borrowed, Entries,
      HsakmtOps.Cut;
    var objects' := d.objects[x := d.objects[x].(event := completion, target := completion)];
    OwnedIn(d.objects, live, available, Some(x));
    Queued(arenas, d.objects, objects', live, available, x, bs, bs + Entries(HsakmtOps.Cut(deps), x), d.events,
           events', deps,
           completion);
    QueuedDevice(live, d, x, completion, events');
    QueuedTruth(live, d, x, completion, events');
    QueuedListed(pe, d.events, events', completion);
  }

  /** A submission that was taken back. */
  lemma Refused(d: Device, live: seq<nat>, available: seq<nat>, x: nat, bs: seq<Barrier>, pe: seq<nat>,
                completion: Option<nat>)
    requires OwnedOk(d.objects, live, available, Some(x)) && BorrowsOk(d.objects, live, d.events)
    requires BarriersOk(bs, live, d.events) && DeviceOk(live, d) && ListedOk(pe, d.events)
    requires completion.Some? ==> completion.value < |d.events| && !d.events[completion.value].pending
    ensures var events' := Failed(d.events, completion);
      && OwnedOk(d.objects, live, available + [x], None) && BorrowsOk(d.objects, live, events')
      && BarriersOk(bs, live, events') && DeviceOk(live, d.(events := events')) && ListedOk(pe, events')
  {
    hide OwnedOk, BorrowsOk, BarriersOk, DeviceOk, ListedOk;
    SameCount(d.objects, live, bs, d.events, Failed(d.events, completion));
    OtherEvents(live, d, Failed(d.events, completion));
    FailedListed(pe, d.events, completion);
    BackOwners(d.objects, live, available, x);
  }
}
