/** Allocations, the copies that use them, and `lr_free` / `lr_free_host`. Synchronous
    copies pin what they touch; asynchronous copies only name it; a free marks the
    allocation, waits for the pins, waits for the device and then releases. */
module MemoryPins {
  import opened Common

  /** Device and host allocations live in two tables with the same fields. */
  datatype Key = DeviceKey(address: nat) | HostKey(address: nat)

  datatype Allocation = Allocation(device: nat, size: nat, pins: nat, destroying: bool)

  type Table = map<Key, Allocation>

  /** An asynchronous copy from its submission until the device is done with it. */
  datatype AsyncCopy = AsyncCopy(device: nat, keys: set<Key>)

  /** A call of `lr_free` after it has marked its allocation; `before` holds the
      asynchronous copies the device synchronization must see finished. */
  datatype Free = Waiting(key: Key) | Synchronizing(key: Key, before: set<nat>)

  /** `copies` holds the pin list of every synchronous copy in progress, `issued` numbers
      the asynchronous ones. */
  datatype State = State(table: Table, copies: seq<seq<Key>>, pending: map<nat, AsyncCopy>, frees: map<nat, Free>,
                         issued: nat)

  function Initial(): State {
    State(map[], [], map[], map[], 0)
  }

  // ------------------------------------------------------------- pins

  function Count(keys: seq<Key>, k: Key): nat {
    if keys == [] then 0 else (if keys[0] == k then 1 else 0) + Count(keys[1..], k)
  }

  function TotalPins(copies: seq<seq<Key>>, k: Key): nat {
    if copies == [] then 0 else Count(copies[0], k) + TotalPins(copies[1..], k)
  }

  function PinOne(t: Table, k: Key): Table {
    if k in t then t[k := t[k].(pins := t[k].pins + 1)] else t
  }

  function UnpinOne(t: Table, k: Key): Table {
    if k in t && t[k].pins > 0 then t[k := t[k].(pins := t[k].pins - 1)] else t
  }

  function PinAll(t: Table, keys: seq<Key>): Table
    decreases |keys|
  {
    if keys == [] then t else PinOne(PinAll(t, keys[..|keys| - 1]), keys[|keys| - 1])
  }

  function UnpinAll(t: Table, keys: seq<Key>): Table
    decreases |keys|
  {
    if keys == [] then t else UnpinAll(UnpinOne(t, keys[0]), keys[1..])
  }

  lemma {:induction false} CountLast(keys: seq<Key>, last: Key, k: Key)
    ensures Count(keys + [last], k) == Count(keys, k) + if last == k then 1 else 0
  {
    if keys == [] {
      assert keys + [last] == [last];
      assert Count([last], k) == (if last == k then 1 else 0) + Count([last][1..], k);
    } else {
      assert (keys + [last])[1..] == keys[1..] + [last];
      CountLast(keys[1..], last, k);
    }
  }

  lemma {:induction false} CountPositive(keys: seq<Key>, k: Key)
    ensures Count(keys, k) > 0 <==> k in keys
  {
    if keys != [] {
      CountPositive(keys[1..], k);
    }
  }

  lemma {:induction false} TotalLast(copies: seq<seq<Key>>, keys: seq<Key>, k: Key)
    ensures TotalPins(copies + [keys], k) == TotalPins(copies, k) + Count(keys, k)
  {
    if copies == [] {
      assert copies + [keys] == [keys];
      assert TotalPins([keys], k) == Count(keys, k) + TotalPins([keys][1..], k);
    } else {
      assert (copies + [keys])[1..] == copies[1..] + [keys];
      TotalLast(copies[1..], keys, k);
    }
  }

  lemma {:induction false} TotalWithout(copies: seq<seq<Key>>, i: nat, k: Key)
    requires i < |copies|
    ensures TotalPins(copies[..i] + copies[i + 1..], k) + Count(copies[i], k) == TotalPins(copies, k)
  {
    if i == 0 {
      assert copies[..i] + copies[i + 1..] == copies[1..];
    } else {
      assert (copies[..i] + copies[i + 1..])[1..] == copies[1..][..i - 1] + copies[1..][i..];
      TotalWithout(copies[1..], i - 1, k);
    }
  }

  /** Only pin counts differ, each by the number of times its key is listed. */
  predicate PinsMoved(t: Table, u: Table, keys: seq<Key>) {
    && u.Keys == t.Keys
    && forall k :: k in t ==> u[k] == t[k].(pins := t[k].pins + Count(keys, k))
  }

  lemma {:induction false} PinAllMoves(t: Table, keys: seq<Key>)
    ensures PinsMoved(t, PinAll(t, keys), keys)
    decreases |keys|
  {
    if keys != [] {
      var n := |keys| - 1;
      PinAllMoves(t, keys[..n]);
      assert keys == keys[..n] + [keys[n]];
      forall k | k in t ensures PinAll(t, keys)[k] == t[k].(pins := t[k].pins + Count(keys, k)) {
        CountLast(keys[..n], keys[n], k);
      }
    }
  }

  /** Dropping the pins of a list that is fully counted takes exactly those pins away. */
  lemma {:induction false} UnpinAllMoves(t: Table, keys: seq<Key>)
    requires forall k :: k in t ==> t[k].pins >= Count(keys, k)
    ensures PinsMoved(UnpinAll(t, keys), t, keys)
    decreases |keys|
  {
    if keys != [] {
      var u := UnpinOne(t, keys[0]);
      forall k | k in u ensures u[k].pins >= Count(keys[1..], k) {
        assert t[k].pins >= Count(keys, k);
      }
      UnpinAllMoves(u, keys[1..]);
    }
  }

  lemma {:induction false} UnpinUndoesPin(t: Table, keys: seq<Key>)
    ensures UnpinAll(PinAll(t, keys), keys) == t
  {
    PinAllMoves(t, keys);
    var u := PinAll(t, keys);
    UnpinAllMoves(u, keys);
    var v := UnpinAll(u, keys);
    assert v.Keys == t.Keys;
    forall k | k in t ensures v[k] == t[k] {
      assert u[k] == v[k].(pins := v[k].pins + Count(keys, k));
    }
  }

  // ------------------------------------------------------------- steps

  datatype Step =
    | Allocate(key: Key, device: nat, size: nat)
    | BeginCopy(device: nat, keys: seq<Key>)
    | EndCopy(index: nat)
    | BeginAsync(device: nat, named: set<Key>)
    | FinishAsync(id: nat)
    | BeginFree(thread: nat, key: Key, device: nat)
    | Synchronize(thread: nat)
    | FailFree(thread: nat)
    | Release(thread: nat)

  /** What a pointer lookup accepts. */
  predicate Usable(t: Table, k: Key, device: nat) {
    k in t && !t[k].destroying && t[k].device == device
  }

  predicate SameKind(a: Key, b: Key) {
    a.DeviceKey? == b.DeviceKey?
  }

  predicate RangesApart(a: Key, s: nat, b: Key, t: nat) {
    a.address + s <= b.address || b.address + t <= a.address
  }

  /** The memory allocator hands out non-empty ranges that nobody holds. */
  predicate FreshRange(t: Table, key: Key, size: nat) {
    && size > 0 && key !in t
    && forall k :: k in t && SameKind(k, key) ==> RangesApart(k, t[k].size, key, size)
  }

  function PendingOn(s: State, device: nat): set<nat> {
    set id | id in s.pending && s.pending[id].device == device
  }

  predicate Can(s: State, step: Step) {
    match step
    case Allocate(key, _, size) => FreshRange(s.table, key, size)
    case BeginCopy(device, keys) => forall k :: k in keys ==> Usable(s.table, k, device)
    case EndCopy(index) => index < |s.copies|
    case BeginAsync(device, named) => forall k :: k in named ==> Usable(s.table, k, device)
    case FinishAsync(id) => id in s.pending
    case BeginFree(thread, key, device) => thread !in s.frees && Usable(s.table, key, device)
    case Synchronize(thread) =>
      && thread in s.frees && s.frees[thread].Waiting?
      && s.frees[thread].key in s.table && s.table[s.frees[thread].key].pins == 0
    case FailFree(thread) => thread in s.frees && s.frees[thread].Synchronizing? && s.frees[thread].key in s.table
    case Release(thread) =>
      && thread in s.frees && s.frees[thread].Synchronizing? && s.frees[thread].key in s.table
      && forall id :: id in s.frees[thread].before ==> id !in s.pending
  }

  function Mark(t: Table, k: Key, destroying: bool): Table
    requires k in t
  {
    t[k := t[k].(destroying := destroying)]
  }

  function Do(s: State, step: Step): State
    requires Can(s, step)
  {
    match step
    case Allocate(key, device, size) => s.(table := s.table[key := Allocation(device, size, 0, false)])
    case BeginCopy(_, keys) => s.(table := PinAll(s.table, keys), copies := s.copies + [keys])
    case EndCopy(index) =>
      s.(table := UnpinAll(s.table, s.copies[index]), copies := s.copies[..index] + s.copies[index + 1..])
    case BeginAsync(device, named) =>
      s.(pending := s.pending[s.issued := AsyncCopy(device, named)], issued := s.issued + 1)
    case FinishAsync(id) => s.(pending := s.pending - {id})
    case BeginFree(thread, key, _) =>
      s.(table := Mark(s.table, key, true), frees := s.frees[thread := Waiting(key)])
    case Synchronize(thread) =>
      var key := s.frees[thread].key;
      s.(frees := s.frees[thread := Synchronizing(key, PendingOn(s, s.table[key].device))])
    case FailFree(thread) =>
      s.(table := Mark(s.table, s.frees[thread].key, false), frees := s.frees - {thread})
    case Release(thread) =>
      s.(table := s.table - {s.frees[thread].key}, frees := s.frees - {thread})
  }

  // ------------------------------------------------------------- invariant

  predicate CountsOk(t: Table, copies: seq<seq<Key>>) {
    forall k :: k in t ==> t[k].pins == TotalPins(copies, k)
  }

  predicate CopiesOk(t: Table, copies: seq<seq<Key>>) {
    forall i, k :: 0 <= i < |copies| && k in copies[i] ==> k in t
  }

  predicate PendingOk(t: Table, pending: map<nat, AsyncCopy>, issued: nat) {
    && (forall id, k :: id in pending && k in pending[id].keys ==> k in t && t[k].device == pending[id].device)
    && (forall id :: id in pending ==> id < issued)
  }

  predicate FreesOk(t: Table, frees: map<nat, Free>) {
    && (forall thread :: thread in frees ==> frees[thread].key in t && t[frees[thread].key].destroying)
    && (forall a, b :: a in frees && b in frees && frees[a].key == frees[b].key ==> a == b)
  }

  /** A mark always has its free call, so nobody else clears it. */
  predicate MarksOk(t: Table, frees: map<nat, Free>) {
    forall k :: k in t && t[k].destroying ==> exists thread :: thread in frees && frees[thread].key == k
  }

  predicate SynchronizingOk(s: State) {
    forall thread :: thread in s.frees && s.frees[thread].Synchronizing? && s.frees[thread].key in s.table ==>
      && s.table[s.frees[thread].key].pins == 0
      && forall id :: id in s.pending && s.frees[thread].key in s.pending[id].keys ==> id in s.frees[thread].before
  }

  predicate RangesOk(t: Table) {
    && (forall k :: k in t ==> t[k].size > 0)
    && forall a, b :: a in t && b in t && a != b && SameKind(a, b) ==> RangesApart(a, t[a].size, b, t[b].size)
  }

  predicate Inv(s: State) {
    && CountsOk(s.table, s.copies)
    && CopiesOk(s.table, s.copies)
    && PendingOk(s.table, s.pending, s.issued)
    && FreesOk(s.table, s.frees)
    && MarksOk(s.table, s.frees)
    && SynchronizingOk(s)
    && RangesOk(s.table)
  }

  lemma {:induction false} NobodyPins(copies: seq<seq<Key>>, k: Key)
    requires forall i :: 0 <= i < |copies| ==> k !in copies[i]
    ensures TotalPins(copies, k) == 0
  {
    if copies != [] {
      CountPositive(copies[0], k);
      NobodyPins(copies[1..], k);
    }
  }

  lemma {:induction false} NoPinsNobody(copies: seq<seq<Key>>, k: Key, i: nat)
    requires TotalPins(copies, k) == 0 && i < |copies|
    ensures k !in copies[i]
  {
    if i == 0 {
      CountPositive(copies[0], k);
    } else {
      NoPinsNobody(copies[1..], k, i - 1);
    }
  }

  lemma KeepAllocate(s: State, key: Key, device: nat, size: nat)
    requires Inv(s) && Can(s, Allocate(key, device, size))
    ensures Inv(Do(s, Allocate(key, device, size)))
  {
    NobodyPins(s.copies, key);
  }

  lemma KeepBeginCopy(s: State, device: nat, keys: seq<Key>)
    requires Inv(s) && Can(s, BeginCopy(device, keys))
    ensures Inv(Do(s, BeginCopy(device, keys)))
  {
    var r := Do(s, BeginCopy(device, keys));
    PinAllMoves(s.table, keys);
    forall k | k in r.table ensures r.table[k].pins == TotalPins(r.copies, k) {
      TotalLast(s.copies, keys, k);
    }
    forall k | k in s.table && s.table[k].destroying ensures Count(keys, k) == 0 {
      CountPositive(keys, k);
    }
    assert forall k :: k in r.table ==> r.table[k] == s.table[k].(pins := r.table[k].pins);
  }

  lemma KeepEndCopy(s: State, index: nat)
    requires Inv(s) && Can(s, EndCopy(index))
    ensures Inv(Do(s, EndCopy(index)))
  {
    var r := Do(s, EndCopy(index));
    forall k ensures TotalPins(r.copies, k) + Count(s.copies[index], k) == TotalPins(s.copies, k) {
      TotalWithout(s.copies, index, k);
    }
    UnpinAllMoves(s.table, s.copies[index]);
    assert forall k :: k in r.table ==> s.table[k] == r.table[k].(pins := r.table[k].pins + Count(s.copies[index], k));
    forall i, k | 0 <= i < |r.copies| && k in r.copies[i] ensures k in r.table {
      assert r.copies[i] == s.copies[if i < index then i else i + 1];
    }
  }

  lemma KeepBeginFree(s: State, thread: nat, key: Key, device: nat)
    requires Inv(s) && Can(s, BeginFree(thread, key, device))
    ensures Inv(Do(s, BeginFree(thread, key, device)))
  {
    hide TotalPins, Count;
    var r := Do(s, BeginFree(thread, key, device));
    forall k | k in r.table && r.table[k].destroying
      ensures exists t :: t in r.frees && r.frees[t].key == k
    {
      if k == key {
        assert r.frees[thread].key == k;
      } else {
        var t :| t in s.frees && s.frees[t].key == k;
        assert r.frees[t].key == k;
      }
    }
  }

  lemma KeepSynchronize(s: State, thread: nat)
    requires Inv(s) && Can(s, Synchronize(thread))
    ensures Inv(Do(s, Synchronize(thread)))
  {
    var r := Do(s, Synchronize(thread));
    forall k | k in r.table && r.table[k].destroying
      ensures exists t :: t in r.frees && r.frees[t].key == k
    {
      var t :| t in s.frees && s.frees[t].key == k;
      assert r.frees[t].key == k;
    }
  }

  /** Ending a free, either way, leaves every other mark with its call. */
  lemma KeepMarks(s: State, r: State, thread: nat)
    requires MarksOk(s.table, s.frees) && thread in s.frees && r.frees == s.frees - {thread}
    requires forall k :: k in r.table && r.table[k].destroying ==>
      k in s.table && s.table[k].destroying && k != s.frees[thread].key
    ensures MarksOk(r.table, r.frees)
  {
    forall k | k in r.table && r.table[k].destroying
      ensures exists t :: t in r.frees && r.frees[t].key == k
    {
      var t :| t in s.frees && s.frees[t].key == k;
      assert r.frees[t].key == k;
    }
  }

  lemma KeepFailFree(s: State, thread: nat)
    requires Inv(s) && Can(s, FailFree(thread))
    ensures Inv(Do(s, FailFree(thread)))
  {
    KeepMarks(s, Do(s, FailFree(thread)), thread);
  }

  lemma KeepRelease(s: State, thread: nat)
    requires Inv(s) && Can(s, Release(thread))
    ensures Inv(Do(s, Release(thread)))
  {
    ReleaseUnused(s, thread);
    KeepMarks(s, Do(s, Release(thread)), thread);
  }

  lemma KeepStep(s: State, step: Step)
    requires Inv(s) && Can(s, step)
    ensures Inv(Do(s, step))
  {
    match step
    case Allocate(key, device, size) => KeepAllocate(s, key, device, size);
    case BeginCopy(device, keys) => KeepBeginCopy(s, device, keys);
    case EndCopy(index) => KeepEndCopy(s, index);
    case BeginAsync(device, named) =>
    case FinishAsync(id) =>
    case BeginFree(thread, key, device) => KeepBeginFree(s, thread, key, device);
    case Synchronize(thread) => KeepSynchronize(s, thread);
    case FailFree(thread) => KeepFailFree(s, thread);
    case Release(thread) => KeepRelease(s, thread);
  }

  /** No copy in progress pins the allocation and no unfinished asynchronous copy names it. */
  predicate Unused(s: State, k: Key) {
    && (forall i :: 0 <= i < |s.copies| ==> k !in s.copies[i])
    && (forall id :: id in s.pending ==> k !in s.pending[id].keys)
  }

  lemma ReleaseUnused(s: State, thread: nat)
    requires Inv(s) && Can(s, Release(thread))
    ensures Unused(s, s.frees[thread].key)
  {
    var k := s.frees[thread].key;
    forall i | 0 <= i < |s.copies| ensures k !in s.copies[i] {
      NoPinsNobody(s.copies, k, i);
    }
  }

  // ------------------------------------------------------------- runs

  predicate CanRun(s: State, steps: seq<Step>)
    decreases |steps|
  {
    steps == [] || (Can(s, steps[0]) && CanRun(Do(s, steps[0]), steps[1..]))
  }

  function Run(s: State, steps: seq<Step>): State
    requires CanRun(s, steps)
    decreases |steps|
  {
    if steps == [] then s else Run(Do(s, steps[0]), steps[1..])
  }

  lemma {:induction false} RunKeeps(s: State, steps: seq<Step>)
    requires Inv(s) && CanRun(s, steps)
    ensures Inv(Run(s, steps))
    decreases |steps|
  {
    if steps != [] {
      KeepStep(s, steps[0]);
      RunKeeps(Do(s, steps[0]), steps[1..]);
    }
  }

  /** In every run, a free that releases its allocation finds it unpinned and named by no
      unfinished copy; and whatever is pinned or named at any time is still allocated. */
  lemma {:induction false} ReleaseSafe(steps: seq<Step>, thread: nat)
    requires CanRun(Initial(), steps)
    ensures var s := Run(Initial(), steps);
            && (Can(s, Release(thread)) ==> Unused(s, s.frees[thread].key))
            && (forall i, k :: 0 <= i < |s.copies| && k in s.copies[i] ==> k in s.table)
            && (forall id, k :: id in s.pending && k in s.pending[id].keys ==> k in s.table)
  {
    RunKeeps(Initial(), steps);
    var s := Run(Initial(), steps);
    if Can(s, Release(thread)) {
      ReleaseUnused(s, thread);
    }
  }

  // ------------------------------------------------------------- what a copy was given

  /** The same allocation: neither released nor allocated anew in between. */
  predicate SameAllocation(t: Table, u: Table, k: Key) {
    k in t && k in u && u[k].device == t[k].device && u[k].size == t[k].size
  }

  lemma PinsKeep(t: Table, keys: seq<Key>, k: Key)
    requires k in t
    ensures SameAllocation(t, PinAll(t, keys), k)
  {
    PinAllMoves(t, keys);
  }

  lemma {:induction false} UnpinsKeep(t: Table, keys: seq<Key>, k: Key)
    requires k in t
    ensures SameAllocation(t, UnpinAll(t, keys), k)
    decreases |keys|
  {
    if keys != [] { UnpinsKeep(UnpinOne(t, keys[0]), keys[1..], k); }
  }

  lemma StepKeepsAllocation(s: State, step: Step, k: Key)
    requires Can(s, step) && k in s.table && !(step.Release? && s.frees[step.thread].key == k)
    ensures SameAllocation(s.table, Do(s, step).table, k)
  {
    match step
    case BeginCopy(_, keys) => PinsKeep(s.table, keys, k);
    case EndCopy(index) => UnpinsKeep(s.table, s.copies[index], k);
    case _ =>
  }

  /** Where the copy at position `i` stands after the steps, unless it ended. */
  function Place(i: nat, steps: seq<Step>): Option<nat> {
    if steps == [] then Some(i)
    else if !steps[0].EndCopy? || steps[0].index > i then Place(i, steps[1..])
    else if steps[0].index == i then None
    else Place(i - 1, steps[1..])
  }

  lemma {:induction false} CopyHeld(s: State, i: nat, steps: seq<Step>, k: Key)
    requires Inv(s) && CanRun(s, steps) && i < |s.copies| && k in s.copies[i] && Place(i, steps).Some?
    ensures SameAllocation(s.table, Run(s, steps).table, k)
    decreases |steps|
  {
    hide Inv, Can, Do;
    if steps == [] {
      CopyAllocated(s, i, k);
    } else {
      var step := steps[0];
      KeepStep(s, step);
      CopyStep(s, i, step, k);
      CopyHeld(Do(s, step), if step.EndCopy? && step.index < i then i - 1 else i, steps[1..], k);
    }
  }

  lemma CopyAllocated(s: State, i: nat, k: Key)
    requires Inv(s) && i < |s.copies| && k in s.copies[i]
    ensures k in s.table
  {
  }

  lemma CopyStep(s: State, i: nat, step: Step, k: Key)
    requires Inv(s) && Can(s, step) && i < |s.copies| && k in s.copies[i] && step != EndCopy(i)
    ensures var j := if step.EndCopy? && step.index < i then i - 1 else i;
            0 <= j < |Do(s, step).copies| && k in Do(s, step).copies[j]
    ensures SameAllocation(s.table, Do(s, step).table, k)
  {
    hide Inv;
    CopyAllocated(s, i, k);
    if step.Release? { ReleaseUnused(s, step.thread); }
    StepKeepsAllocation(s, step, k);
  }

  /** Everything a synchronous copy was given to pin stays allocated until that copy ends,
      whatever frees and other copies do. */
  lemma {:induction false} CopyKeepsMemory(before: seq<Step>, device: nat, keys: seq<Key>, after: seq<Step>, k: Key)
    requires CanRun(Initial(), before) && Can(Run(Initial(), before), BeginCopy(device, keys)) && k in keys
    requires CanRun(Do(Run(Initial(), before), BeginCopy(device, keys)), after)
    requires Place(|Run(Initial(), before).copies|, after).Some?
    ensures var s := Run(Initial(), before);
            SameAllocation(s.table, Run(Do(s, BeginCopy(device, keys)), after).table, k)
  {
    hide Inv, CanRun, Run;
    RunKeeps(Initial(), before) by { InitialInv(); }
    var s := Run(Initial(), before);
    KeepStep(s, BeginCopy(device, keys));
    PinsKeep(s.table, keys, k);
    CopyHeld(Do(s, BeginCopy(device, keys)), |s.copies|, after, k);
  }

  lemma InitialInv()
    ensures Inv(Initial())
  {
  }

  lemma AsyncAllocated(s: State, id: nat, k: Key)
    requires Inv(s) && id in s.pending && k in s.pending[id].keys
    ensures k in s.table
  {
  }

  lemma AsyncStep(s: State, id: nat, step: Step, k: Key)
    requires Inv(s) && Can(s, step) && id in s.pending && k in s.pending[id].keys && step != FinishAsync(id)
    ensures id in Do(s, step).pending && k in Do(s, step).pending[id].keys
    ensures SameAllocation(s.table, Do(s, step).table, k)
  {
    hide CountsOk, CopiesOk, FreesOk, MarksOk, SynchronizingOk, RangesOk;
    AsyncAllocated(s, id, k);
    if step.Release? { ReleaseUnused(s, step.thread); }
    StepKeepsAllocation(s, step, k);
  }

  lemma {:induction false} AsyncHeld(s: State, id: nat, steps: seq<Step>, k: Key)
    requires Inv(s) && CanRun(s, steps) && id in s.pending && k in s.pending[id].keys && FinishAsync(id) !in steps
    ensures SameAllocation(s.table, Run(s, steps).table, k)
    decreases |steps|
  {
    hide Inv, Can, Do;
    if steps == [] {
      AsyncAllocated(s, id, k);
    } else {
      KeepStep(s, steps[0]);
      AsyncStep(s, id, steps[0], k);
      AsyncHeld(Do(s, steps[0]), id, steps[1..], k);
    }
  }

  /** Everything an asynchronous copy names stays allocated until the device is done with
      that copy, although it pins nothing. */
  lemma {:induction false} AsyncKeepsMemory(before: seq<Step>, device: nat, named: set<Key>, after: seq<Step>, k: Key)
    requires CanRun(Initial(), before) && Can(Run(Initial(), before), BeginAsync(device, named)) && k in named
    requires CanRun(Do(Run(Initial(), before), BeginAsync(device, named)), after)
    requires FinishAsync(Run(Initial(), before).issued) !in after
    ensures var s := Run(Initial(), before);
            SameAllocation(s.table, Run(Do(s, BeginAsync(device, named)), after).table, k)
  {
    hide Inv, CanRun, Run;
    RunKeeps(Initial(), before) by { InitialInv(); }
    var s := Run(Initial(), before);
    KeepStep(s, BeginAsync(device, named));
    AsyncHeld(Do(s, BeginAsync(device, named)), s.issued, after, k);
  }

  /** The marked allocation is still there when the free wakes up: the lookup after the
      wait cannot fail, and only one call frees an allocation at a time. */
  lemma {:induction false} MarkedStays(steps: seq<Step>, thread: nat, other: nat)
    requires CanRun(Initial(), steps)
    requires thread in Run(Initial(), steps).frees
    ensures var s := Run(Initial(), steps);
            && s.frees[thread].key in s.table
            && s.table[s.frees[thread].key].destroying
            && (other in s.frees && s.frees[other].key == s.frees[thread].key ==> other == thread)
  {
    RunKeeps(Initial(), steps);
  }

  predicate Marked(s: State, k: Key) {
    k in s.table && s.table[k].destroying
  }

  /** The mark on `k` is not taken back (failed free) nor used up (release) on the way. */
  predicate MarkedThroughout(s: State, steps: seq<Step>, k: Key)
    requires CanRun(s, steps)
    decreases |steps|
  {
    Marked(s, k) && (steps != [] ==> MarkedThroughout(Do(s, steps[0]), steps[1..], k))
  }

  /** The copies of `r` that use `k` were already there in `s`. */
  predicate NoNewUse(s: State, r: State, k: Key) {
    && TotalPins(r.copies, k) <= TotalPins(s.copies, k)
    && forall id :: id in r.pending && k in r.pending[id].keys ==> id in s.pending && k in s.pending[id].keys
  }

  lemma StepNoNewUse(s: State, step: Step, k: Key)
    requires Can(s, step) && Marked(s, k)
    ensures NoNewUse(s, Do(s, step), k)
  {
    match step
    case BeginCopy(_, keys) =>
      TotalLast(s.copies, keys, k);
      CountPositive(keys, k);
    case EndCopy(index) => TotalWithout(s.copies, index, k);
    case _ =>
  }

  /** However long the free waits, a marked allocation gains no copy. */
  lemma {:induction false} MarkedGainsNothing(s: State, steps: seq<Step>, k: Key)
    requires CanRun(s, steps) && MarkedThroughout(s, steps, k)
    ensures NoNewUse(s, Run(s, steps), k)
    decreases |steps|
  {
    if steps != [] {
      StepNoNewUse(s, steps[0], k);
      MarkedGainsNothing(Do(s, steps[0]), steps[1..], k);
    }
  }

  /** A mark disappears only when its own free fails or releases. */
  lemma MarkEnds(s: State, step: Step, k: Key)
    requires Inv(s) && Can(s, step) && Marked(s, k) && !Marked(Do(s, step), k)
    ensures exists thread ::
      thread in s.frees && s.frees[thread].key == k && (step == FailFree(thread) || step == Release(thread))
  {
    match step
    case BeginCopy(_, keys) => PinAllMoves(s.table, keys);
    case EndCopy(index) =>
      forall j ensures TotalPins(s.copies, j) >= Count(s.copies[index], j) {
        TotalWithout(s.copies, index, j);
      }
      UnpinAllMoves(s.table, s.copies[index]);
    case FailFree(thread) => assert s.frees[thread].key == k;
    case Release(thread) => assert s.frees[thread].key == k;
    case _ =>
  }

  // ------------------------------------------------------------- pointer lookups

  datatype HostLookup = Unregistered | Valid(key: Key) | Invalid

  /** `find_allocation_base` accepts this entry. */
  predicate Holds(k: Key, a: Allocation, address: nat, size: nat, device: nat) {
    && k.DeviceKey? && a.device == device && !a.destroying
    && k.address <= address && address - k.address <= a.size && size <= a.size - (address - k.address)
  }

  /** The address lies in this host allocation. */
  predicate Covers(k: Key, a: Allocation, address: nat) {
    k.HostKey? && k.address <= address && address - k.address < a.size
  }

  /** The byte belongs to the allocation. */
  predicate HasByte(k: Key, a: Allocation, b: nat) {
    k.address <= b < k.address + a.size
  }

  /** Every byte of the range belongs to the allocation. */
  ghost predicate HasBytes(k: Key, a: Allocation, address: nat, size: nat) {
    forall b :: address <= b < address + size ==> HasByte(k, a, b)
  }

  /** The offset arithmetic of the device lookup, by bytes. */
  lemma HoldsBytes(t: Table, k: Key, address: nat, size: nat, device: nat)
    requires k in t && size > 0
    ensures Holds(k, t[k], address, size, device) <==>
      k.DeviceKey? && Usable(t, k, device) && HasBytes(k, t[k], address, size)
  {
    var last: nat := address + size - 1;
    assert HasBytes(k, t[k], address, size) ==> HasByte(k, t[k], address) && HasByte(k, t[k], last);
  }

  /** The offset arithmetic of the host lookup, by bytes. */
  lemma CoversBytes(k: Key, a: Allocation, address: nat, size: nat)
    ensures Covers(k, a, address) <==> k.HostKey? && HasByte(k, a, address)
    ensures Covers(k, a, address) ==> (size <= a.size - (address - k.address) <==> HasBytes(k, a, address, size))
  {
    if size > 0 {
      var last: nat := address + size - 1;
      assert HasBytes(k, a, address, size) ==> HasByte(k, a, last);
    }
  }

  /** A range belongs to at most one allocation, so the order in which the table is walked
      does not matter. */
  lemma OneHolder(t: Table, a: Key, b: Key, address: nat, size: nat, device: nat)
    requires RangesOk(t) && a in t && b in t && size > 0
    requires Holds(a, t[a], address, size, device) && Holds(b, t[b], address, size, device)
    ensures a == b
  {
  }

  lemma OneCover(t: Table, a: Key, b: Key, address: nat)
    requires RangesOk(t) && a in t && b in t && Covers(a, t[a], address) && Covers(b, t[b], address)
    ensures a == b
  {
  }

  method FindBase(t: Table, address: nat, size: nat, device: nat) returns (r: Option<Key>)
    requires RangesOk(t)
    ensures r.Some? ==> r.value in t && Holds(r.value, t[r.value], address, size, device)
    ensures r.None? <==> address == 0 || size == 0 || forall k :: k in t ==> !Holds(k, t[k], address, size, device)
    ensures forall k :: r == Some(k) <==>
      address != 0 && size != 0 && k in t && k.DeviceKey? && Usable(t, k, device) && HasBytes(k, t[k], address, size)
  {
    if address == 0 || size == 0 {
      return None;
    }
    forall k | k in t
      ensures Holds(k, t[k], address, size, device) <==>
        k.DeviceKey? && Usable(t, k, device) && HasBytes(k, t[k], address, size)
    {
      HoldsBytes(t, k, address, size, device);
    }
    forall k, j | k in t && j in t && Holds(k, t[k], address, size, device) && Holds(j, t[j], address, size, device)
      ensures k == j
    {
      OneHolder(t, k, j, address, size, device);
    }
    var rest := t.Keys;
    while rest != {}
      invariant rest <= t.Keys
      invariant forall k :: k in t && k !in rest ==> !Holds(k, t[k], address, size, device)
      decreases |rest|
    {
      var k :| k in rest;
      rest := rest - {k};
      if !k.DeviceKey? || t[k].device != device || t[k].destroying || address < k.address {
        continue;
      }
      var offset := address - k.address;
      if offset <= t[k].size && size <= t[k].size - offset {
        return Some(k);
      }
    }
    return None;
  }

  /** The first entry around the address decides; there is only one. */
  method TranslateHost(t: Table, address: nat, size: nat, device: nat) returns (r: HostLookup)
    requires RangesOk(t)
    ensures r.Unregistered? <==> forall k :: k in t ==> !Covers(k, t[k], address)
    ensures forall k :: k in t && Covers(k, t[k], address) ==>
      r == if Usable(t, k, device) && size <= t[k].size - (address - k.address) then Valid(k) else Invalid
    ensures r.Unregistered? <==> forall k :: k in t && k.HostKey? ==> !HasByte(k, t[k], address)
    ensures forall k :: r == Valid(k) <==>
      && k in t && k.HostKey? && HasByte(k, t[k], address)
      && Usable(t, k, device) && HasBytes(k, t[k], address, size)
  {
    forall k | k in t
      ensures Covers(k, t[k], address) <==> k.HostKey? && HasByte(k, t[k], address)
      ensures Covers(k, t[k], address) ==>
        (size <= t[k].size - (address - k.address) <==> HasBytes(k, t[k], address, size))
    {
      CoversBytes(k, t[k], address, size);
    }
    var rest := t.Keys;
    while rest != {}
      invariant rest <= t.Keys
      invariant forall k :: k in t && k !in rest ==> !Covers(k, t[k], address)
      decreases |rest|
    {
      var k :| k in rest;
      rest := rest - {k};
      if !k.HostKey? || address < k.address || address - k.address >= t[k].size {
        continue;
      }
      assert Covers(k, t[k], address);
      forall j | j in t && Covers(j, t[j], address) ensures j == k {
        OneCover(t, j, k, address);
      }
      if t[k].device != device || size > t[k].size - (address - k.address) || t[k].destroying {
        return Invalid;
      }
      return Valid(k);
    }
    return Unregistered;
  }

  // ------------------------------------------------------------- lr_memcpy

  datatype Kind = HostToDevice | DeviceToHost | DeviceToDevice

  ghost predicate Resolves(t: Table, address: nat, size: nat, device: nat) {
    exists k :: k in t && Holds(k, t[k], address, size, device)
  }

  /** Pageable host memory is fine; registered host memory must be usable for the range. */
  predicate HostFits(t: Table, address: nat, size: nat, device: nat) {
    forall k :: k in t && Covers(k, t[k], address) ==> Usable(t, k, device) && size <= t[k].size - (address - k.address)
  }

  ghost predicate Acceptable(t: Table, kind: Kind, destination: nat, source: nat, size: nat, device: nat) {
    && destination != 0 && source != 0 && size != 0
    && match kind
       case HostToDevice => Resolves(t, destination, size, device) && HostFits(t, source, size, device)
       case DeviceToHost => Resolves(t, source, size, device) && HostFits(t, destination, size, device)
       case DeviceToDevice => Resolves(t, destination, size, device) && Resolves(t, source, size, device)
  }

  /** Every allocation the copy touches is on the pin list. */
  predicate PinsTouched(t: Table, pins: seq<Key>, kind: Kind, destination: nat, source: nat, size: nat, device: nat) {
    && (forall k :: k in t && !kind.DeviceToHost? && Holds(k, t[k], destination, size, device) ==> k in pins)
    && (forall k :: k in t && !kind.HostToDevice? && Holds(k, t[k], source, size, device) ==> k in pins)
    && (forall k :: k in t && kind.DeviceToHost? && Covers(k, t[k], destination) ==> k in pins)
    && (forall k :: k in t && kind.HostToDevice? && Covers(k, t[k], source) ==> k in pins)
  }

  class Memory {
    var state: State

    method Pin(k: Key, pins: seq<Key>, ghost before: Table) returns (ok: bool, more: seq<Key>)
      requires state.table == PinAll(before, pins)
      modifies this
      ensures state == old(state).(table := state.table)
      ensures state.table == PinAll(before, more)
      ensures ok <==> k in before && !before[k].destroying
      ensures more == if ok then pins + [k] else pins
    {
      PinAllMoves(before, pins);
      ok, more := false, pins;
      if k in state.table && !state.table[k].destroying {
        state := state.(table := state.table[k := state.table[k].(pins := state.table[k].pins + 1)]);
        ok, more := true, pins + [k];
        assert more[..|more| - 1] == pins;
      }
    }

    /** The destructor of the pin list, after an early error return. */
    method ReleasePins(pins: seq<Key>, ghost before: Table)
      requires state.table == PinAll(before, pins)
      modifies this
      ensures state == old(state).(table := before)
    {
      var i := 0;
      UnpinUndoesPin(before, pins);
      PinAllMoves(before, pins);
      while i < |pins|
        invariant i <= |pins|
        invariant state == old(state).(table := state.table)
        invariant UnpinAll(state.table, pins[i..]) == before
        invariant forall k :: k in state.table ==> state.table[k].pins >= Count(pins[i..], k)
      {
        assert pins[i..][1..] == pins[i + 1..];
        var k := pins[i];
        if k in state.table {
          state := state.(table := state.table[k := state.table[k].(pins := state.table[k].pins - 1)]);
        }
        i := i + 1;
      }
    }

    /** The first part of `lr_memcpy`: look the pointers up and pin what they hit. A
        refused copy leaves every count as it was; an accepted one is a step that pins
        everything it will touch. */
    method StartCopy(kind: Kind, device: nat, destination: nat, source: nat, size: nat)
      returns (ok: bool, pins: seq<Key>)
      requires Inv(state)
      modifies this
      ensures ok <==> Acceptable(old(state).table, kind, destination, source, size, device)
      ensures !ok ==> state == old(state)
      ensures ok ==> Can(old(state), BeginCopy(device, pins)) && state == Do(old(state), BeginCopy(device, pins))
      ensures ok ==> PinsTouched(old(state).table, pins, kind, destination, source, size, device)
    {
      ok, pins := false, [];
      if destination == 0 || source == 0 || size == 0 {
        return;
      }
      ok, pins := PinDevice(kind, device, destination, source, size);
      if !ok {
        return;
      }
      var more;
      ok, more := PinHost(kind, device, destination, source, size, pins, old(state).table);
      if ok {
        pins := more;
        state := state.(copies := state.copies + [pins]);
      } else {
        ReleasePins(more, old(state).table);
      }
    }

    /** The device pointers, each by the one allocation that holds it. */
    method PinDevice(kind: Kind, device: nat, destination: nat, source: nat, size: nat)
      returns (ok: bool, pins: seq<Key>)
      requires RangesOk(state.table) && destination != 0 && source != 0 && size != 0
      modifies this
      ensures state == old(state).(table := state.table)
      ensures ok <==> ((!kind.DeviceToHost? ==> Resolves(old(state).table, destination, size, device))
                       && (!kind.HostToDevice? ==> Resolves(old(state).table, source, size, device)))
      ensures state.table == if ok then PinAll(old(state).table, pins) else old(state).table
      ensures ok ==> forall k :: k in pins ==> Usable(old(state).table, k, device)
      ensures ok ==>
        forall k ::
          k in old(state).table && !kind.DeviceToHost? && Holds(k, old(state).table[k], destination, size, device) ==>
          k in pins
      ensures ok ==>
        forall k ::
          k in old(state).table && !kind.HostToDevice? && Holds(k, old(state).table[k], source, size, device) ==>
          k in pins
    {
      var t := state.table;
      ok, pins := false, [];
      var to, from := None, None;
      if !kind.DeviceToHost? {
        to := FindBase(t, destination, size, device);
        if to.None? {
          return;
        }
        Unique(t, to.value, destination, size, device);
      }
      if !kind.HostToDevice? {
        from := FindBase(t, source, size, device);
        if from.None? {
          return;
        }
        Unique(t, from.value, source, size, device);
      }
      if to.Some? {
        ok, pins := Pin(to.value, pins, t);
      }
      if from.Some? {
        ok, pins := Pin(from.value, pins, t);
      }
    }

    method PinHost(kind: Kind, device: nat, destination: nat, source: nat, size: nat, pins: seq<Key>,
                   ghost before: Table)
      returns (ok: bool, more: seq<Key>)
      requires RangesOk(before) && state.table == PinAll(before, pins)
      modifies this
      ensures state == old(state).(table := PinAll(before, more))
      ensures ok <==> ((kind.HostToDevice? ==> HostFits(before, source, size, device))
                       && (kind.DeviceToHost? ==> HostFits(before, destination, size, device)))
      ensures forall k :: k in pins ==> k in more
      ensures forall k :: k in more && k !in pins ==> Usable(before, k, device)
      ensures ok ==> forall k :: k in before && kind.DeviceToHost? && Covers(k, before[k], destination) ==> k in more
      ensures ok ==> forall k :: k in before && kind.HostToDevice? && Covers(k, before[k], source) ==> k in more
    {
      ok, more := true, pins;
      if kind.DeviceToDevice? {
        return;
      }
      PinAllMoves(before, pins);
      assert forall k :: k in before ==> state.table[k] == before[k].(pins := state.table[k].pins);
      var address := if kind.HostToDevice? then source else destination;
      var lookup := TranslateHost(state.table, address, size, device);
      match lookup
      case Unregistered =>
      case Invalid =>
        ok := false;
      case Valid(k) =>
        ok, more := Pin(k, pins, before);
    }
  }

  lemma Unique(t: Table, k: Key, address: nat, size: nat, device: nat)
    requires RangesOk(t) && k in t && size > 0 && Holds(k, t[k], address, size, device)
    ensures forall j :: j in t && Holds(j, t[j], address, size, device) ==> j == k
  {
    forall j | j in t && Holds(j, t[j], address, size, device) ensures j == k {
      OneHolder(t, j, k, address, size, device);
    }
  }
}
