/** Device copies of the direct KFD backend: the byte-copy kernel under every interleaving
    of its work items, and the staged loops of `lr_memcpy` built on it. */
module StagedCopy {
  import opened Common
  import opened Strides

  type Byte = bv8

  const BLOCK_SIZE: nat := 256
  const MAXIMUM_WORKGROUPS: nat := 4096

  // ------------------------------------------------------------- launch geometry

  function Workgroups(size: nat): (r: nat)
    requires size > 0
    ensures 1 <= r <= MAXIMUM_WORKGROUPS
  {
    var required := 1 + (size - 1) / BLOCK_SIZE;
    if required <= MAXIMUM_WORKGROUPS then required else MAXIMUM_WORKGROUPS
  }

  /** Work items of the launch, and the distance between two offsets of one work item. */
  function Stride(size: nat): nat
    requires size > 0
  {
    Workgroups(size) * BLOCK_SIZE
  }

  /** Every offset is visited by one thread of one block, and by no other: thread `t` of
      block `b` starts at `b * 256 + t` and goes up in steps of the stride. */
  lemma OffsetHasOneThread(size: nat, offset: nat, block: nat, thread: nat, turn: nat)
    requires offset < size && block < Workgroups(size) && thread < BLOCK_SIZE
    ensures offset == block * BLOCK_SIZE + thread + turn * Stride(size) <==>
            (&& turn == offset / Stride(size)
             && block == offset % Stride(size) / BLOCK_SIZE
             && thread == offset % Stride(size) % BLOCK_SIZE)
  {
    var stride := Stride(size);
    var index := block * BLOCK_SIZE + thread;
    assert index < stride;
    Divide(offset, stride, index, turn);
    Divide(offset % stride, BLOCK_SIZE, thread, block);
  }

  // ------------------------------------------------------------- the kernel

  datatype Register = Empty | Loaded(value: Byte)

  /** A work item: the offset it is at, and the byte it has loaded but not stored yet. */
  datatype Item = Item(next: nat, register: Register)

  datatype Copy = Copy(destination: nat, source: nat, size: nat, stride: nat)

  /** `stores` lists the offsets stored so far, in order. */
  datatype Kernel = Kernel(memory: seq<Byte>, items: seq<Item>, stores: seq<nat>)

  predicate InRange(c: Copy, length: nat) {
    && c.stride > 0
    && c.destination + c.size <= length
    && c.source + c.size <= length
  }

  predicate Apart(a: nat, b: nat, size: nat) {
    a + size <= b || b + size <= a
  }

  function Start(memory: seq<Byte>, stride: nat): Kernel {
    Kernel(memory, seq(stride, i requires 0 <= i => Item(i, Empty)), [])
  }

  predicate Shaped(c: Copy, k: Kernel) {
    InRange(c, |k.memory|) && |k.items| == c.stride
  }

  /** Work item `i` makes its next memory access: a load, or the store that ends the turn. */
  function Step(c: Copy, k: Kernel, i: nat): (r: Kernel)
    requires Shaped(c, k)
    ensures Shaped(c, r)
  {
    if i >= c.stride || k.items[i].next >= c.size then k
    else
      var offset := k.items[i].next;
      match k.items[i].register
      case Empty => k.(items := k.items[i := Item(offset, Loaded(k.memory[c.source + offset]))])
      case Loaded(value) =>
        Kernel(k.memory[c.destination + offset := value],
               k.items[i := Item(offset + c.stride, Empty)],
               k.stores + [offset])
  }

  function Run(c: Copy, k: Kernel, schedule: seq<nat>): (r: Kernel)
    requires Shaped(c, k)
    ensures Shaped(c, r)
    decreases |schedule|
  {
    if schedule == [] then k else Run(c, Step(c, k, schedule[0]), schedule[1..])
  }

  predicate Finished(c: Copy, k: Kernel) {
    forall i :: 0 <= i < |k.items| ==> k.items[i].next >= c.size
  }

  predicate SameOutside(m: seq<Byte>, n: seq<Byte>, start: nat, size: nat) {
    && |m| == |n|
    && forall a :: 0 <= a < |m| && !(start <= a < start + size) ==> n[a] == m[a]
  }

  /** Offsets `from` to `to` of the destination hold the bytes that were at the source. */
  predicate Arrived(original: seq<Byte>, source: nat, memory: seq<Byte>, destination: nat, from: nat, to: nat)
    requires source + to <= |original| && destination + to <= |memory|
  {
    forall a :: destination + from <= a < destination + to ==> memory[a] == original[a - destination + source]
  }

  lemma ArrivedSlice(original: seq<Byte>, source: nat, memory: seq<Byte>, destination: nat, from: nat, to: nat)
    requires from <= to && source + to <= |original| && destination + to <= |memory|
    ensures Arrived(original, source, memory, destination, from, to) <==>
            memory[destination + from..destination + to] == original[source + from..source + to]
  {
    var m, n := memory[destination + from..destination + to], original[source + from..source + to];
    forall a | destination + from <= a < destination + to
      ensures memory[a] == m[a - destination - from] && original[a - destination + source] == n[a - destination - from]
    {
    }
    assert (forall i :: 0 <= i < |m| ==> m[i] == memory[destination + from + i] && n[i] == original[source + from + i]);
  }

  /** What a copy is for: the source bytes at the destination, everything else as it was. */
  predicate Copied(m: seq<Byte>, n: seq<Byte>, destination: nat, source: nat, size: nat)
    requires destination + size <= |n| && source + size <= |m|
  {
    SameOutside(m, n, destination, size) && Arrived(m, source, n, destination, 0, size)
  }

  // ------------------------------------------------------------- its invariant

  predicate ItemsOk(c: Copy, m: seq<Byte>, items: seq<Item>)
    requires InRange(c, |m|) && |items| == c.stride
  {
    forall i :: 0 <= i < c.stride ==>
      && Owner(items[i].next, c.stride) == i
      && (items[i].register.Loaded? ==>
        items[i].next < c.size && items[i].register.value == m[c.source + items[i].next])
  }

  predicate Passed(c: Copy, items: seq<Item>, offset: nat)
    requires c.stride > 0 && |items| == c.stride
  {
    offset < c.size && offset < items[Owner(offset, c.stride)].next
  }

  predicate BytesOk(c: Copy, m: seq<Byte>, k: Kernel)
    requires Shaped(c, k) && |m| == |k.memory|
  {
    forall o: nat :: o < c.size ==>
      k.memory[c.destination + o] == if Passed(c, k.items, o) then m[c.source + o] else m[c.destination + o]
  }

  ghost predicate StoresOk(c: Copy, k: Kernel)
    requires Shaped(c, k)
  {
    && Distinct(k.stores)
    && forall o: nat :: o in k.stores <==> Passed(c, k.items, o)
  }

  ghost predicate KernelInv(c: Copy, m: seq<Byte>, k: Kernel) {
    && Shaped(c, k)
    && |m| == |k.memory|
    && ItemsOk(c, m, k.items)
    && BytesOk(c, m, k)
    && SameOutside(m, k.memory, c.destination, c.size)
    && StoresOk(c, k)
  }

  lemma StartInv(c: Copy, m: seq<Byte>)
    requires InRange(c, |m|)
    ensures KernelInv(c, m, Start(m, c.stride))
  {
    var items := Start(m, c.stride).items;
    forall i | 0 <= i < c.stride ensures Owner(items[i].next, c.stride) == i {
      OwnerNext(i, c.stride);
    }
    forall o: nat ensures !Passed(c, items, o) {
      assert o % c.stride <= o;
    }
  }

  /** Storing offset `at` passes that offset and no other. */
  lemma PassedStep(c: Copy, items: seq<Item>, i: nat, o: nat)
    requires c.stride > 0 && |items| == c.stride && i < c.stride
    requires Owner(items[i].next, c.stride) == i && items[i].next < c.size
    ensures var after := items[i := Item(items[i].next + c.stride, Empty)];
            Passed(c, after, o) <==> Passed(c, items, o) || o == items[i].next
  {
    var at := items[i].next;
    if Owner(o, c.stride) == i && at <= o < at + c.stride {
      OwnerOnce(at, o, c.stride);
    }
  }

  lemma LoadInv(c: Copy, m: seq<Byte>, k: Kernel, i: nat)
    requires KernelInv(c, m, k) && Apart(c.destination, c.source, c.size)
    requires i < c.stride && k.items[i].next < c.size && k.items[i].register.Empty?
    ensures KernelInv(c, m, Step(c, k, i))
  {
    hide Owner, Distinct;
    var at := k.items[i].next;
    var after := Step(c, k, i);
    assert k.memory[c.source + at] == m[c.source + at];
    assert forall o: nat :: Passed(c, after.items, o) <==> Passed(c, k.items, o);
  }

  lemma StoreInv(c: Copy, m: seq<Byte>, k: Kernel, i: nat)
    requires KernelInv(c, m, k)
    requires i < c.stride && k.items[i].next < c.size && k.items[i].register.Loaded?
    ensures KernelInv(c, m, Step(c, k, i))
  {
    hide Owner;
    var at := k.items[i].next;
    var after := Step(c, k, i);
    OwnerNext(at, c.stride);
    assert at !in k.stores by {
      assert !Passed(c, k.items, at);
    }
    assert StoresOk(c, after) && BytesOk(c, m, after) by {
      forall o: nat ensures Passed(c, after.items, o) <==> Passed(c, k.items, o) || o == at {
        PassedStep(c, k.items, i, o);
      }
      hide Passed;
    }
  }

  lemma StepInv(c: Copy, m: seq<Byte>, k: Kernel, i: nat)
    requires KernelInv(c, m, k) && Apart(c.destination, c.source, c.size)
    ensures KernelInv(c, m, Step(c, k, i))
  {
    hide Owner, Distinct, Passed, ItemsOk, BytesOk, SameOutside, StoresOk;
    if i < c.stride && k.items[i].next < c.size {
      match k.items[i].register
      case Empty => LoadInv(c, m, k, i);
      case Loaded(_) => StoreInv(c, m, k, i);
    }
  }

  lemma {:induction false} RunInv(c: Copy, m: seq<Byte>, k: Kernel, schedule: seq<nat>)
    requires KernelInv(c, m, k) && Apart(c.destination, c.source, c.size)
    ensures KernelInv(c, m, Run(c, k, schedule))
    decreases |schedule|
  {
    if schedule != [] {
      StepInv(c, m, k, schedule[0]);
      RunInv(c, m, Step(c, k, schedule[0]), schedule[1..]);
    }
  }

  /** Every interleaving of loads and stores that lets all work items finish copies the
      bytes and nothing else, and stores each offset exactly once. */
  lemma {:induction false} KernelCopies(c: Copy, m: seq<Byte>, schedule: seq<nat>)
    requires InRange(c, |m|) && Apart(c.destination, c.source, c.size)
    requires Finished(c, Run(c, Start(m, c.stride), schedule))
    ensures var k := Run(c, Start(m, c.stride), schedule);
            && Copied(m, k.memory, c.destination, c.source, c.size)
            && Distinct(k.stores)
            && forall o: nat :: o in k.stores <==> o < c.size
  {
    StartInv(c, m);
    RunInv(c, m, Start(m, c.stride), schedule);
    var k := Run(c, Start(m, c.stride), schedule);
    forall o: nat | o < c.size ensures Passed(c, k.items, o) {
      assert k.items[Owner(o, c.stride)].next >= c.size;
    }
    forall a | c.destination <= a < c.destination + c.size ensures k.memory[a] == m[a - c.destination + c.source] {
      assert Passed(c, k.items, a - c.destination);
    }
  }

  // ------------------------------------------------------------- every launch can finish

  function Turns(i: nat, n: nat): (r: seq<nat>)
    ensures |r| == n && forall j :: 0 <= j < n ==> r[j] == i
  {
    seq(n, _ => i)
  }

  lemma {:induction false} RunTurn(c: Copy, k: Kernel, i: nat, n: nat)
    requires Shaped(c, k) && n > 0
    ensures Run(c, k, Turns(i, n)) == Run(c, Step(c, k, i), Turns(i, n - 1))
  {
    assert Turns(i, n)[1..] == Turns(i, n - 1);
  }

  /** Left alone, work item `i` reaches the end in two accesses per offset; the others do
      not move. */
  lemma {:induction false} ItemFinishes(c: Copy, k: Kernel, i: nat, n: nat)
    requires Shaped(c, k) && i < c.stride
    requires n >= 2 * c.size - 2 * k.items[i].next
    ensures var r := Run(c, k, Turns(i, n));
            && r.items[i].next >= c.size
            && forall j :: 0 <= j < c.stride && j != i ==> r.items[j] == k.items[j]
    decreases n
  {
    if n > 0 {
      var one := Step(c, k, i);
      RunTurn(c, k, i, n);
      if k.items[i].next >= c.size {
        ItemFinishes(c, k, i, n - 1);
      } else {
        RunTurn(c, one, i, n - 1);
        ItemFinishes(c, Step(c, one, i), i, n - 2);
      }
    }
  }

  /** The work items from `i` on run to their ends, one after the other. */
  function Settle(c: Copy, k: Kernel, i: nat): (r: Kernel)
    requires Shaped(c, k) && i <= c.stride
    ensures Shaped(c, r)
    decreases c.stride - i
  {
    if i == c.stride then k else Settle(c, Run(c, k, Turns(i, 2 * c.size)), i + 1)
  }

  lemma {:induction false} SettleFinishes(c: Copy, k: Kernel, i: nat)
    requires Shaped(c, k) && i <= c.stride
    requires forall j :: 0 <= j < i ==> k.items[j].next >= c.size
    ensures Finished(c, Settle(c, k, i))
    decreases c.stride - i
  {
    if i < c.stride {
      ItemFinishes(c, k, i, 2 * c.size);
      SettleFinishes(c, Run(c, k, Turns(i, 2 * c.size)), i + 1);
    }
  }

  lemma {:induction false} RunConcat(c: Copy, k: Kernel, a: seq<nat>, b: seq<nat>)
    requires Shaped(c, k)
    ensures Run(c, k, a + b) == Run(c, Run(c, k, a), b)
    decreases |a|
  {
    if a == [] {
      assert a + b == b;
    } else {
      assert (a + b)[1..] == a[1..] + b;
      RunConcat(c, Step(c, k, a[0]), a[1..], b);
    }
  }

  /** Whatever happened so far, some continuation lets every work item finish: completed
      launches exist after every prefix. */
  lemma {:induction false} SettleIsRun(c: Copy, k: Kernel, i: nat) returns (rest: seq<nat>)
    requires Shaped(c, k) && i <= c.stride
    ensures Run(c, k, rest) == Settle(c, k, i)
    decreases c.stride - i
  {
    if i == c.stride {
      rest := [];
    } else {
      var first := Turns(i, 2 * c.size);
      var more := SettleIsRun(c, Run(c, k, first), i + 1);
      rest := first + more;
      RunConcat(c, k, first, more);
    }
  }

  /** A launch in any order writes only the destination; once it has settled, the copy is
      complete. */
  lemma {:induction false} LaunchCopies(c: Copy, m: seq<Byte>, schedule: seq<nat>)
    requires InRange(c, |m|) && Apart(c.destination, c.source, c.size)
    ensures var k := Run(c, Start(m, c.stride), schedule);
            && SameOutside(m, k.memory, c.destination, c.size)
            && Copied(m, Settle(c, k, 0).memory, c.destination, c.source, c.size)
  {
    hide Owner, Copied, StoresOk, BytesOk, ItemsOk;
    var start := Start(m, c.stride);
    var k := Run(c, start, schedule);
    StartInv(c, m);
    RunInv(c, m, start, schedule);
    SettleFinishes(c, k, 0);
    var rest := SettleIsRun(c, k, 0);
    RunConcat(c, start, schedule, rest);
    KernelCopies(c, m, schedule + rest);
  }

  // ------------------------------------------------------------- lr_memcpy

  datatype Status = Success | InvalidArgument | Failed

  /** What the device does with one launch: the order its work items run in before the
      host sees the outcome, and whether the submission and its completion succeed. */
  datatype Outcome = Outcome(schedule: seq<nat>, ok: bool)

  function Minimum(a: nat, b: nat): nat {
    if a <= b then a else b
  }

  predicate Within(memory: seq<Byte>, start: nat, size: nat) {
    start + size <= |memory|
  }

  /** Bytes outside both ranges are as before. */
  predicate SameOutsideTwo(m: seq<Byte>, n: seq<Byte>, a: nat, s: nat, b: nat, t: nat) {
    && |m| == |n|
    && forall x :: 0 <= x < |m| && !(a <= x < a + s) && !(b <= x < b + t) ==> n[x] == m[x]
  }

  /** Offsets `from` to `to` are done and nothing else but the staging buffer has changed. */
  predicate Partly(original: seq<Byte>, memory: seq<Byte>, destination: nat, source: nat, from: nat, to: nat,
                   staging: nat, stagingSize: nat)
    requires from <= to && source + to <= |original| && destination + to <= |memory|
  {
    && SameOutsideTwo(original, memory, destination + from, to - from, staging, stagingSize)
    && Arrived(original, source, memory, destination, from, to)
  }

  lemma PartlyNone(memory: seq<Byte>, destination: nat, source: nat, at: nat, staging: nat, stagingSize: nat)
    requires source + at <= |memory| && destination + at <= |memory|
    ensures Partly(memory, memory, destination, source, at, at, staging, stagingSize)
  {
  }

  lemma PartlyAll(original: seq<Byte>, memory: seq<Byte>, destination: nat, source: nat, size: nat, staging: nat,
                  stagingSize: nat)
    requires source + size <= |original| && destination + size <= |memory|
    requires Partly(original, memory, destination, source, 0, size, staging, stagingSize)
    ensures SameOutsideTwo(original, memory, destination, size, staging, stagingSize)
    ensures memory[destination..destination + size] == original[source..source + size]
  {
    ArrivedSlice(original, source, memory, destination, 0, size);
  }

  /** One more chunk lands next to what is done: it was read from bytes nobody had touched,
      and what had arrived is still there. */
  lemma ChunkLands(original: seq<Byte>, before: seq<Byte>, after: seq<Byte>, destination: nat, source: nat,
                   from: nat, to: nat, offset: nat, chunk: nat, staging: nat, stagingSize: nat)
    requires |original| == |before| == |after| && from <= to
    requires offset + chunk == from || to == offset
    requires offset + chunk == from ==> source <= destination && destination + to <= |after| && source + to <= |after|
    requires to == offset ==>
      destination <= source && destination + offset + chunk <= |after| && source + offset + chunk <= |after|
    requires destination + to <= staging || staging + stagingSize <= destination + from
    requires destination + offset + chunk <= staging || staging + stagingSize <= destination + offset
    requires source + offset + chunk <= staging || staging + stagingSize <= source + offset
    requires Partly(original, before, destination, source, from, to, staging, stagingSize)
    requires SameOutsideTwo(before, after, destination + offset, chunk, staging, stagingSize)
    requires Arrived(before, source + offset, after, destination + offset, 0, chunk)
    ensures offset + chunk == from ==> Partly(original, after, destination, source, offset, to, staging, stagingSize)
    ensures to == offset ==> Partly(original, after, destination, source, from, offset + chunk, staging, stagingSize)
  {
  }

  /** A chunk in flight stays within the destination. */
  lemma ChunkStays(original: seq<Byte>, before: seq<Byte>, after: seq<Byte>, destination: nat, source: nat, size: nat,
                   from: nat, to: nat, offset: nat, chunk: nat, staging: nat, stagingSize: nat)
    requires from <= to <= size && offset + chunk <= size
    requires destination + size <= |before| && source + size <= |original|
    requires Partly(original, before, destination, source, from, to, staging, stagingSize)
    requires SameOutsideTwo(before, after, destination + offset, chunk, staging, stagingSize)
    ensures SameOutsideTwo(original, after, destination, size, staging, stagingSize)
  {
  }

  class Device {
    var memory: seq<Byte>
    var launches: nat
    const gpu: nat -> Outcome
    const staging: nat
    const stagingSize: nat

    ghost predicate Valid()
      reads this
    {
      stagingSize > 0 && Within(memory, staging, stagingSize)
    }

    /** The staging buffer is an allocation of its own. */
    ghost predicate ClearOfStaging(start: nat, size: nat) {
      start + size <= staging || staging + stagingSize <= start
    }

    /** Launch the copy kernel and wait for it. A failed submission or wait leaves the
        kernel at any point of its run. */
    method Submit(destination: nat, source: nat, size: nat) returns (status: Status)
      requires Within(memory, destination, size) && Within(memory, source, size)
      requires Apart(destination, source, size)
      modifies this`memory, this`launches
      ensures size == 0 ==> status == InvalidArgument
      ensures SameOutside(old(memory), memory, destination, size)
      ensures status == Success ==> Copied(old(memory), memory, destination, source, size)
    {
      if size == 0 {
        return InvalidArgument;
      }
      var c := Copy(destination, source, size, Stride(size));
      var outcome := gpu(launches);
      launches := launches + 1;
      var k := Run(c, Start(memory, c.stride), outcome.schedule);
      LaunchCopies(c, memory, outcome.schedule);
      if outcome.ok {
        memory := Settle(c, k, 0).memory;
        status := Success;
      } else {
        memory := k.memory;
        status := Failed;
      }
    }

    /** One chunk through the staging buffer. */
    method StageChunk(destination: nat, source: nat, chunk: nat) returns (status: Status)
      requires Valid() && 0 < chunk <= stagingSize
      requires Within(memory, destination, chunk) && Within(memory, source, chunk)
      requires ClearOfStaging(destination, chunk) && ClearOfStaging(source, chunk)
      modifies this`memory, this`launches
      ensures Valid() && |memory| == old(|memory|)
      ensures SameOutsideTwo(old(memory), memory, destination, chunk, staging, stagingSize)
      ensures status == Success ==> Arrived(old(memory), source, memory, destination, 0, chunk)
    {
      status := Submit(staging, source, chunk);
      if status == Success {
        status := Submit(destination, staging, chunk);
      }
    }

    /** Device to device: `memmove`, for every size, overlap and staging size. Nothing but
        the destination and the staging buffer changes, also when a launch fails. */
    method CopyDeviceToDevice(destination: nat, source: nat, size: nat) returns (status: Status)
      requires Valid()
      requires Within(memory, destination, size) && Within(memory, source, size)
      requires ClearOfStaging(destination, size) && ClearOfStaging(source, size)
      modifies this`memory, this`launches
      ensures Valid()
      ensures size == 0 ==> status == InvalidArgument
      ensures SameOutsideTwo(old(memory), memory, destination, size, staging, stagingSize)
      ensures status == Success ==> memory[destination..destination + size] == old(memory)[source..source + size]
    {
      if size == 0 {
        return InvalidArgument;
      }
      var overlaps := destination < source + size && source < destination + size;
      if !overlaps {
        status := Submit(destination, source, size);
        ArrivedSlice(old(memory), source, memory, destination, 0, size);
      } else if destination > source {
        status := CopyBackward(destination, source, size);
      } else if destination < source {
        status := CopyForward(destination, source, size);
      } else {
        status := Success;
      }
    }

    method CopyBackward(destination: nat, source: nat, size: nat) returns (status: Status)
      requires Valid() && source <= destination
      requires Within(memory, destination, size) && Within(memory, source, size)
      requires ClearOfStaging(destination, size) && ClearOfStaging(source, size)
      modifies this`memory, this`launches
      ensures Valid()
      ensures SameOutsideTwo(old(memory), memory, destination, size, staging, stagingSize)
      ensures status == Success ==> memory[destination..destination + size] == old(memory)[source..source + size]
    {
      hide Partly, Arrived, SameOutsideTwo;
      PartlyNone(memory, destination, source, size, staging, stagingSize);
      var remaining: nat := size;
      while remaining != 0
        invariant remaining <= size && Valid() && |memory| == old(|memory|)
        invariant Partly(old(memory), memory, destination, source, remaining, size, staging, stagingSize)
      {
        var chunk := Minimum(remaining, stagingSize);
        var offset: nat := remaining - chunk;
        ghost var before := memory;
        status := StageChunk(destination + offset, source + offset, chunk);
        ChunkStays(old(memory), before, memory, destination, source, size, remaining, size, offset, chunk, staging,
                   stagingSize);
        if status != Success {
          return;
        }
        ChunkLands(old(memory), before, memory, destination, source, remaining, size, offset, chunk, staging,
                   stagingSize);
        remaining := offset;
      }
      PartlyAll(old(memory), memory, destination, source, size, staging, stagingSize);
      status := Success;
    }

    method CopyForward(destination: nat, source: nat, size: nat) returns (status: Status)
      requires Valid() && destination <= source
      requires Within(memory, destination, size) && Within(memory, source, size)
      requires ClearOfStaging(destination, size) && ClearOfStaging(source, size)
      modifies this`memory, this`launches
      ensures Valid()
      ensures SameOutsideTwo(old(memory), memory, destination, size, staging, stagingSize)
      ensures status == Success ==> memory[destination..destination + size] == old(memory)[source..source + size]
    {
      hide Partly, Arrived, SameOutsideTwo;
      PartlyNone(memory, destination, source, 0, staging, stagingSize);
      var offset: nat := 0;
      while offset < size
        invariant offset <= size && Valid() && |memory| == old(|memory|)
        invariant Partly(old(memory), memory, destination, source, 0, offset, staging, stagingSize)
      {
        var chunk := Minimum(size - offset, stagingSize);
        ghost var before := memory;
        status := StageChunk(destination + offset, source + offset, chunk);
        ChunkStays(old(memory), before, memory, destination, source, size, 0, offset, offset, chunk, staging,
                   stagingSize);
        if status != Success {
          return;
        }
        ChunkLands(old(memory), before, memory, destination, source, 0, offset, offset, chunk, staging, stagingSize);
        offset := offset + chunk;
      }
      PartlyAll(old(memory), memory, destination, source, size, staging, stagingSize);
      status := Success;
    }

    /** The host's own copy into the mapped staging buffer. */
    method FillStaging(host: seq<Byte>, offset: nat, chunk: nat)
      requires Valid() && chunk <= stagingSize && offset + chunk <= |host|
      modifies this`memory
      ensures Valid() && SameOutside(old(memory), memory, staging, stagingSize)
      ensures Arrived(host, offset, memory, staging, 0, chunk)
    {
      memory := memory[..staging] + host[offset..offset + chunk] + memory[staging + chunk..];
    }

    /** Host to device: the whole host buffer arrives. */
    method CopyHostToDevice(destination: nat, host: seq<Byte>) returns (status: Status)
      requires Valid() && Within(memory, destination, |host|) && ClearOfStaging(destination, |host|)
      modifies this`memory, this`launches
      ensures Valid()
      ensures host == [] ==> status == InvalidArgument
      ensures SameOutsideTwo(old(memory), memory, destination, |host|, staging, stagingSize)
      ensures status == Success ==> memory[destination..destination + |host|] == host
    {
      if |host| == 0 {
        return InvalidArgument;
      }
      var offset: nat := 0;
      while offset < |host|
        invariant offset <= |host| && Valid()
        invariant SameOutsideTwo(old(memory), memory, destination, offset, staging, stagingSize)
        invariant Arrived(host, 0, memory, destination, 0, offset)
      {
        var chunk := Minimum(|host| - offset, stagingSize);
        FillStaging(host, offset, chunk);
        status := Submit(destination + offset, staging, chunk);
        if status != Success {
          return;
        }
        assert Arrived(host, 0, memory, destination, offset, offset + chunk);
        offset := offset + chunk;
      }
      ArrivedSlice(host, 0, memory, destination, 0, |host|);
      status := Success;
    }

    /** The host's own copy out of the mapped staging buffer. */
    method ReadStaging(host: array<Byte>, offset: nat, chunk: nat)
      requires Valid() && chunk <= stagingSize && offset + chunk <= host.Length
      modifies host
      ensures forall i :: offset <= i < offset + chunk ==> host[i] == memory[i - offset + staging]
      ensures forall i :: 0 <= i < offset ==> host[i] == old(host[i])
    {
      forall i | offset <= i < offset + chunk {
        host[i] := memory[staging + (i - offset)];
      }
    }

    /** Device to host: the host array receives the device bytes and device memory outside
        the staging buffer is untouched. */
    method CopyDeviceToHost(host: array<Byte>, source: nat) returns (status: Status)
      requires Valid() && Within(memory, source, host.Length) && ClearOfStaging(source, host.Length)
      modifies this`memory, this`launches, host
      ensures Valid()
      ensures host.Length == 0 ==> status == InvalidArgument
      ensures SameOutside(old(memory), memory, staging, stagingSize)
      ensures status == Success ==> host[..] == old(memory)[source..source + host.Length]
    {
      if host.Length == 0 {
        return InvalidArgument;
      }
      var offset: nat := 0;
      while offset < host.Length
        invariant offset <= host.Length && Valid()
        invariant SameOutside(old(memory), memory, staging, stagingSize)
        invariant forall i :: 0 <= i < offset ==> host[i] == old(memory)[i + source]
      {
        var chunk := Minimum(host.Length - offset, stagingSize);
        status := Submit(staging, source + offset, chunk);
        if status != Success {
          return;
        }
        assert Arrived(old(memory), source + offset, memory, staging, 0, chunk);
        ReadStaging(host, offset, chunk);
        offset := offset + chunk;
      }
      status := Success;
    }
  }
}
