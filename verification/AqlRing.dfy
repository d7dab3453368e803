/** The AQL ring: a serialized producer that writes packets slot by slot, and the packet
    processor that may look at the ring between any two stores.  The ring refines an
    unbounded log: what the processor takes is always a prefix of what was published. */
module AqlRing {
  import opened AqlPackets
  import opened Bits

  // ------------------------------------------------------------ masks and powers

  predicate IsPowerOfTwo(v: nat) {
    v != 0 && And(v, v - 1) == 0
  }

  /** The test the runtime applies to a packet count accepts exactly the powers of two. */
  lemma PowerOfTwoIff(v: nat)
    ensures IsPowerOfTwo(v) <==> exists k :: v == Pow2(k)
  {
    hide And, Pow2;
    if exists k :: v == Pow2(k) {
      var k :| v == Pow2(k);
      MaskIsMod(v, k);
    }
    if IsPowerOfTwo(v) { var _ := Exponent(v); }
  }

  lemma {:induction false} OddMask(v: nat)
    requires v % 2 == 1
    ensures And(v, v - 1) == v - 1
  {
    AndSelf(v / 2);
    assert v == 2 * (v / 2) + 1 && (v - 1) / 2 == v / 2;
  }

  lemma {:induction false} Exponent(v: nat) returns (k: nat)
    requires IsPowerOfTwo(v)
    ensures v == Pow2(k)
  {
    var m := v / 2;
    if v % 2 == 1 {
      OddMask(v);
      k := 0;
    } else {
      assert (v - 1) / 2 == m - 1 && v % 2 == 0;
      var j := Exponent(m);
      k := j + 1;
    }
  }

  lemma SlotOf(id: nat, n: nat)
    requires IsPowerOfTwo(n)
    ensures And(id, n - 1) == id % n
  {
    var k := Exponent(n);
    MaskIsMod(id, k);
  }

  /** Ids less than n apart never share a slot. */
  lemma OwnSlot(a: nat, b: nat, n: nat)
    requires a < b < a + n
    ensures a % n != b % n
  {
    var qa, qb := a / n, b / n;
    assert a == qa * n + a % n && b == qb * n + b % n;
    if a % n == b % n {
      assert b - a == (qb - qa) * n;
      SmallMultiple(qb - qa, n);
      assert false;
    }
  }

  lemma NextRound(id: nat, n: nat)
    requires n > 0
    ensures (id + n) % n == id % n
  {
    ModUnique(id + n, n, id / n + 1, id % n);
  }

  // -------------------------------------------------------------------- the ring

  datatype Error = InvalidPacket | InvalidQueue | QueueFull | ReserveFailed
  datatype Result = Submitted(id: nat) | Failed(error: Error)

  function Barriers(ps: seq<BarrierParameters>): (r: seq<Packet>)
    ensures |r| == |ps|
    ensures forall i :: 0 <= i < |ps| ==> r[i] == EncodeBarrier(BuildBarrier(ps[i]))
  {
    seq(|ps|, i requires 0 <= i < |ps| => EncodeBarrier(BuildBarrier(ps[i])))
  }

  /** The packets ask, one by one, for what the parameters say. */
  predicate AskBarriers(packets: seq<Packet>, ps: seq<BarrierParameters>) {
    |packets| == |ps| && forall i :: 0 <= i < |ps| ==> AsksBarrier(packets[i], ps[i])
  }

  lemma BarriersAsk(ps: seq<BarrierParameters>)
    ensures AskBarriers(Barriers(ps), ps)
  {
    hide AsksBarrier, EncodeBarrier, BuildBarrier;
    forall i | 0 <= i < |ps| ensures AsksBarrier(Barriers(ps)[i], ps[i]) { BarrierAsks(ps[i]); }
  }

  class Ring {
    const slots: array<Packet>

    /** The context, the ring base and all callbacks are present. */
    const connected: bool

    var readIndex: nat
    var writeIndex: nat
    var doorbell: nat

    /** How many packets the packet processor tries to take at each opportunity. */
    var appetite: seq<nat>

    /** Every packet published, by id, and what the processor has taken. */
    ghost var log: seq<Packet>
    ghost var taken: seq<Packet>

    constructor (size: nat, connected: bool, appetite: seq<nat>)
      ensures Valid() && Quiet() && fresh(slots) && slots.Length == size && this.connected == connected
      ensures log == [] && taken == []
    {
      this.connected := connected;
      this.appetite := appetite;
      slots := new Packet[size](_ => Packet(INVALID_HEADER, seq(31, _ => 0)));
      readIndex, writeIndex, doorbell := 0, 0, 0;
      log, taken := [], [];
    }

    /** The unread ids sit intact in their slots, every other slot shows an invalid header,
        and the processor has taken exactly the packets before the read index. */
    ghost predicate Valid()
      reads this, slots
    {
      && readIndex <= |log| <= writeIndex <= readIndex + slots.Length
      && taken == log[..readIndex]
      && (forall id :: 0 <= id < |log| ==> log[id].header != INVALID_HEADER && |log[id].body| == 31)
      && (forall i :: 0 <= i < slots.Length ==> |slots[i].body| == 31)
      && (forall id :: readIndex <= id < |log| ==> slots[id % slots.Length] == log[id])
      && (forall id :: |log| <= id < readIndex + slots.Length ==> slots[id % slots.Length].header == INVALID_HEADER)
    }

    /** No reservation is open: the producer is between two submissions. */
    ghost predicate Quiet()
      reads this
    {
      writeIndex == |log|
    }

    /** The packet processor takes packets whose header is not invalid, in order, and
        invalidates each slot it has taken. */
    method Consume()
      requires Valid()
      modifies this`readIndex, this`appetite, this`taken, slots
      ensures Valid() && readIndex >= old(readIndex) && taken == log[..readIndex]
      ensures forall id :: |log| <= id < old(readIndex) + slots.Length ==>
        slots[id % slots.Length] == old(slots[id % slots.Length])
    {
      if appetite == [] || slots.Length == 0 { return; }
      var hungry := appetite[0];
      appetite := appetite[1..];
      while hungry > 0
        invariant Valid() && readIndex >= old(readIndex)
        invariant forall id :: |log| <= id < old(readIndex) + slots.Length ==>
          slots[id % slots.Length] == old(slots[id % slots.Length])
        decreases hungry
      {
        var s := readIndex % slots.Length;
        if slots[s].header == INVALID_HEADER { return; }
        TakeOne(s);
        hungry := hungry - 1;
      }
    }

    method TakeOne(s: nat)
      requires Valid() && 0 < slots.Length && s == readIndex % slots.Length && slots[s].header != INVALID_HEADER
      modifies this`readIndex, this`taken, slots
      ensures Valid() && readIndex == old(readIndex) + 1 && taken == old(taken) + [log[old(readIndex)]]
      ensures forall id :: |log| <= id < old(readIndex) + slots.Length ==>
        slots[id % slots.Length] == old(slots[id % slots.Length])
    {
      assert readIndex < |log|;
      assert forall id :: readIndex < id < readIndex + slots.Length ==> id % slots.Length != s by {
        forall id | readIndex < id < readIndex + slots.Length
          ensures id % slots.Length != s { OwnSlot(readIndex, id, slots.Length); }
      }
      NextRound(readIndex, slots.Length);
      taken := taken + [slots[s]];
      slots[s] := slots[s].(header := INVALID_HEADER);
      readIndex := readIndex + 1;
    }

    /** publish_packet: invalidate the header, copy the body, store the header last.  The
        processor may run between any two stores; at each such point the ring is Valid, so
        no valid header ever stands over an incomplete body. */
    method Publish(id: nat, packet: Packet)
      requires Valid() && id == |log| < writeIndex && IsPowerOfTwo(slots.Length)
      requires |packet.body| == 31 && packet.header != INVALID_HEADER
      modifies this`readIndex, this`appetite, this`taken, this`log, slots
      ensures Valid() && log == old(log) + [packet] && readIndex >= old(readIndex)
    {
      var s := And(id, slots.Length - 1);
      SlotOf(id, slots.Length);
      Store(s, slots[s].(header := INVALID_HEADER));
      for j := 0 to 31
        invariant Valid() && log == old(log) && readIndex >= old(readIndex)
        invariant slots[s].header == INVALID_HEADER && slots[s].body[..j] == packet.body[..j]
      {
        Consume();
        Store(s, slots[s].(body := slots[s].body[j := packet.body[j]]));
      }
      Consume();
      assert slots[s].body == packet.body;
      ShowHeader(s, packet);
    }

    /** A store into the slot of the packet being written. */
    method Store(s: nat, p: Packet)
      requires Valid() && 0 < slots.Length && s == |log| % slots.Length && |log| < writeIndex
      requires p.header == INVALID_HEADER && |p.body| == 31
      modifies slots
      ensures Valid() && slots[s] == p
    {
      assert forall id :: readIndex <= id < |log| ==> id % slots.Length != s by {
        forall id | readIndex <= id < |log| ensures id % slots.Length != s { OwnSlot(id, |log|, slots.Length); }
      }
      slots[s] := p;
    }

    /** The store of the header makes the packet visible. */
    method ShowHeader(s: nat, packet: Packet)
      requires Valid() && 0 < slots.Length && s == |log| % slots.Length && |log| < writeIndex
      requires slots[s].body == packet.body && |packet.body| == 31 && packet.header != INVALID_HEADER
      modifies slots, this`log
      ensures Valid() && log == old(log) + [packet]
    {
      assert forall id :: readIndex <= id < readIndex + slots.Length && id != |log| ==> id % slots.Length != s by {
        forall id | readIndex <= id < readIndex + slots.Length && id != |log| ensures id % slots.Length != s {
          if id < |log| { OwnSlot(id, |log|, slots.Length); } else { OwnSlot(|log|, id, slots.Length); }
        }
      }
      slots[s] := slots[s].(header := packet.header);
      log := log + [packet];
    }

    /** Write a reserved batch in order, then ring the doorbell for its last id. */
    method PublishAll(first: nat, packets: seq<Packet>)
      requires Valid() && first == |log| && writeIndex == first + |packets| && IsPowerOfTwo(slots.Length)
      requires packets != []
      requires forall i :: 0 <= i < |packets| ==> |packets[i].body| == 31 && packets[i].header != INVALID_HEADER
      modifies this`readIndex, this`appetite, this`taken, this`log, this`doorbell, slots
      ensures Valid() && Quiet() && log == old(log) + packets && doorbell == |log| - 1
    {
      for index := 0 to |packets|
        invariant Valid() && log == old(log) + packets[..index]
      {
        Publish(first + index, packets[index]);
      }
      doorbell := first + |packets| - 1;
    }

    predicate ValidQueue()
      reads this
    {
      connected && IsPowerOfTwo(slots.Length)
    }

    /** submit_aql_kernel_dispatch.  `accepts` is the optional packet validator, `grant`
        the outcome of the reservation. */
    method SubmitDispatch(p: DispatchParameters, o: Ordering, accepts: bool, prevalidated: bool, grant: bool)
      returns (r: Result)
      requires Valid() && Quiet()
      requires prevalidated && ValidQueue() ==> writeIndex - readIndex < slots.Length
      modifies this, slots
      ensures Valid() && Quiet()
      ensures r.Submitted? ==> log == old(log) + [EncodeDispatch(BuildDispatch(p, o))] && r.id == doorbell == |log| - 1
      ensures r.Submitted? ==> AsksDispatch(log[r.id], p, o)
      ensures r.Failed? ==> log == old(log) && writeIndex == old(writeIndex)
      ensures r == Failed(InvalidQueue) <==> !ValidQueue()
      ensures r == Failed(InvalidPacket) <==> ValidQueue() && !(Launchable(p) && accepts)
      ensures r == Failed(QueueFull) ==> !prevalidated && old(writeIndex - readIndex) >= slots.Length
      ensures r == Failed(ReserveFailed) ==> !grant
    {
      hide AsksDispatch;
      var packet := BuildDispatch(p, o);
      DispatchAsks(p, o);
      DispatchValidIff(p, o);
      HeaderBits();
      if !ValidQueue() { return Failed(InvalidQueue); }
      if !ValidDispatch(packet) || !accepts { return Failed(InvalidPacket); }
      if !prevalidated {
        Consume();
        var read := readIndex;
        Consume();
        if writeIndex < read || writeIndex - read >= slots.Length { return Failed(QueueFull); }
      }
      if !grant { return Failed(ReserveFailed); }
      var first := writeIndex;
      writeIndex := writeIndex + 1;
      PublishAll(first, [EncodeDispatch(packet)]);
      r := Submitted(first);
    }

    /** submit_aql_barriers_and: all packets in consecutive slots, or none. */
    method SubmitBarriers(ps: seq<BarrierParameters>, grant: bool) returns (r: Result)
      requires Valid() && Quiet()
      modifies this, slots
      ensures Valid() && Quiet()
      ensures r.Submitted? ==> log == old(log) + Barriers(ps) && r.id == doorbell == |log| - 1
      ensures r.Submitted? ==> AskBarriers(log[|old(log)|..], ps)
      ensures r.Failed? ==> log == old(log) && writeIndex == old(writeIndex)
      ensures r == Failed(InvalidQueue) <==> !ValidQueue()
      ensures r == Failed(InvalidPacket) <==> ValidQueue() && ps == []
      ensures r == Failed(QueueFull) ==> old(writeIndex - readIndex) + |ps| > slots.Length
      ensures r == Failed(ReserveFailed) ==> !grant
    {
      hide AskBarriers;
      BarriersAsk(ps);
      if !ValidQueue() { return Failed(InvalidQueue); }
      if ps == [] { return Failed(InvalidPacket); }
      var valid := CheckBarriers(ps);
      assert valid by { forall i | 0 <= i < |ps|
        ensures ValidBarrier(BuildBarrier(ps[i])) { BuiltBarrierValid(ps[i]); } }
      if !valid { return Failed(InvalidPacket); }
      if |ps| > slots.Length { return Failed(QueueFull); }
      r := ReserveAndPublish(Barriers(ps), grant);
      assert (old(log) + Barriers(ps))[|old(log)|..] == Barriers(ps);
    }

    /** submit_aql_barriers_and_kernel_dispatch: the barriers and then the dispatch in
        consecutive slots, or nothing. */
    method SubmitBarriersAndDispatch(ps: seq<BarrierParameters>, p: DispatchParameters, o: Ordering, accepts: bool,
                                     grant: bool) returns (r: Result)
      requires Valid() && Quiet()
      modifies this, slots
      ensures Valid() && Quiet()
      ensures r.Submitted? ==>
        log == old(log) + Barriers(ps) + [EncodeDispatch(BuildDispatch(p, o))] && r.id == doorbell == |log| - 1
      ensures r.Submitted? ==>
        |old(log)| <= r.id && AskBarriers(log[|old(log)|..r.id], ps) && AsksDispatch(log[r.id], p, o)
      ensures r.Failed? ==> log == old(log) && writeIndex == old(writeIndex)
      ensures r == Failed(InvalidQueue) <==> !ValidQueue()
      ensures r == Failed(InvalidPacket) <==> ValidQueue() && (ps == [] || !(Launchable(p) && accepts))
      ensures r == Failed(QueueFull) ==> old(writeIndex - readIndex) + |ps| + 1 > slots.Length
      ensures r == Failed(ReserveFailed) ==> !grant
    {
      hide AsksDispatch, AskBarriers;
      BarriersAsk(ps);
      DispatchAsks(p, o);
      DispatchValidIff(p, o);
      HeaderBits();
      if !ValidQueue() { return Failed(InvalidQueue); }
      if ps == [] { return Failed(InvalidPacket); }
      var valid := CheckBarriers(ps);
      assert valid by { forall i | 0 <= i < |ps|
        ensures ValidBarrier(BuildBarrier(ps[i])) { BuiltBarrierValid(ps[i]); } }
      if !valid { return Failed(InvalidPacket); }
      var dispatch := BuildDispatch(p, o);
      if !ValidDispatch(dispatch) || !accepts { return Failed(InvalidPacket); }
      if |ps| + 1 > slots.Length { return Failed(QueueFull); }
      r := ReserveAndPublish(Barriers(ps) + [EncodeDispatch(dispatch)], grant);
      assert old(log) + (Barriers(ps) + [EncodeDispatch(dispatch)])
        == old(log) + Barriers(ps) + [EncodeDispatch(dispatch)];
      assert (old(log) + Barriers(ps) + [EncodeDispatch(dispatch)])[|old(log)|..|old(log)| + |ps|] == Barriers(ps);
    }

    method ReserveAndPublish(packets: seq<Packet>, grant: bool) returns (r: Result)
      requires Valid() && Quiet() && ValidQueue() && 0 < |packets| <= slots.Length
      requires forall i :: 0 <= i < |packets| ==> |packets[i].body| == 31 && packets[i].header != INVALID_HEADER
      modifies this, slots
      ensures Valid() && Quiet()
      ensures r.Submitted? ==> log == old(log) + packets && r.id == doorbell == |log| - 1
      ensures r.Failed? ==> log == old(log) && writeIndex == old(writeIndex)
      ensures r == Failed(QueueFull) ==> old(writeIndex - readIndex) + |packets| > slots.Length
      ensures r.Failed? ==> r.error == QueueFull || (r.error == ReserveFailed && !grant)
    {
      Consume();
      var read := readIndex;
      Consume();
      if writeIndex < read || writeIndex - read > slots.Length - |packets| { return Failed(QueueFull); }
      if !grant { return Failed(ReserveFailed); }
      var first := writeIndex;
      writeIndex := writeIndex + |packets|;
      PublishAll(first, packets);
      r := Submitted(first + |packets| - 1);
    }
  }

  /** The validation loop over the built barrier packets. */
  method CheckBarriers(ps: seq<BarrierParameters>) returns (valid: bool)
    ensures valid <==> forall i :: 0 <= i < |ps| ==> ValidBarrier(BuildBarrier(ps[i]))
  {
    valid := true;
    for index := 0 to |ps|
      invariant forall i :: 0 <= i < index ==> ValidBarrier(BuildBarrier(ps[i]))
    {
      if !ValidBarrier(BuildBarrier(ps[index])) { return false; }
    }
  }

  /** Whatever the parameters, the barrier packet built from them passes the validation. */
  lemma BuiltBarrierValid(p: BarrierParameters)
    ensures ValidBarrier(BuildBarrier(p))
  {
  }
}
