/** AQL packets: how the runtime builds and validates them, and their 64-byte layout as
    a header half-word followed by 31 half-words. */
module AqlPackets {

  const KERNEL_DISPATCH_HEADER: bv16 := 2 | (2 << 9) | (2 << 11)
  const BARRIER_BIT: bv16 := 1 << 8
  const BARRIER_AND_HEADER: bv16 := 3 | BARRIER_BIT | (2 << 9) | (2 << 11)
  const INVALID_HEADER: bv16 := 1

  type uint16 = x: int | 0 <= x < 0x1_0000
  type uint32 = x: int | 0 <= x < 0x1_0000_0000
  type uint64 = x: int | 0 <= x < 0x1_0000_0000_0000_0000

  datatype Dim = Dim(x: uint32, y: uint32, z: uint32)
  datatype Group = Group(x: uint16, y: uint16, z: uint16)

  datatype DispatchParameters = DispatchParameters(
    grid: Dim, group: Group, privateSize: uint32, groupSize: uint32,
    kernelObject: uint64, kernargAddress: uint64, completion: uint64)

  datatype Ordering = Ordering(pendingDispatches: nat, hasDependencies: bool)

  datatype DispatchPacket = DispatchPacket(
    header: bv16, setup: uint16, group: Group, reserved0: uint16, grid: Dim,
    privateSize: uint32, groupSize: uint32, kernelObject: uint64, kernargAddress: uint64,
    reserved2: uint64, completion: uint64)

  datatype BarrierParameters = BarrierParameters(d0: uint64, d1: uint64, d2: uint64, d3: uint64, d4: uint64,
                                                 completion: uint64)

  datatype BarrierPacket = BarrierPacket(
    header: bv16, reserved0: uint16, reserved1: uint32,
    d0: uint64, d1: uint64, d2: uint64, d3: uint64, d4: uint64, reserved2: uint64, completion: uint64)

  function Dimensions(p: DispatchParameters): (r: uint16)
    ensures 1 <= r <= 3
  {
    if p.grid.z > 1 || p.group.z > 1 then 3
    else if p.grid.y > 1 || p.group.y > 1 then 2
    else 1
  }

  function BuildDispatch(p: DispatchParameters, o: Ordering): DispatchPacket {
    DispatchPacket(
      KERNEL_DISPATCH_HEADER | (if o.pendingDispatches != 0 || o.hasDependencies then BARRIER_BIT else 0),
      Dimensions(p), p.group, 0, p.grid, p.privateSize, p.groupSize, p.kernelObject, p.kernargAddress, 0, p.completion)
  }

  predicate ValidDispatch(p: DispatchPacket) {
    && p.header & !BARRIER_BIT == KERNEL_DISPATCH_HEADER
    && p.setup < 4
    && 1 <= p.setup <= 3
    && p.group.x != 0 && p.group.y != 0 && p.group.z != 0
    && !(p.setup < 2 && p.group.y != 1) && !(p.setup < 3 && p.group.z != 1)
    && p.grid.x >= p.group.x && p.grid.y >= p.group.y && p.grid.z >= p.group.z
    && !(p.setup < 2 && p.grid.y != 1) && !(p.setup < 3 && p.grid.z != 1)
    && p.kernelObject != 0 && p.reserved0 == 0 && p.reserved2 == 0
  }

  function BuildBarrier(p: BarrierParameters): BarrierPacket {
    BarrierPacket(BARRIER_AND_HEADER, 0, 0, p.d0, p.d1, p.d2, p.d3, p.d4, 0, p.completion)
  }

  predicate ValidBarrier(p: BarrierPacket) {
    p.header == BARRIER_AND_HEADER && p.reserved0 == 0 && p.reserved1 == 0 && p.reserved2 == 0
  }

  /** What a caller can check beforehand. */
  predicate Launchable(p: DispatchParameters) {
    && 1 <= p.group.x <= p.grid.x
    && 1 <= p.group.y <= p.grid.y
    && 1 <= p.group.z <= p.grid.z
    && p.kernelObject != 0
  }

  /** A built dispatch packet passes validation exactly when the launch geometry is sound:
      the dimension count chosen by the builder never rejects it. */
  lemma DispatchValidIff(p: DispatchParameters, o: Ordering)
    ensures ValidDispatch(BuildDispatch(p, o)) <==> Launchable(p)
  {
  }

  lemma HeaderBits()
    ensures KERNEL_DISPATCH_HEADER & !BARRIER_BIT == KERNEL_DISPATCH_HEADER
    ensures (KERNEL_DISPATCH_HEADER | BARRIER_BIT) & !BARRIER_BIT == KERNEL_DISPATCH_HEADER
    ensures KERNEL_DISPATCH_HEADER & BARRIER_BIT == 0
    ensures (KERNEL_DISPATCH_HEADER | BARRIER_BIT) & BARRIER_BIT != 0
    ensures BARRIER_AND_HEADER & BARRIER_BIT != 0
    ensures KERNEL_DISPATCH_HEADER != INVALID_HEADER && KERNEL_DISPATCH_HEADER | BARRIER_BIT != INVALID_HEADER
    ensures BARRIER_AND_HEADER != INVALID_HEADER
  {
  }

  /** The barrier bit is set exactly when something earlier is pending; a barrier-AND
      packet always carries it; no built packet looks invalid to the packet processor. */
  lemma BarrierBitExact(p: DispatchParameters, o: Ordering, b: BarrierParameters)
    ensures BuildDispatch(p, o).header & BARRIER_BIT != 0 <==> o.pendingDispatches > 0 || o.hasDependencies
    ensures BuildBarrier(b).header & BARRIER_BIT != 0 && ValidBarrier(BuildBarrier(b))
    ensures BuildDispatch(p, o).header != INVALID_HEADER && BuildBarrier(b).header != INVALID_HEADER
  {
  }

  // ------------------------------------------------------------------- layout

  function Half2(x: uint32): (r: seq<uint16>)
    ensures |r| == 2
  {
    [x % 0x1_0000, x / 0x1_0000]
  }

  function Join2(w: seq<uint16>): uint32
    requires |w| == 2
  {
    var lo: int, hi: int := w[0], w[1];
    lo + hi * 0x1_0000
  }

  function Half4(x: uint64): (r: seq<uint16>)
    ensures |r| == 4
  {
    Half2(x % 0x1_0000_0000) + Half2(x / 0x1_0000_0000)
  }

  function Join4(w: seq<uint16>): uint64
    requires |w| == 4
  {
    var lo: int, hi: int := Join2(w[..2]), Join2(w[2..]);
    lo + hi * 0x1_0000_0000
  }

  lemma Half2Join(x: uint32)
    ensures Join2(Half2(x)) == x
  {
  }

  lemma Half4Join(x: uint64)
    ensures Join4(Half4(x)) == x
  {
  }

  /** A packet as the packet processor finds it in a slot. */
  datatype Packet = Packet(header: bv16, body: seq<uint16>)

  function EncodeDispatch(p: DispatchPacket): (r: Packet)
    ensures |r.body| == 31
  {
    Packet(p.header,
      [p.setup, p.group.x, p.group.y, p.group.z, p.reserved0]
      + Half2(p.grid.x) + Half2(p.grid.y) + Half2(p.grid.z) + Half2(p.privateSize) + Half2(p.groupSize)
      + Half4(p.kernelObject) + Half4(p.kernargAddress) + Half4(p.reserved2) + Half4(p.completion))
  }

  /** Read the fields at the byte offsets the layout fixes (byte 2k is half-word k - 1). */
  function DecodeDispatch(p: Packet): DispatchPacket
    requires |p.body| == 31
  {
    DispatchPacket(p.header, p.body[0], Group(p.body[1], p.body[2], p.body[3]), p.body[4],
      Dim(Join2(p.body[5..7]), Join2(p.body[7..9]), Join2(p.body[9..11])),
      Join2(p.body[11..13]), Join2(p.body[13..15]),
      Join4(p.body[15..19]), Join4(p.body[19..23]), Join4(p.body[23..27]), Join4(p.body[27..31]))
  }

  function EncodeBarrier(p: BarrierPacket): (r: Packet)
    ensures |r.body| == 31
  {
    Packet(p.header,
      [p.reserved0] + Half2(p.reserved1)
      + Half4(p.d0) + Half4(p.d1) + Half4(p.d2) + Half4(p.d3) + Half4(p.d4)
      + Half4(p.reserved2) + Half4(p.completion))
  }

  function DecodeBarrier(p: Packet): BarrierPacket
    requires |p.body| == 31
  {
    BarrierPacket(p.header, p.body[0], Join2(p.body[1..3]),
      Join4(p.body[3..7]), Join4(p.body[7..11]), Join4(p.body[11..15]), Join4(p.body[15..19]), Join4(p.body[19..23]),
      Join4(p.body[23..27]), Join4(p.body[27..31]))
  }

  /** Every field is found again at its fixed offset. */
  lemma DispatchLayout(p: DispatchPacket)
    ensures DecodeDispatch(EncodeDispatch(p)) == p
  {
    hide Join2, Join4, Half2, Half4;
    var b := EncodeDispatch(p).body;
    assert b[5..7] == Half2(p.grid.x) && b[7..9] == Half2(p.grid.y) && b[9..11] == Half2(p.grid.z);
    assert b[11..13] == Half2(p.privateSize) && b[13..15] == Half2(p.groupSize);
    assert b[15..19] == Half4(p.kernelObject) && b[19..23] == Half4(p.kernargAddress);
    assert b[23..27] == Half4(p.reserved2) && b[27..31] == Half4(p.completion);
    Half2Join(p.grid.x); Half2Join(p.grid.y); Half2Join(p.grid.z);
    Half2Join(p.privateSize); Half2Join(p.groupSize);
    Half4Join(p.kernelObject); Half4Join(p.kernargAddress); Half4Join(p.reserved2); Half4Join(p.completion);
  }

  lemma BarrierLayout(p: BarrierPacket)
    ensures DecodeBarrier(EncodeBarrier(p)) == p
  {
    hide Join2, Join4, Half2, Half4;
    var b := EncodeBarrier(p).body;
    assert b[1..3] == Half2(p.reserved1) && b[3..7] == Half4(p.d0) && b[7..11] == Half4(p.d1);
    assert b[11..15] == Half4(p.d2) && b[15..19] == Half4(p.d3) && b[19..23] == Half4(p.d4);
    assert b[23..27] == Half4(p.reserved2) && b[27..31] == Half4(p.completion);
    Half2Join(p.reserved1);
    Half4Join(p.d0); Half4Join(p.d1); Half4Join(p.d2); Half4Join(p.d3); Half4Join(p.d4);
    Half4Join(p.reserved2); Half4Join(p.completion);
  }

  // ------------------------------------------------- what the packet processor is asked

  /** The half-word, word and double word at a byte offset of the 64-byte slot, little-endian. */
  function At16(k: Packet, offset: nat): nat
    requires |k.body| == 31 && 2 <= offset <= 62
  {
    k.body[offset / 2 - 1]
  }

  function At32(k: Packet, offset: nat): nat
    requires |k.body| == 31 && 2 <= offset <= 60
  {
    At16(k, offset) + 0x1_0000 * At16(k, offset + 2)
  }

  function At64(k: Packet, offset: nat): nat
    requires |k.body| == 31 && 2 <= offset <= 56
  {
    At32(k, offset) + 0x1_0000_0000 * At32(k, offset + 4)
  }

  /** The header of a packet of the given type, with system scope for both fences. */
  predicate HeaderAsks(header: bv16, kind: bv16, barrier: bool) {
    && header & 0xFF == kind
    && (header & 0x100 != 0 <==> barrier)
    && (header >> 9) & 3 == 2 && (header >> 11) & 3 == 2
    && header >> 13 == 0
  }

  /** The number of the largest dimension with more than one item, the group's shape, and the
      barrier bit exactly if something earlier has to complete first. */
  predicate AsksShape(k: Packet, p: DispatchParameters, o: Ordering)
    requires |k.body| == 31
  {
    && HeaderAsks(k.header, 2, o.pendingDispatches > 0 || o.hasDependencies)
    && 1 <= At16(k, 2) <= 3
    && (At16(k, 2) == 3 <==> p.grid.z > 1 || p.group.z > 1)
    && (At16(k, 2) == 1 <==> p.grid.y <= 1 && p.group.y <= 1 && p.grid.z <= 1 && p.group.z <= 1)
    && At16(k, 4) == p.group.x && At16(k, 6) == p.group.y && At16(k, 8) == p.group.z && At16(k, 10) == 0
  }

  predicate AsksSizes(k: Packet, p: DispatchParameters)
    requires |k.body| == 31
  {
    && At32(k, 12) == p.grid.x && At32(k, 16) == p.grid.y && At32(k, 20) == p.grid.z
    && At32(k, 24) == p.privateSize && At32(k, 28) == p.groupSize
    && At64(k, 32) == p.kernelObject && At64(k, 40) == p.kernargAddress
    && At64(k, 48) == 0 && At64(k, 56) == p.completion
  }

  /** The slot asks for exactly this launch: the fields at the offsets of the HSA kernel
      dispatch packet. */
  predicate AsksDispatch(k: Packet, p: DispatchParameters, o: Ordering) {
    |k.body| == 31 && AsksShape(k, p, o) && AsksSizes(k, p)
  }

  /** The slot asks to wait for exactly these five signals. */
  predicate AsksBarrier(k: Packet, p: BarrierParameters) {
    && |k.body| == 31
    && HeaderAsks(k.header, 3, true)
    && At16(k, 2) == 0 && At32(k, 4) == 0
    && At64(k, 8) == p.d0 && At64(k, 16) == p.d1 && At64(k, 24) == p.d2 && At64(k, 32) == p.d3 && At64(k, 40) == p.d4
    && At64(k, 48) == 0 && At64(k, 56) == p.completion
  }

  lemma Word32(k: Packet, offset: nat, x: uint32)
    requires |k.body| == 31 && 2 <= offset <= 60 && offset % 2 == 0
    requires k.body[offset / 2 - 1..offset / 2 + 1] == Half2(x)
    ensures At32(k, offset) == x
  {
    assert k.body[offset / 2 - 1..offset / 2 + 1][0] == At16(k, offset);
    assert k.body[offset / 2 - 1..offset / 2 + 1][1] == At16(k, offset + 2);
  }

  lemma Word64(k: Packet, offset: nat, x: uint64)
    requires |k.body| == 31 && 2 <= offset <= 56 && offset % 2 == 0
    requires k.body[offset / 2 - 1..offset / 2 + 3] == Half4(x)
    ensures At64(k, offset) == x
  {
    var w := k.body[offset / 2 - 1..offset / 2 + 3];
    assert k.body[offset / 2 - 1..offset / 2 + 1] == w[..2] == Half2(x % 0x1_0000_0000);
    assert k.body[offset / 2 + 1..offset / 2 + 3] == w[2..] == Half2(x / 0x1_0000_0000);
    Word32(k, offset, x % 0x1_0000_0000);
    Word32(k, offset + 4, x / 0x1_0000_0000);
  }

  lemma HeadersAsk()
    ensures HeaderAsks(KERNEL_DISPATCH_HEADER, 2, false)
    ensures HeaderAsks(KERNEL_DISPATCH_HEADER | BARRIER_BIT, 2, true)
    ensures HeaderAsks(BARRIER_AND_HEADER, 3, true)
    ensures KERNEL_DISPATCH_HEADER | 0 == KERNEL_DISPATCH_HEADER
  {
  }

  lemma DispatchShape(p: DispatchParameters, o: Ordering)
    ensures AsksShape(EncodeDispatch(BuildDispatch(p, o)), p, o)
  {
    hide Half2, Half4, HeaderAsks;
    HeadersAsk();
  }

  lemma DispatchSizes(d: DispatchPacket, p: DispatchParameters)
    requires d.grid == p.grid && d.privateSize == p.privateSize && d.groupSize == p.groupSize
    requires d.kernelObject == p.kernelObject && d.kernargAddress == p.kernargAddress && d.reserved2 == 0
    requires d.completion == p.completion
    ensures AsksSizes(EncodeDispatch(d), p)
  {
    hide Half2, Half4, At32, At64;
    var k := EncodeDispatch(d);
    assert k.body[5..7] == Half2(p.grid.x) && k.body[7..9] == Half2(p.grid.y) && k.body[9..11] == Half2(p.grid.z);
    assert k.body[11..13] == Half2(p.privateSize) && k.body[13..15] == Half2(p.groupSize);
    assert k.body[15..19] == Half4(p.kernelObject) && k.body[19..23] == Half4(p.kernargAddress);
    assert k.body[23..27] == Half4(0) && k.body[27..31] == Half4(p.completion);
    Word32(k, 12, p.grid.x); Word32(k, 16, p.grid.y); Word32(k, 20, p.grid.z);
    Word32(k, 24, p.privateSize); Word32(k, 28, p.groupSize);
    Word64(k, 32, p.kernelObject); Word64(k, 40, p.kernargAddress); Word64(k, 48, 0); Word64(k, 56, p.completion);
  }

  /** The slot written for a launch asks for that launch. */
  lemma DispatchAsks(p: DispatchParameters, o: Ordering)
    ensures AsksDispatch(EncodeDispatch(BuildDispatch(p, o)), p, o)
  {
    hide EncodeDispatch, AsksShape, AsksSizes;
    DispatchShape(p, o);
    DispatchSizes(BuildDispatch(p, o), p);
  }

  /** The slot written for a barrier waits for the given signals. */
  lemma BarrierAsks(p: BarrierParameters)
    ensures AsksBarrier(EncodeBarrier(BuildBarrier(p)), p)
  {
    hide Half2, Half4, HeaderAsks, At32, At64;
    HeadersAsk();
    var k := EncodeBarrier(BuildBarrier(p));
    assert k.body[1..3] == Half2(0) && k.body[3..7] == Half4(p.d0) && k.body[7..11] == Half4(p.d1);
    assert k.body[11..15] == Half4(p.d2) && k.body[15..19] == Half4(p.d3) && k.body[19..23] == Half4(p.d4);
    assert k.body[23..27] == Half4(0) && k.body[27..31] == Half4(p.completion);
    Word32(k, 4, 0);
    Word64(k, 8, p.d0); Word64(k, 16, p.d1); Word64(k, 24, p.d2); Word64(k, 32, p.d3); Word64(k, 40, p.d4);
    Word64(k, 48, 0); Word64(k, 56, p.completion);
  }
}
