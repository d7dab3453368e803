/** The state of the HSA runtime: AQL queues with the packet processor behind
    them, the shadow lists the host keeps for each queue, events, and the API
    calls that are in flight while no lock is held.

    Signals are named by where they live: a dispatch completion signal and a
    synchronization signal belong to one queue, an event owns its own signal. */
module HsaState {
  import opened Common

  datatype Signal =
    | DispatchSignal(handle: nat)
    | SyncSignal(handle: nat)
    | EventSignal(event: nat)

  /** One recording of an event: the event and the number of times it had been
      armed by then. */
  datatype Occurrence = Occurrence(event: nat, epoch: nat)

  /** An AQL packet.  `awaits` is the caller's dependency list; hardware does not
      see it, the ordering theorem is stated about it. */
  datatype Packet =
    | Dispatch(completion: nat, barrierBit: bool, awaits: seq<Occurrence>)
    | BarrierAnd(deps: seq<Signal>, completed: Option<Signal>)

  datatype PendingDispatch = PendingDispatch(signal: nat, kernarg: nat, pid: nat)
  datatype PendingBarrier = PendingBarrier(retirement: Signal, dependencies: seq<nat>, pid: nat)
  datatype PendingSync = PendingSync(completion: nat, dispatchDeps: seq<nat>)

  /** A signal and a kernarg buffer taken from the pools by a launch that has not
      published its dispatch yet. */
  datatype InFlight = InFlight(thread: nat, signal: nat, kernarg: nat)

  /** Who holds the queue mutex across several steps of the model. */
  datatype Holder =
    | Unlocked
    | ByLaunch(thread: nat)
    | ByRecord(event: nat, todo: seq<nat>)
    | BySync(completion: nat, signals: seq<Signal>, dispatchDeps: seq<nat>)

  /** Progress of lr_queue_destroy on one queue. */
  datatype Lifecycle = Live | Destroying | DestroyPinned | Destroyed

  /** The packet processor: every packet ever published, how many were taken from
      the ring, and which of those completed. */
  datatype Gpu = Gpu(log: seq<Packet>, taken: nat, done: set<nat>)

  datatype Queue = Queue(
    size: nat,
    gpu: Gpu,
    dispatchValues: seq<nat>,
    syncValues: seq<nat>,
    kernargs: nat,
    pendingDispatches: seq<PendingDispatch>,
    deferred: seq<PendingDispatch>,
    pendingBarriers: seq<PendingBarrier>,
    pendingEvents: seq<nat>,
    signalPool: seq<nat>,
    kernargPool: seq<nat>,
    inFlight: seq<InFlight>,
    pendingSyncs: seq<PendingSync>,
    progressWaits: seq<Signal>,
    active: map<nat, nat>,
    synchronizers: nat,
    lifecycle: Lifecycle,
    holder: Holder)

  datatype Record = Record(queue: nat, packet: nat)

  /** A record call that has seen the event idle and unreferenced: the queue it
      will mark, and the copies a default-queue marker has to wait for. */
  datatype Recording = Recording(queue: nat, deps: seq<nat>)

  datatype Event = Event(
    signal: nat,
    epoch: nat,
    finished: set<nat>,
    pending: bool,
    copy: bool,
    recorded: Option<Record>,
    deps: seq<nat>,
    depQueues: map<nat, nat>,
    depCount: nat,
    recording: Option<Recording>)

  datatype Stage =
    | Collected
    | Waiting(required: nat)
    | Ready(required: nat)
    | Scanning(rest: seq<nat>, found: seq<nat>)
    | Registering(todo: seq<nat>)

  /** A launch between collecting its dependencies and publishing its dispatch.
      `direct` is the default-queue path, which takes its resources and filters its
      dependencies before it waits for capacity; `hasDeps` says whether the list of
      pending dependencies it collected was non-empty. */
  datatype Launch = Launch(
    queue: nat,
    awaits: seq<Occurrence>,
    deps: seq<nat>,
    hasDeps: bool,
    implicit: bool,
    direct: bool,
    stage: Stage)

  /** A thread blocked on an event's signal with the registry lock released. */
  datatype Wait = Wait(event: nat, epoch: nat, queue: Option<nat>)

  datatype State = State(
    queues: seq<Queue>,
    events: seq<Event>,
    launches: map<nat, Launch>,
    waits: map<nat, Wait>)

  function Get(m: map<nat, nat>, k: nat): nat {
    if k in m then m[k] else 0
  }

  /** Barrier packets needed for n dependency signals: five per packet. */
  function Chunks(n: nat): nat {
    (n + 4) / 5
  }

  function Head<T>(s: seq<T>): seq<T> {
    if |s| <= 5 then s else s[..5]
  }

  function Rest<T>(s: seq<T>): seq<T> {
    if |s| <= 5 then [] else s[5..]
  }

  predicate Bit(p: Packet) {
    p.BarrierAnd? || p.barrierBit
  }

  /** Packet p keeps packet r behind it from being taken until p completed. */
  predicate HoldsBack(log: seq<Packet>, p: nat, r: nat)
    requires p < |log| && r < |log|
  {
    log[p].BarrierAnd? || Bit(log[r])
  }

  predicate InRange(q: Queue, events: seq<Event>, s: Signal) {
    match s
    case DispatchSignal(h) => h < |q.dispatchValues|
    case SyncSignal(c) => c < |q.syncValues|
    case EventSignal(e) => e < |events|
  }

  function Value(q: Queue, events: seq<Event>, s: Signal): nat
    requires InRange(q, events, s)
  {
    match s
    case DispatchSignal(h) => q.dispatchValues[h]
    case SyncSignal(c) => q.syncValues[c]
    case EventSignal(e) => events[e].signal
  }

  predicate IsZero(q: Queue, events: seq<Event>, s: Signal) {
    InRange(q, events, s) && Value(q, events, s) == 0
  }

  /** pending_queue_packet_count */
  function PendingCount(q: Queue): nat {
    |q.pendingDispatches| + |q.pendingBarriers| + |q.pendingEvents|
  }

  /** has_queue_capacity_locked */
  predicate HasCapacity(q: Queue, required: nat) {
    required != 0 && required <= q.size && PendingCount(q) + required <= q.size
  }

  function Signals(ds: seq<PendingDispatch>): (r: seq<nat>)
    ensures |r| == |ds|
    ensures forall i :: 0 <= i < |ds| ==> r[i] == ds[i].signal
  {
    seq(|ds|, i requires 0 <= i < |ds| => ds[i].signal)
  }

  function Kernargs(ds: seq<PendingDispatch>): (r: seq<nat>)
    ensures |r| == |ds|
    ensures forall i :: 0 <= i < |ds| ==> r[i] == ds[i].kernarg
  {
    seq(|ds|, i requires 0 <= i < |ds| => ds[i].kernarg)
  }

  function FlightSignals(fs: seq<InFlight>): (r: seq<nat>)
    ensures |r| == |fs|
    ensures forall i :: 0 <= i < |fs| ==> r[i] == fs[i].signal
  {
    seq(|fs|, i requires 0 <= i < |fs| => fs[i].signal)
  }

  function FlightKernargs(fs: seq<InFlight>): (r: seq<nat>)
    ensures |r| == |fs|
    ensures forall i :: 0 <= i < |fs| ==> r[i] == fs[i].kernarg
  {
    seq(|fs|, i requires 0 <= i < |fs| => fs[i].kernarg)
  }

  /** Every place a dispatch completion signal of the queue can be. */
  function SignalBag(q: Queue): multiset<nat> {
    multiset(q.signalPool) + multiset(Signals(q.pendingDispatches))
    + multiset(Signals(q.deferred)) + multiset(FlightSignals(q.inFlight))
  }

  /** Every place a kernarg buffer of the queue can be. */
  function KernargBag(q: Queue): multiset<nat> {
    multiset(q.kernargPool) + multiset(Kernargs(q.pendingDispatches))
    + multiset(Kernargs(q.deferred)) + multiset(FlightKernargs(q.inFlight))
  }

  /** The occurrences of an event in the dependency lists of pending barriers. */
  function DepCount(bs: seq<PendingBarrier>, e: nat): nat {
    if bs == [] then 0
    else DepCount(bs[..|bs| - 1], e) + multiset(bs[|bs| - 1].dependencies)[e]
  }

  /** Dependencies that still need a barrier packet on the queue: not named by a
      pending barrier, signal not zero. */
  function Filter(q: Queue, events: seq<Event>, deps: seq<nat>): (r: seq<nat>)
    ensures |r| <= |deps|
  {
    if deps == [] then []
    else
      var tail := Filter(q, events, deps[1..]);
      if NeedsBarrier(q, events, deps[0]) then [deps[0]] + tail else tail
  }

  predicate NeedsBarrier(q: Queue, events: seq<Event>, e: nat) {
    e !in q.active && e < |events| && events[e].signal != 0
  }
}
