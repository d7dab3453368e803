/** How an explicit launch keeps its events alive between reading them and registering
    them, at the level of single lock operations: the registry read lock, the queue lock
    it is handed over to, and the pins of the two slow paths; against record and destroy,
    which take the registry exclusively, pass every queue lock and then check the pins. */
module EventHandoff {
  import opened Common

  /** Where a launch is.  From `Reading` to `Finishing` it may dereference its events. */
  datatype LaunchPc =
    | Reading            // registry read lock
    | PinnedReading      // registry read lock, the queue was contended
    | LockedReading      // registry read lock and queue lock
    | WantQueue          // no lock
    | Locked             // queue lock
    | WantRegistry       // no lock, waiting for capacity
    | HasRegistry        // registry, exclusively
    | HasBoth            // registry exclusively and queue lock
    | Finishing          // registered or given up, about to drop its pins

  datatype Launch = Launch(queue: nat, deps: set<nat>, pinned: bool, pc: LaunchPc)

  /** Where a record or destroy call is. */
  datatype CallPc =
    | Passing(k: nat)    // registry exclusively, has passed the first k queue locks
    | WaitPins           // registry released until the launch pins are gone
    | WaitSyncs          // registry released until the synchronizers are gone
    | Cleared            // registry exclusively, the event is idle
    | ClearedOut         // registry released while waiting for consumers or capacity

  datatype Call = Call(event: nat, destroys: bool, pc: CallPc)

  /** `pins` and `syncs` are the threads behind the two counts. */
  datatype Event = Event(pending: bool, destroying: bool, freed: bool, pins: set<nat>, syncs: set<nat>, epoch: nat)

  datatype State = State(
    readers: set<nat>,
    writer: Option<nat>,
    owner: seq<Option<nat>>,
    events: seq<Event>,
    launches: map<nat, Launch>,
    calls: map<nat, Call>)

  /** What a launch does while it collects its events and takes its queue. */
  datatype LaunchStep =
    | Collect(t: nat, q: nat, deps: set<nat>)
    | TryLock(t: nat)
    | DropRead(t: nat)
    | LockQueue(t: nat)
    | Register(t: nat)
    | Abort(t: nat)
    | Unpin(t: nat)

  /** The slow path of a launch that finds no capacity. */
  datatype SlowStep =
    | SlowPath(t: nat)
    | TakeRegistry(t: nat)
    | TakeBoth(t: nat)
    | WaitProgress(t: nat)
    | Proceed(t: nat)

  /** Record and destroy up to the point where the event is known to be idle. */
  datatype CheckStep =
    | Begin(r: nat, e: nat, destroys: bool)
    | Pass(r: nat)
    | Check(r: nat)
    | Retry(r: nat)

  /** The rest of record and destroy, and threads that synchronize with the event. */
  datatype EventStep =
    | StepOut(r: nat)
    | StepIn(r: nat)
    | Arm(r: nat)
    | Free(r: nat)
    | GiveUp(r: nat)
    | SyncBegin(w: nat, e: nat)
    | SyncEnd(w: nat, e: nat)

  datatype Step = ByLaunch(launch: LaunchStep) | BySlow(slow: SlowStep) | ByCheck(check: CheckStep)
    | ByEvent(event: EventStep)

  predicate Alone(s: State) {
    s.writer.None? && s.readers == {}
  }

  predicate At(s: State, t: nat, pc: LaunchPc) {
    t in s.launches && s.launches[t].pc == pc && s.launches[t].queue < |s.owner|
  }

  predicate QueueFree(s: State, t: nat) {
    t in s.launches && s.launches[t].queue < |s.owner| && s.owner[s.launches[t].queue].None?
  }

  predicate CallAt(s: State, r: nat, pc: CallPc) {
    r in s.calls && s.calls[r].pc == pc && s.calls[r].event < |s.events|
  }

  predicate HoldsRead(pc: LaunchPc) {
    pc == Reading || pc == PinnedReading || pc == LockedReading
  }

  predicate HoldsQueue(pc: LaunchPc) {
    pc == LockedReading || pc == Locked || pc == HasBoth
  }

  predicate HoldsRegistry(pc: LaunchPc) {
    pc == HasRegistry || pc == HasBoth
  }

  predicate CallHolds(pc: CallPc) {
    pc.Passing? || pc == Cleared
  }

  predicate LaunchEnabled(s: State, a: LaunchStep) {
    match a
    case Collect(t, q, deps) =>
      t !in s.launches && t !in s.calls && q < |s.owner| && s.writer.None?
      && forall e :: e in deps ==>
        e < |s.events| && s.events[e].pending && !s.events[e].destroying && !s.events[e].freed
    case TryLock(t) => At(s, t, Reading)
    case DropRead(t) => At(s, t, LockedReading) || At(s, t, PinnedReading)
    case LockQueue(t) => At(s, t, WantQueue) && QueueFree(s, t)
    case Register(t) => At(s, t, Locked)
    case Abort(t) => t in s.launches && s.launches[t].queue < |s.owner| && s.launches[t].pc != Finishing
    case Unpin(t) => At(s, t, Finishing)
  }

  predicate SlowEnabled(s: State, a: SlowStep) {
    match a
    case SlowPath(t) => At(s, t, Locked)
    case TakeRegistry(t) => At(s, t, WantRegistry) && Alone(s)
    case TakeBoth(t) => At(s, t, HasRegistry) && QueueFree(s, t)
    case WaitProgress(t) => At(s, t, HasBoth)
    case Proceed(t) => At(s, t, HasBoth)
  }

  predicate CheckEnabled(s: State, a: CheckStep) {
    match a
    case Begin(r, e, destroys) =>
      r !in s.calls && r !in s.launches && Alone(s) && e < |s.events| && !s.events[e].destroying && !s.events[e].freed
    case Pass(r) => r in s.calls && s.calls[r].pc.Passing? && s.calls[r].pc.k < |s.owner|
      && s.owner[s.calls[r].pc.k].None?
    case Check(r) => CallAt(s, r, Passing(|s.owner|))
    case Retry(r) =>
      Alone(s) && ((CallAt(s, r, WaitPins) && s.events[s.calls[r].event].pins == {})
                   || (CallAt(s, r, WaitSyncs) && s.events[s.calls[r].event].syncs == {}))
  }

  predicate EventEnabled(s: State, a: EventStep) {
    match a
    case StepOut(r) => CallAt(s, r, Cleared)
    case StepIn(r) => CallAt(s, r, ClearedOut) && Alone(s)
    case Arm(r) => CallAt(s, r, Cleared) && !s.calls[r].destroys && !s.events[s.calls[r].event].destroying
    case Free(r) => CallAt(s, r, Cleared) && s.calls[r].destroys
    case GiveUp(r) => r in s.calls && s.calls[r].event < |s.events|
    case SyncBegin(w, e) =>
      Alone(s) && e < |s.events| && s.events[e].pending && !s.events[e].freed && !s.events[e].destroying
      && w !in s.calls && w !in s.events[e].syncs
    case SyncEnd(w, e) => Alone(s) && e < |s.events| && w in s.events[e].syncs && w !in s.calls
  }

  predicate Enabled(s: State, a: Step) {
    match a
    case ByLaunch(x) => LaunchEnabled(s, x)
    case BySlow(x) => SlowEnabled(s, x)
    case ByCheck(x) => CheckEnabled(s, x)
    case ByEvent(x) => EventEnabled(s, x)
  }

  function SetPc(s: State, t: nat, pc: LaunchPc): State
    requires t in s.launches
  {
    s.(launches := s.launches[t := s.launches[t].(pc := pc)])
  }

  function SetCall(s: State, r: nat, pc: CallPc): State
    requires r in s.calls
  {
    s.(calls := s.calls[r := s.calls[r].(pc := pc)])
  }

  function Own(s: State, t: nat, o: Option<nat>): State
    requires t in s.launches && s.launches[t].queue < |s.owner|
  {
    s.(owner := s.owner[s.launches[t].queue := o])
  }

  /** FallbackEventDependencyPins::retain */
  function Pin(s: State, t: nat): (r: State)
    requires t in s.launches
    ensures |r.events| == |s.events|
    ensures forall e :: 0 <= e < |s.events| ==>
      r.events[e] == if e in s.launches[t].deps then s.events[e].(pins := s.events[e].pins + {t}) else s.events[e]
  {
    var l := s.launches[t];
    s.(launches := s.launches[t := l.(pinned := true)],
       events := seq(|s.events|, e requires 0 <= e < |s.events| =>
         if e in l.deps then s.events[e].(pins := s.events[e].pins + {t}) else s.events[e]))
  }

  function Unpinned(events: seq<Event>, t: nat): (r: seq<Event>)
    ensures |r| == |events|
    ensures forall e :: 0 <= e < |events| ==> r[e] == events[e].(pins := events[e].pins - {t})
  {
    seq(|events|, e requires 0 <= e < |events| => events[e].(pins := events[e].pins - {t}))
  }

  function SetEvent(s: State, e: nat, ev: Event): State
    requires e < |s.events|
  {
    s.(events := s.events[e := ev])
  }

  function LaunchNext(s: State, a: LaunchStep): State
    requires LaunchEnabled(s, a)
  {
    match a
    case Collect(t, q, deps) =>
      s.(readers := s.readers + {t}, launches := s.launches[t := Launch(q, deps, false, Reading)])
    case TryLock(t) =>
      if QueueFree(s, t) then SetPc(Own(s, t, Some(t)), t, LockedReading) else SetPc(Pin(s, t), t, PinnedReading)
    case DropRead(t) =>
      SetPc(s, t, if s.launches[t].pc == LockedReading then Locked else WantQueue).(readers := s.readers - {t})
    case LockQueue(t) => SetPc(Own(s, t, Some(t)), t, Locked)
    case Register(t) => SetPc(Own(s, t, None), t, Finishing)
    case Abort(t) =>
      var l := s.launches[t];
      SetPc(if HoldsQueue(l.pc) then Own(s, t, None) else s, t, Finishing)
      .(readers := s.readers - {t}, writer := if HoldsRegistry(l.pc) then None else s.writer)
    case Unpin(t) => s.(events := Unpinned(s.events, t), launches := s.launches - {t})
  }

  function SlowNext(s: State, a: SlowStep): State
    requires SlowEnabled(s, a)
  {
    match a
    case SlowPath(t) => SetPc(Pin(Own(s, t, None), t), t, WantRegistry)
    case TakeRegistry(t) => SetPc(s, t, HasRegistry).(writer := Some(t))
    case TakeBoth(t) => SetPc(Own(s, t, Some(t)), t, HasBoth)
    case WaitProgress(t) => SetPc(Own(s, t, None), t, WantRegistry).(writer := None)
    case Proceed(t) => SetPc(s, t, Locked).(writer := None)
  }

  function CheckNext(s: State, a: CheckStep): State
    requires CheckEnabled(s, a)
  {
    match a
    case Begin(r, e, destroys) =>
      SetEvent(s, e, if destroys then s.events[e].(destroying := true) else s.events[e])
      .(writer := Some(r), calls := s.calls[r := Call(e, destroys, Passing(0))])
    case Pass(r) => SetCall(s, r, Passing(s.calls[r].pc.k + 1))
    case Check(r) =>
      var e := s.calls[r].event;
      if s.events[e].pins != {} then SetCall(s, r, WaitPins).(writer := None)
      else if s.events[e].syncs != {} then SetCall(s, r, WaitSyncs).(writer := None)
      else SetEvent(SetCall(s, r, Cleared), e, s.events[e].(pending := false, syncs := {r}))
    case Retry(r) => SetCall(s, r, Passing(0)).(writer := Some(r))
  }

  function EventNext(s: State, a: EventStep): State
    requires EventEnabled(s, a)
  {
    match a
    case StepOut(r) => SetCall(s, r, ClearedOut).(writer := None)
    case StepIn(r) => SetCall(s, r, Cleared).(writer := Some(r))
    case Arm(r) =>
      var e := s.calls[r].event;
      SetEvent(s, e, s.events[e].(pending := true, epoch := s.events[e].epoch + 1, syncs := s.events[e].syncs - {r}))
      .(writer := None, calls := s.calls - {r})
    case Free(r) =>
      var e := s.calls[r].event;
      SetEvent(s, e, s.events[e].(freed := true, syncs := s.events[e].syncs - {r})).(writer := None,
          calls := s.calls - {r})
    case GiveUp(r) =>
      var e := s.calls[r].event;
      SetEvent(s, e, s.events[e].(syncs := s.events[e].syncs - {r},
                                  destroying := if s.calls[r].destroys then false else s.events[e].destroying))
      .(writer := if CallHolds(s.calls[r].pc) then None else s.writer, calls := s.calls - {r})
    case SyncBegin(w, e) => SetEvent(s, e, s.events[e].(syncs := s.events[e].syncs + {w}))
    case SyncEnd(w, e) => SetEvent(s, e, s.events[e].(syncs := s.events[e].syncs - {w}, pending := false))
  }

  function Next(s: State, a: Step): State
    requires Enabled(s, a)
  {
    match a
    case ByLaunch(x) => LaunchNext(s, x)
    case BySlow(x) => SlowNext(s, x)
    case ByCheck(x) => CheckNext(s, x)
    case ByEvent(x) => EventNext(s, x)
  }

  // -------------------------------------------------------------- the invariant

  type Launches = map<nat, Launch>
  type Calls = map<nat, Call>
  type Events = seq<Event>

  /** Locks are held by whom the program counters say. */
  ghost predicate ReadersOk(readers: set<nat>, writer: Option<nat>, launches: Launches) {
    && (forall t :: t in readers <==> t in launches && HoldsRead(launches[t].pc))
    && (writer.Some? ==> readers == {})
  }

  ghost predicate OwnersOk(owner: seq<Option<nat>>, launches: Launches) {
    && (forall t :: t in launches ==> launches[t].queue < |owner|)
    && (forall t :: t in launches && HoldsQueue(launches[t].pc) ==> owner[launches[t].queue] == Some(t))
  }

  ghost predicate WriterOk(writer: Option<nat>, launches: Launches, calls: Calls) {
    && (forall t :: t in launches && HoldsRegistry(launches[t].pc) ==> writer == Some(t))
    && (forall r :: r in calls && CallHolds(calls[r].pc) ==> writer == Some(r))
    && (forall t :: t in launches ==> t !in calls)
  }

  predicate Protected(l: Launch) {
    l.pinned || l.pc == Reading || l.pc == LockedReading || l.pc == Locked || l.pc == Finishing
  }

  /** A launch without pins holds a lock that protects its events; one with pins is
      counted by each of them. */
  ghost predicate PinsOk(events: Events, launches: Launches) {
    && (forall t :: t in launches ==> Protected(launches[t]))
    && (forall t, e :: t in launches && e in launches[t].deps ==> e < |events|)
    && (forall t, e :: t in launches && launches[t].pinned && e in launches[t].deps ==> t in events[e].pins)
  }

  /** What a call that passed k queue locks knows: no launch on those queues is unpinned. */
  ghost predicate PassedOk(launches: Launches, calls: Calls) {
    forall r, t ::
      r in calls && calls[r].pc.Passing? && t in launches && !launches[t].pinned && launches[t].pc != Finishing ==>
      launches[t].queue >= calls[r].pc.k
  }

  predicate HasCleared(c: Call) {
    c.pc == Cleared || c.pc == ClearedOut
  }

  /** An event a call has cleared is idle, and the call is its only synchronizer. */
  ghost predicate IdleOk(events: Events, calls: Calls) {
    && (forall r :: r in calls ==> calls[r].event < |events|)
    && (forall r :: r in calls && HasCleared(calls[r]) ==>
          !events[calls[r].event].pending && r in events[calls[r].event].syncs)
  }

  /** At most one call has cleared an event. */
  ghost predicate SoleOk(calls: Calls) {
    forall r, x ::
      r in calls && x in calls && HasCleared(calls[r]) && HasCleared(calls[x]) && calls[r].event == calls[x].event ==>
      r == x
  }

  /** The launch has read the event and may still dereference it. */
  predicate Refers(l: Launch, e: nat) {
    l.pc != Finishing && e in l.deps
  }

  /** No launch refers to an event a call has cleared. */
  ghost predicate UnusedOk(launches: Launches, calls: Calls) {
    forall r, t :: r in calls && HasCleared(calls[r]) && t in launches ==> !Refers(launches[t], calls[r].event)
  }

  /** No launch refers to a freed event. */
  ghost predicate LiveOk(events: Events, launches: Launches) {
    forall t, e :: t in launches && e in launches[t].deps && e < |events| && launches[t].pc != Finishing ==>
      !events[e].freed
  }

  ghost predicate Inv(s: State) {
    && ReadersOk(s.readers, s.writer, s.launches)
    && OwnersOk(s.owner, s.launches)
    && WriterOk(s.writer, s.launches, s.calls)
    && PinsOk(s.events, s.launches)
    && PassedOk(s.launches, s.calls)
    && IdleOk(s.events, s.calls)
    && SoleOk(s.calls)
    && UnusedOk(s.launches, s.calls)
    && LiveOk(s.events, s.launches)
  }

  function Init(queues: nat, events: nat): State {
    State({}, None, seq(queues, _ => None), seq(events, _ => Event(false, false, false, {}, {}, 0)), map[], map[])
  }

  lemma InitInv(queues: nat, events: nat)
    ensures Inv(Init(queues, events))
  {
  }

  // ----------------------------------------------------------- steps of launches

  lemma LaunchReaders(s: State, a: LaunchStep)
    requires Inv(s) && LaunchEnabled(s, a)
    ensures ReadersOk(LaunchNext(s, a).readers, LaunchNext(s, a).writer, LaunchNext(s, a).launches)
  {
    hide SoleOk, OwnersOk, PinsOk, PassedOk, IdleOk, UnusedOk, LiveOk;
  }

  lemma LaunchOwners(s: State, a: LaunchStep)
    requires Inv(s) && LaunchEnabled(s, a)
    ensures OwnersOk(LaunchNext(s, a).owner, LaunchNext(s, a).launches)
  {
    hide SoleOk, ReadersOk, WriterOk, PinsOk, PassedOk, IdleOk, UnusedOk, LiveOk;
  }

  lemma LaunchWriter(s: State, a: LaunchStep)
    requires Inv(s) && LaunchEnabled(s, a)
    ensures WriterOk(LaunchNext(s, a).writer, LaunchNext(s, a).launches, LaunchNext(s, a).calls)
  {
    hide SoleOk, OwnersOk, PinsOk, PassedOk, IdleOk, UnusedOk, LiveOk;
  }

  lemma LaunchPins(s: State, a: LaunchStep)
    requires Inv(s) && LaunchEnabled(s, a)
    ensures PinsOk(LaunchNext(s, a).events, LaunchNext(s, a).launches)
  {
    hide SoleOk, ReadersOk, OwnersOk, WriterOk, PassedOk, IdleOk, UnusedOk, LiveOk;
  }

  lemma LaunchPassed(s: State, a: LaunchStep)
    requires Inv(s) && LaunchEnabled(s, a)
    ensures PassedOk(LaunchNext(s, a).launches, LaunchNext(s, a).calls)
  {
    hide SoleOk, ReadersOk, OwnersOk, IdleOk, UnusedOk, LiveOk;
  }

  lemma LaunchIdle(s: State, a: LaunchStep)
    requires Inv(s) && LaunchEnabled(s, a)
    ensures IdleOk(LaunchNext(s, a).events, LaunchNext(s, a).calls) && LaunchNext(s, a).calls == s.calls
  {
    hide SoleOk, ReadersOk, OwnersOk, WriterOk, PinsOk, PassedOk, UnusedOk, LiveOk;
  }

  lemma LaunchUnused(s: State, a: LaunchStep)
    requires Inv(s) && LaunchEnabled(s, a)
    ensures UnusedOk(LaunchNext(s, a).launches, LaunchNext(s, a).calls)
  {
    hide SoleOk, ReadersOk, OwnersOk, WriterOk, PinsOk, PassedOk, LiveOk;
  }

  lemma LaunchLive(s: State, a: LaunchStep)
    requires Inv(s) && LaunchEnabled(s, a)
    ensures LiveOk(LaunchNext(s, a).events, LaunchNext(s, a).launches)
  {
    hide SoleOk, ReadersOk, OwnersOk, WriterOk, PinsOk, PassedOk, IdleOk, UnusedOk;
  }

  lemma SlowReaders(s: State, a: SlowStep)
    requires Inv(s) && SlowEnabled(s, a)
    ensures ReadersOk(SlowNext(s, a).readers, SlowNext(s, a).writer, SlowNext(s, a).launches)
  {
    hide SoleOk, OwnersOk, PinsOk, PassedOk, IdleOk, UnusedOk, LiveOk;
  }

  lemma SlowOwners(s: State, a: SlowStep)
    requires Inv(s) && SlowEnabled(s, a)
    ensures OwnersOk(SlowNext(s, a).owner, SlowNext(s, a).launches)
  {
    hide SoleOk, ReadersOk, WriterOk, PinsOk, PassedOk, IdleOk, UnusedOk, LiveOk;
  }

  lemma SlowWriter(s: State, a: SlowStep)
    requires Inv(s) && SlowEnabled(s, a)
    ensures WriterOk(SlowNext(s, a).writer, SlowNext(s, a).launches, SlowNext(s, a).calls)
  {
    hide SoleOk, OwnersOk, PinsOk, PassedOk, IdleOk, UnusedOk, LiveOk;
  }

  lemma SlowPins(s: State, a: SlowStep)
    requires Inv(s) && SlowEnabled(s, a)
    ensures PinsOk(SlowNext(s, a).events, SlowNext(s, a).launches)
  {
    hide SoleOk, ReadersOk, OwnersOk, WriterOk, PassedOk, IdleOk, UnusedOk, LiveOk;
  }

  lemma SlowPassed(s: State, a: SlowStep)
    requires Inv(s) && SlowEnabled(s, a)
    ensures PassedOk(SlowNext(s, a).launches, SlowNext(s, a).calls)
  {
    hide SoleOk, ReadersOk, OwnersOk, IdleOk, UnusedOk, LiveOk;
  }

  lemma SlowIdle(s: State, a: SlowStep)
    requires Inv(s) && SlowEnabled(s, a)
    ensures IdleOk(SlowNext(s, a).events, SlowNext(s, a).calls) && SlowNext(s, a).calls == s.calls
  {
    hide SoleOk, ReadersOk, OwnersOk, WriterOk, PinsOk, PassedOk, UnusedOk, LiveOk;
  }

  lemma SlowUnused(s: State, a: SlowStep)
    requires Inv(s) && SlowEnabled(s, a)
    ensures UnusedOk(SlowNext(s, a).launches, SlowNext(s, a).calls)
  {
    hide SoleOk, ReadersOk, OwnersOk, WriterOk, PinsOk, PassedOk, LiveOk;
  }

  lemma SlowLive(s: State, a: SlowStep)
    requires Inv(s) && SlowEnabled(s, a)
    ensures LiveOk(SlowNext(s, a).events, SlowNext(s, a).launches)
  {
    hide SoleOk, ReadersOk, OwnersOk, WriterOk, PinsOk, PassedOk, IdleOk, UnusedOk;
  }

  // ----------------------------------------------------- steps of record and destroy

  /** A call that passed every queue lock and finds no pins knows that no launch refers to
      its event. */
  lemma NobodyRefers(s: State, r: nat, t: nat)
    requires Inv(s) && CallAt(s, r, Passing(|s.owner|)) && s.events[s.calls[r].event].pins == {} && t in s.launches
    ensures !Refers(s.launches[t], s.calls[r].event)
  {
  }

  lemma CheckReaders(s: State, a: CheckStep)
    requires Inv(s) && CheckEnabled(s, a)
    ensures ReadersOk(CheckNext(s, a).readers, CheckNext(s, a).writer, CheckNext(s, a).launches)
    ensures OwnersOk(CheckNext(s, a).owner, CheckNext(s, a).launches)
  {
    hide SoleOk, WriterOk, PinsOk, PassedOk, IdleOk, UnusedOk, LiveOk;
  }

  lemma CheckWriter(s: State, a: CheckStep)
    requires Inv(s) && CheckEnabled(s, a)
    ensures WriterOk(CheckNext(s, a).writer, CheckNext(s, a).launches, CheckNext(s, a).calls)
  {
    hide SoleOk, ReadersOk, OwnersOk, PinsOk, PassedOk, IdleOk, UnusedOk, LiveOk;
  }

  lemma CheckPins(s: State, a: CheckStep)
    requires Inv(s) && CheckEnabled(s, a)
    ensures PinsOk(CheckNext(s, a).events, CheckNext(s, a).launches)
  {
    hide SoleOk, ReadersOk, OwnersOk, WriterOk, PassedOk, IdleOk, UnusedOk, LiveOk;
  }

  lemma CheckPassed(s: State, a: CheckStep)
    requires Inv(s) && CheckEnabled(s, a)
    ensures PassedOk(CheckNext(s, a).launches, CheckNext(s, a).calls)
  {
    hide SoleOk, IdleOk, UnusedOk, LiveOk;
  }

  lemma CheckIdle(s: State, a: CheckStep)
    requires Inv(s) && CheckEnabled(s, a)
    ensures IdleOk(CheckNext(s, a).events, CheckNext(s, a).calls)
  {
    hide SoleOk, ReadersOk, OwnersOk, WriterOk, PinsOk, PassedOk, UnusedOk, LiveOk;
  }

  lemma CheckSole(s: State, a: CheckStep)
    requires Inv(s) && CheckEnabled(s, a)
    ensures SoleOk(CheckNext(s, a).calls)
  {
    hide ReadersOk, OwnersOk, WriterOk, PinsOk, PassedOk, UnusedOk, LiveOk;
  }

  lemma CheckUnused(s: State, a: CheckStep)
    requires Inv(s) && CheckEnabled(s, a)
    ensures UnusedOk(CheckNext(s, a).launches, CheckNext(s, a).calls)
  {
    hide SoleOk, ReadersOk, OwnersOk, WriterOk, PinsOk, PassedOk, LiveOk;
    if a.Check? && s.events[s.calls[a.r].event].pins == {} {
      forall t | t in s.launches ensures !Refers(s.launches[t], s.calls[a.r].event) { NobodyRefers(s, a.r, t); }
    }
  }

  lemma CheckLive(s: State, a: CheckStep)
    requires Inv(s) && CheckEnabled(s, a)
    ensures LiveOk(CheckNext(s, a).events, CheckNext(s, a).launches)
  {
    hide SoleOk, ReadersOk, OwnersOk, WriterOk, PinsOk, PassedOk;
  }

  lemma EventReaders(s: State, a: EventStep)
    requires Inv(s) && EventEnabled(s, a)
    ensures ReadersOk(EventNext(s, a).readers, EventNext(s, a).writer, EventNext(s, a).launches)
    ensures OwnersOk(EventNext(s, a).owner, EventNext(s, a).launches)
  {
    hide SoleOk, PinsOk, PassedOk, IdleOk, UnusedOk, LiveOk;
  }

  lemma EventWriter(s: State, a: EventStep)
    requires Inv(s) && EventEnabled(s, a)
    ensures WriterOk(EventNext(s, a).writer, EventNext(s, a).launches, EventNext(s, a).calls)
  {
    hide SoleOk, ReadersOk, OwnersOk, PinsOk, PassedOk, IdleOk, UnusedOk, LiveOk;
  }

  lemma EventPins(s: State, a: EventStep)
    requires Inv(s) && EventEnabled(s, a)
    ensures PinsOk(EventNext(s, a).events, EventNext(s, a).launches)
  {
    hide SoleOk, ReadersOk, OwnersOk, WriterOk, PassedOk, IdleOk, UnusedOk, LiveOk;
  }

  lemma EventPassed(s: State, a: EventStep)
    requires Inv(s) && EventEnabled(s, a)
    ensures PassedOk(EventNext(s, a).launches, EventNext(s, a).calls)
  {
    hide SoleOk, ReadersOk, OwnersOk, WriterOk, PinsOk, IdleOk, UnusedOk, LiveOk;
  }

  lemma EventIdle(s: State, a: EventStep)
    requires Inv(s) && EventEnabled(s, a)
    ensures IdleOk(EventNext(s, a).events, EventNext(s, a).calls)
  {
    hide ReadersOk, OwnersOk, WriterOk, PinsOk, PassedOk, UnusedOk, LiveOk;
  }

  lemma EventSole(s: State, a: EventStep)
    requires Inv(s) && EventEnabled(s, a)
    ensures SoleOk(EventNext(s, a).calls)
  {
    hide ReadersOk, OwnersOk, WriterOk, PinsOk, PassedOk, IdleOk, UnusedOk, LiveOk;
  }

  lemma EventUnused(s: State, a: EventStep)
    requires Inv(s) && EventEnabled(s, a)
    ensures UnusedOk(EventNext(s, a).launches, EventNext(s, a).calls)
  {
    hide SoleOk, ReadersOk, OwnersOk, WriterOk, PinsOk, PassedOk, LiveOk;
  }

  lemma EventLive(s: State, a: EventStep)
    requires Inv(s) && EventEnabled(s, a)
    ensures LiveOk(EventNext(s, a).events, EventNext(s, a).launches)
  {
    hide SoleOk, ReadersOk, OwnersOk, WriterOk, PinsOk, PassedOk;
  }

  lemma KeepStep(s: State, a: Step)
    requires Inv(s) && Enabled(s, a)
    ensures Inv(Next(s, a))
  {
    hide SoleOk, ReadersOk, OwnersOk, WriterOk, PinsOk, PassedOk, IdleOk, UnusedOk, LiveOk;
    match a
    case ByLaunch(x) =>
      LaunchReaders(s, x); LaunchOwners(s, x); LaunchWriter(s, x); LaunchPins(s, x);
      LaunchPassed(s, x); LaunchIdle(s, x); LaunchUnused(s, x); LaunchLive(s, x);
    case BySlow(x) =>
      SlowReaders(s, x); SlowOwners(s, x); SlowWriter(s, x); SlowPins(s, x);
      SlowPassed(s, x); SlowIdle(s, x); SlowUnused(s, x); SlowLive(s, x);
    case ByCheck(x) =>
      CheckReaders(s, x); CheckWriter(s, x); CheckPins(s, x);
      CheckPassed(s, x); CheckIdle(s, x); CheckSole(s, x); CheckUnused(s, x); CheckLive(s, x);
    case ByEvent(x) =>
      EventReaders(s, x); EventWriter(s, x); EventPins(s, x);
      EventPassed(s, x); EventIdle(s, x); EventSole(s, x); EventUnused(s, x); EventLive(s, x);
  }

  // --------------------------------------------------------------------- theorem

  ghost predicate Run(s: State, steps: seq<Step>, s': State)
    decreases |steps|
  {
    if steps == [] then s' == s else Enabled(s, steps[0]) && Run(Next(s, steps[0]), steps[1..], s')
  }

  lemma {:induction false} RunInv(s: State, steps: seq<Step>, s': State)
    requires Inv(s) && Run(s, steps, s')
    ensures Inv(s')
    decreases |steps|
  {
    hide SoleOk, Inv, Enabled, Next;
    if steps != [] {
      KeepStep(s, steps[0]);
      RunInv(Next(s, steps[0]), steps[1..], s');
    }
  }

  /** Over all interleavings, an event is re-armed or freed only when no launch is between
      collecting it and registering it. */
  lemma {:induction false} HandoffSafe(queues: nat, events: nat, steps: seq<Step>, s: State, r: nat, t: nat)
    requires Run(Init(queues, events), steps, s) && t in s.launches
    requires EventEnabled(s, Arm(r)) || EventEnabled(s, Free(r))
    ensures !Refers(s.launches[t], s.calls[r].event)
  {
    hide SoleOk, Run, ReadersOk, OwnersOk, WriterOk, PinsOk, PassedOk, IdleOk, LiveOk, Init;
    InitInv(queues, events);
    RunInv(Init(queues, events), steps, s);
  }

  /** A launch never reads an event that was freed. */
  lemma {:induction false} NeverFreed(queues: nat, events: nat, steps: seq<Step>, s: State, t: nat, e: nat)
    requires Run(Init(queues, events), steps, s) && t in s.launches && Refers(s.launches[t], e)
    ensures e < |s.events| && !s.events[e].freed
  {
    hide SoleOk, Run, ReadersOk, OwnersOk, WriterOk, PassedOk, IdleOk, UnusedOk, Init;
    InitInv(queues, events);
    RunInv(Init(queues, events), steps, s);
  }

  predicate Ends(a: Step, t: nat) {
    a == ByLaunch(Register(t)) || a == ByLaunch(Abort(t)) || a == ByLaunch(Unpin(t))
  }

  lemma LaunchStays(s: State, a: Step, t: nat, e: nat)
    requires Enabled(s, a) && t in s.launches && Refers(s.launches[t], e) && !Ends(a, t)
    ensures t in Next(s, a).launches && Refers(Next(s, a).launches[t], e)
  {
    match a
    case ByLaunch(x) =>
    case BySlow(x) =>
    case ByCheck(x) =>
    case ByEvent(x) =>
  }

  lemma SameEpoch(s: State, a: Step, t: nat, e: nat)
    requires Inv(s) && Enabled(s, a) && t in s.launches && Refers(s.launches[t], e)
    ensures e < |s.events| && e < |Next(s, a).events| && Next(s, a).events[e].epoch == s.events[e].epoch
  {
    hide SoleOk, ReadersOk, OwnersOk, WriterOk, PassedOk, LiveOk;
    match a
    case ByLaunch(x) =>
    case BySlow(x) =>
    case ByCheck(x) =>
    case ByEvent(x) =>
  }

  lemma {:induction false} RunHolds(s: State, steps: seq<Step>, s': State, t: nat, e: nat)
    requires Inv(s) && Run(s, steps, s') && t in s.launches && Refers(s.launches[t], e)
    requires forall a :: a in steps ==> !Ends(a, t)
    ensures Inv(s') && t in s'.launches && Refers(s'.launches[t], e)
    ensures e < |s.events| && e < |s'.events| && s'.events[e].epoch == s.events[e].epoch
    decreases |steps|
  {
    hide Inv, Enabled, Next, Refers, Ends;
    if steps != [] {
      assert !Ends(steps[0], t);
      KeepStep(s, steps[0]);
      LaunchStays(s, steps[0], t, e);
      SameEpoch(s, steps[0], t, e);
      RunHolds(Next(s, steps[0]), steps[1..], s', t, e);
    } else {
      RefersInRange(s, t, e);
    }
  }

  lemma RefersInRange(s: State, t: nat, e: nat)
    requires Inv(s) && t in s.launches && Refers(s.launches[t], e)
    ensures e < |s.events| && !s.events[e].freed
  {
    hide SoleOk, ReadersOk, OwnersOk, WriterOk, PassedOk, IdleOk, UnusedOk;
  }

  /** A launch, from the moment it reads its list until it registers or gives up, through
      either slow path and whatever record and destroy calls do: every event of the list
      stays allocated and keeps the recording it had. */
  lemma {:induction false} CollectedKept(queues: nat, events: nat, before: seq<Step>, s: State, t: nat, q: nat,
                                         deps: set<nat>, after: seq<Step>, s': State, e: nat)
    requires Run(Init(queues, events), before, s) && LaunchEnabled(s, Collect(t, q, deps)) && e in deps
    requires Run(LaunchNext(s, Collect(t, q, deps)), after, s') && forall a :: a in after ==> !Ends(a, t)
    ensures e < |s.events| && e < |s'.events| && !s'.events[e].freed && s'.events[e].epoch == s.events[e].epoch
  {
    hide Inv, Run, Init, Ends;
    InitInv(queues, events);
    RunInv(Init(queues, events), before, s);
    KeepStep(s, ByLaunch(Collect(t, q, deps)));
    RunHolds(LaunchNext(s, Collect(t, q, deps)), after, s', t, e);
    RefersInRange(s', t, e);
  }
}
