/** The whole resident graph: workers schedule the tasks of the program that the phase word
    names, the worker whose increment completes a program's counter takes the transition,
    and the next generation is published, until the predicate, the step bound or the last
    phase state ends the run. */
module ResidentGraph {
  import Bits
  import opened TaskMasks
  import opened QwenTasks
  import opened TaskGraph
  import TaskProgress

  // ------------------------------------------------------------- the phase word

  const MAXIMUM_PROGRAMS: nat := 0x100
  const MAXIMUM_PHASES: nat := 0x100_0000

  /** Generation and program in one 32-bit word. */
  function MakePhase(generation: nat, program: nat): nat
    requires program < MAXIMUM_PROGRAMS
  {
    generation * MAXIMUM_PROGRAMS % WORD_SIZE + program
  }

  function PhaseGeneration(phase: nat): nat {
    phase / MAXIMUM_PROGRAMS
  }

  function PhaseProgram(phase: nat): nat {
    phase % MAXIMUM_PROGRAMS
  }

  /** The bound on the number of phase states is what makes the packing lossless. */
  lemma PhaseRoundTrip(generation: nat, program: nat)
    requires program < MAXIMUM_PROGRAMS
    ensures PhaseProgram(MakePhase(generation, program)) == program
    ensures PhaseGeneration(MakePhase(generation, program)) == generation <==> generation < MAXIMUM_PHASES
  {
    var shifted := generation * MAXIMUM_PROGRAMS;
    assert shifted % WORD_SIZE == generation % MAXIMUM_PHASES * MAXIMUM_PROGRAMS by {
      var q, r := generation / MAXIMUM_PHASES, generation % MAXIMUM_PHASES;
      assert shifted == q * WORD_SIZE + r * MAXIMUM_PROGRAMS;
    }
  }

  // ------------------------------------------------------------- graphs

  datatype Node = Node(program: Program, next: nat, advances: bool, evaluates: bool, branches: bool, branch: nat)

  /** `initial` is the program the host publishes first. */
  datatype Graph = Graph(nodes: seq<Node>, initial: nat, maxSteps: nat, stop: nat, phases: nat)

  ghost predicate NodeOk(n: Node, programs: nat) {
    && WellFormed(n.program)
    && n.next < programs
    && (n.branches ==> n.branch < programs)
  }

  /** What the validation on the host and on the device leaves. */
  ghost predicate GraphOk(g: Graph) {
    && g.initial < |g.nodes| <= MAXIMUM_PROGRAMS
    && 0 < g.phases <= MAXIMUM_PHASES
    && (forall i :: 0 <= i < |g.nodes| ==> NodeOk(g.nodes[i], |g.nodes|))
  }

  datatype Status = StillRunning | Completed | MaxSteps | InvalidProgram

  /** A control word; one that is not among the cells reads as zero. */
  function Word(m: Memory, c: Cell): nat {
    if c in m then m[c] else 0
  }

  // ------------------------------------------------------------- the reference

  /** One program after the other, each in index order. */
  datatype Config = Config(memory: Memory, program: nat, executed: nat, status: Status)

  function Bump(n: Node, m: Memory): (r: Memory)
    ensures r.Keys == m.Keys
  {
    if n.advances && StepCount in m then m[StepCount := m[StepCount] + 1] else m
  }

  /** What the transition owner decides. */
  function Verdict(g: Graph, n: Node, m: Memory, generation: nat): Status {
    if n.evaluates && Word(m, PredicateValue) >= g.stop then Completed
    else if Word(m, StepCount) >= g.maxSteps then MaxSteps
    else if generation + 1 >= g.phases then InvalidProgram
    else StillRunning
  }

  function Successor(n: Node, m: Memory): nat {
    if n.branches && Word(m, BranchValue) != 0 then n.branch else n.next
  }

  function Finished(n: Node, f: Arithmetic, m: Memory): Memory
    requires n.program.shape.Valid()
  {
    Bump(n, Sequential(n.program.shape, f, m, n.program.tasks, |n.program.tasks|))
  }

  function After(g: Graph, f: Arithmetic, c: Config, generation: nat): (r: Config)
    requires c.program < |g.nodes| && g.nodes[c.program].program.shape.Valid()
  {
    var n := g.nodes[c.program];
    var m := Finished(n, f, c.memory);
    var verdict := Verdict(g, n, m, generation);
    Config(m, if verdict == StillRunning then Successor(n, m) else c.program, c.executed + |n.program.tasks|, verdict)
  }

  ghost function Trace(g: Graph, f: Arithmetic, m: Memory, k: nat): (c: Config)
    requires GraphOk(g)
    ensures c.program < |g.nodes|
  {
    if k == 0 then Config(m, g.initial, 0, StillRunning)
    else
      var c := Trace(g, f, m, k - 1);
      assert NodeOk(g.nodes[c.program], |g.nodes|);
      if c.status != StillRunning then c else After(g, f, c, k - 1)
  }

  // ------------------------------------------------------------- the machine

  /** How far the worker whose increment completed the counter has come. */
  datatype Role = Elected | Advanced | Gone

  /** One phase state: the masks, what the tasks claimed under it have loaded and stored,
      which of them were counted, and the workers that found the counter complete, by task. */
  datatype Gen = Gen(program: nat, claimed: Words, completed: Words, seen: map<nat, Words>,
                     loaded: seq<Memory>, stored: seq<set<Cell>>, counted: set<nat>, count: nat, owners: map<nat, Role>)

  datatype World = World(memory: Memory, gens: seq<Gen>, phase: nat, status: Status, executed: nat)

  /** What a run leaves behind. */
  datatype Now = Now(memory: Memory, status: Status, executed: nat)

  function Left(w: World): Now {
    Now(w.memory, w.status, w.executed)
  }

  function Outcome(c: Config): Now {
    Now(c.memory, c.status, c.executed)
  }

  /** A worker acts on any generation published so far: a phase word it loaded earlier may
      be out of date by the time it uses it. */
  datatype Move =
    | Schedule(generation: nat, step: Step)
    | Count(generation: nat, task: nat)
    | Advance(generation: nat, task: nat)
    | Decide(generation: nat, task: nat)

  function NewGen(g: Graph, program: nat): Gen
    requires program < |g.nodes|
  {
    var n := |g.nodes[program].program.tasks|;
    Gen(program, Words(0, 0), Words(0, 0), map[], seq(n, _ => map[]), seq(n, _ => {}), {}, 0, map[])
  }

  function Start(g: Graph, m: Memory): World
    requires g.initial < |g.nodes| <= MAXIMUM_PROGRAMS
  {
    World(m, [NewGen(g, g.initial)], MakePhase(0, g.initial), StillRunning, 0)
  }

  function View(m: Memory, x: Gen): State {
    State(m, x.claimed, x.completed, x.seen, x.loaded, x.stored)
  }

  function Scheduled(x: Gen, st: State): Gen {
    x.(claimed := st.claimed, completed := st.completed, seen := st.seen, loaded := st.loaded, stored := st.stored)
  }

  /** The counter is incremented once per completed task; the last increment elects. */
  function Counted(x: Gen, n: nat, t: nat): Gen {
    x.(counted := x.counted + {t}, count := x.count + 1,
       owners := if x.count + 1 == n then x.owners[t := Elected] else x.owners)
  }

  ghost predicate Published(g: Graph, w: World, generation: nat) {
    && generation < |w.gens|
    && w.gens[generation].program < |g.nodes|
    && g.nodes[w.gens[generation].program].program.shape.Valid()
  }

  ghost function NodeOf(g: Graph, w: World, generation: nat): Node
    requires Published(g, w, generation)
  {
    g.nodes[w.gens[generation].program]
  }

  ghost predicate Can(g: Graph, w: World, a: Move) {
    && Published(g, w, a.generation)
    && var x := w.gens[a.generation];
       match a
       case Schedule(k, step) => TaskGraph.Can(NodeOf(g, w, k).program, View(w.memory, x), step)
       case Count(k, t) => t < |NodeOf(g, w, k).program.tasks| && Has(x.completed, t) && t !in x.counted
       case Advance(_, t) => t in x.owners && x.owners[t] == Elected
       case Decide(_, t) => t in x.owners && x.owners[t] == Advanced
  }

  /** The next program, if there is one, is published under the next generation. */
  ghost function Publish(g: Graph, w: World, k: nat): World
    requires GraphOk(g) && Published(g, w, k)
  {
    var n := NodeOf(g, w, k);
    var verdict := Verdict(g, n, w.memory, k);
    assert NodeOk(n, |g.nodes|);
    if verdict != StillRunning then w.(status := verdict)
    else
      var phase := MakePhase(k + 1, Successor(n, w.memory));
      PhaseRoundTrip(k + 1, Successor(n, w.memory));
      w.(phase := phase, gens := w.gens + [NewGen(g, PhaseProgram(phase))])
  }

  ghost function Do(g: Graph, f: Arithmetic, w: World, a: Move): World
    requires GraphOk(g) && Can(g, w, a)
  {
    var x := w.gens[a.generation];
    match a
    case Schedule(k, step) =>
      var st := TaskGraph.Do(NodeOf(g, w, k).program, f, View(w.memory, x), step);
      w.(memory := st.memory, gens := w.gens[k := Scheduled(x, st)])
    case Count(k, t) => w.(gens := w.gens[k := Counted(x, |NodeOf(g, w, k).program.tasks|, t)])
    case Advance(k, t) =>
      w.(memory := Bump(NodeOf(g, w, k), w.memory), executed := w.executed + |NodeOf(g, w, k).program.tasks|,
         gens := w.gens[k := x.(owners := x.owners[t := Advanced])])
    case Decide(k, t) => Publish(g, w.(gens := w.gens[k := x.(owners := x.owners[t := Gone])]), k)
  }

  ghost predicate Run(g: Graph, f: Arithmetic, w: World, moves: seq<Move>, w': World)
    requires GraphOk(g)
    decreases |moves|
  {
    if moves == [] then w' == w
    else Can(g, w, moves[0]) && Run(g, f, Do(g, f, w, moves[0]), moves[1..], w')
  }

  // ------------------------------------------------------------- invariant

  /** Only completed tasks are counted, each once; there is one owner once all are counted
      and none before. */
  ghost predicate CountsOk(x: Gen, n: nat) {
    && (forall t :: t in x.counted ==> t < n && Has(x.completed, t))
    && x.count == |x.counted|
    && |x.owners| == (if x.count == n then 1 else 0)
    && (forall t :: t in x.owners ==> t in x.counted)
  }

  ghost predicate AllDone(x: Gen, n: nat) {
    forall t: nat :: t < n ==> Has(x.claimed, t) && Has(x.completed, t)
  }

  ghost predicate Owner(x: Gen, r: Role) {
    x.owners != map[] && forall t :: t in x.owners ==> x.owners[t] == r
  }

  /** The generation is over. */
  ghost predicate Closed(x: Gen, n: nat) {
    CountsOk(x, n) && AllDone(x, n) && Owner(x, Gone) && x.count == n
  }

  ghost predicate OpenOk(p: Program, f: Arithmetic, m: Memory, st: State)
    requires StagesOk(p)
  {
    TaskProgress.InputsLoaded(p, st) && exists s :: TaskGraph.Inv(p, f, m, st, s)
  }

  /** The last generation: still scheduled, owned, or over. */
  ghost predicate CurrentOk(g: Graph, f: Arithmetic, c: Config, next: Config, now: Now, x: Gen)
    requires GraphOk(g) && c.program < |g.nodes|
  {
    assert NodeOk(g.nodes[c.program], |g.nodes|);
    var n := g.nodes[c.program];
    && x.program == c.program && c.status == StillRunning
    && CountsOk(x, |n.program.tasks|)
    && (x.owners != map[] ==> AllDone(x, |n.program.tasks|))
    && (x.owners == map[] || Owner(x, Elected) || Owner(x, Advanced) || Owner(x, Gone))
    && (x.owners == map[] || Owner(x, Elected) ==>
          OpenOk(n.program, f, c.memory, View(now.memory, x)) && now.status == StillRunning
            && now.executed == c.executed)
    && (Owner(x, Advanced) ==>
          now == Now(Finished(n, f, c.memory), StillRunning, c.executed + |n.program.tasks|))
    && (Owner(x, Gone) ==> now == Outcome(next) && next.status != StillRunning)
  }

  ghost predicate Inv(g: Graph, f: Arithmetic, m: Memory, w: World)
    requires GraphOk(g)
  {
    && 0 < |w.gens| <= g.phases
    && PhaseGeneration(w.phase) == |w.gens| - 1 && PhaseProgram(w.phase) == w.gens[|w.gens| - 1].program
    && (forall k :: 0 <= k < |w.gens| - 1 ==>
          && w.gens[k].program == Trace(g, f, m, k).program
          && Closed(w.gens[k], |g.nodes[w.gens[k].program].program.tasks|)
          && Trace(g, f, m, k).status == StillRunning)
    && CurrentOk(g, f, Trace(g, f, m, |w.gens| - 1), Trace(g, f, m, |w.gens|), Left(w), w.gens[|w.gens| - 1])
  }

  // ------------------------------------------------------------- finished generations

  /** A generation whose tasks are all done is only looked at. */
  lemma OnlyLooks(p: Program, f: Arithmetic, m: Memory, x: Gen, step: Step)
    requires p.shape.Valid() && AllDone(x, |p.tasks|) && TaskGraph.Can(p, View(m, x), step)
    ensures TaskGraph.Do(p, f, View(m, x), step).memory == m
    ensures Scheduled(x, TaskGraph.Do(p, f, View(m, x), step)) == x.(seen := TaskGraph.Do(p, f, View(m, x), step).seen)
  {
    hide Has, Join, Bits.And, Writes, Reads;
  }

  lemma {:induction false} Full(s: set<nat>, n: nat, t: nat)
    requires (forall u :: u in s ==> u < n) && |s| == n && t < n
    ensures t in s
  {
    if t !in s { Fewer(s, n, t); }
  }

  lemma {:induction false} Fewer(s: set<nat>, n: nat, t: nat)
    requires (forall u :: u in s ==> u < n) && t < n && t !in s
    ensures |s| < n
  {
    var last := n - 1;
    if last in s {
      assert |s| == |s - {last}| + 1;
      Fewer(s - {last}, last, t);
    } else if last > t {
      Fewer(s, last, t);
    } else {
      AtMost(s, last);
    }
  }

  lemma {:induction false} AtMost(s: set<nat>, n: nat)
    requires forall u :: u in s ==> u < n
    ensures |s| <= n
  {
    if n > 0 {
      var last := n - 1;
      assert |s| <= |s - {last}| + 1;
      AtMost(s - {last}, last);
    } else {
      assert s == {};
    }
  }

  // ------------------------------------------------------------- one move

  lemma StartOk(g: Graph, f: Arithmetic, m: Memory)
    requires GraphOk(g)
    ensures Inv(g, f, m, Start(g, m))
  {
    hide CurrentOk, NewGen, MakePhase, PhaseGeneration, PhaseProgram, NodeOk;
    PhaseRoundTrip(0, g.initial);
    PublishedOk(g, f, Trace(g, f, m, 0), Trace(g, f, m, 1));
  }

  /** A generation that was just published. */
  lemma FreshOk(g: Graph, f: Arithmetic, m: Memory, program: nat)
    requires GraphOk(g) && program < |g.nodes|
    ensures StagesOk(g.nodes[program].program) && |g.nodes[program].program.tasks| > 0
    ensures OpenOk(g.nodes[program].program, f, m, View(m, NewGen(g, program)))
  {
    hide TaskProgress.InputsLoaded, TaskGraph.Inv, DependenciesOk, StagesQuiet;
    assert NodeOk(g.nodes[program], |g.nodes|);
    var p := g.nodes[program].program;
    assert View(m, NewGen(g, program)) == Initial(p, m);
    InitialInv(p, f, m);
    TaskProgress.InitialLoaded(p, m);
    assert p.first[0] < p.first[|p.first| - 1];
  }

  /** Tasks stay completed. */
  lemma StaysCompleted(p: Program, f: Arithmetic, st: State, step: Step, t: nat)
    requires p.shape.Valid() && TaskGraph.Can(p, st, step)
    ensures Has(st.completed, t) ==> Has(TaskGraph.Do(p, f, st, step).completed, t)
    ensures Has(st.claimed, t) ==> Has(TaskGraph.Do(p, f, st, step).claimed, t)
  {
    hide Has, Join, Bits.And, Writes, Reads;
    if step.Complete? { SetHas(st.completed, step.task, t); }
    if step.Claim? { SetHas(st.claimed, step.task, t); }
  }

  lemma OpenStep(p: Program, f: Arithmetic, m: Memory, st: State, step: Step)
    requires WellFormed(p) && OpenOk(p, f, m, st) && TaskGraph.Can(p, st, step)
    ensures OpenOk(p, f, m, TaskGraph.Do(p, f, st, step))
  {
    hide TaskProgress.InputsLoaded, TaskGraph.Inv, DependenciesOk, StagesQuiet, TaskGraph.Can, TaskGraph.Do;
    var s :| TaskGraph.Inv(p, f, m, st, s);
    var u := KeepStep(p, f, m, st, s, step);
    TaskProgress.InputsLoadedStep(p, f, st, step);
  }

  /** Once every task is completed the memory is that of the index order. */
  lemma OpenDone(p: Program, f: Arithmetic, m: Memory, st: State)
    requires WellFormed(p) && OpenOk(p, f, m, st) && AllCompleted(p, st)
    ensures st.memory == Sequential(p.shape, f, m, p.tasks, |p.tasks|)
  {
    hide DependenciesOk, StagesQuiet, Writes, Reads, Has, Sequential;
    var s :| TaskGraph.Inv(p, f, m, st, s);
    LastStage(p, st, s);
    StageMemory(p, f, m, st, s);
  }

  lemma OpenClaimed(p: Program, f: Arithmetic, m: Memory, st: State, t: nat)
    requires StagesOk(p) && OpenOk(p, f, m, st) && Has(st.completed, t)
    ensures Has(st.claimed, t)
  {
    hide Has, Sequential;
    var s :| TaskGraph.Inv(p, f, m, st, s);
  }

  lemma CountsStay(p: Program, f: Arithmetic, m: Memory, x: Gen, step: Step)
    requires p.shape.Valid() && CountsOk(x, |p.tasks|) && TaskGraph.Can(p, View(m, x), step)
    ensures CountsOk(Scheduled(x, TaskGraph.Do(p, f, View(m, x), step)), |p.tasks|)
    ensures AllDone(x, |p.tasks|) ==> AllDone(Scheduled(x, TaskGraph.Do(p, f, View(m, x), step)), |p.tasks|)
  {
    hide Has, TaskGraph.Do, TaskGraph.Can;
    forall t: nat
      ensures Has(x.completed, t) ==> Has(TaskGraph.Do(p, f, View(m, x), step).completed, t)
      ensures Has(x.claimed, t) ==> Has(TaskGraph.Do(p, f, View(m, x), step).claimed, t)
    {
      StaysCompleted(p, f, View(m, x), step, t);
    }
  }

  /** Scheduling under the last generation. */
  lemma ScheduleCurrent(g: Graph, f: Arithmetic, c: Config, next: Config, w: Now, x: Gen, step: Step)
    requires GraphOk(g) && c.program < |g.nodes| && CurrentOk(g, f, c, next, w, x)
    requires NodeOk(g.nodes[c.program], |g.nodes|) && TaskGraph.Can(g.nodes[c.program].program, View(w.memory, x), step)
    ensures var st := TaskGraph.Do(g.nodes[c.program].program, f, View(w.memory, x), step);
            CurrentOk(g, f, c, next, w.(memory := st.memory), Scheduled(x, st))
  {
    hide OpenOk, CountsOk, AllDone, TaskGraph.Can, TaskGraph.Do, DependenciesOk, StagesQuiet, Finished;
    var p := g.nodes[c.program].program;
    var st := TaskGraph.Do(p, f, View(w.memory, x), step);
    CountsStay(p, f, w.memory, x, step);
    if x.owners == map[] || Owner(x, Elected) {
      OpenStep(p, f, c.memory, View(w.memory, x), step);
      assert View(st.memory, Scheduled(x, st)) == st;
    } else {
      OnlyLooks(p, f, w.memory, x, step);
    }
  }

  lemma OneMore(x: Gen, n: nat, t: nat)
    requires CountsOk(x, n) && x.count < n && t < n && Has(x.completed, t) && t !in x.counted
    ensures CountsOk(Counted(x, n, t), n)
    ensures Counted(x, n, t).owners == if x.count + 1 == n then map[t := Elected] else map[]
  {
    hide Has;
    assert x.owners == map[];
    assert |x.counted + {t}| == |x.counted| + 1;
    assert |map[t := Elected]| == 1;
  }

  /** The increment that completes the counter comes after every task. */
  lemma LastCounted(p: Program, f: Arithmetic, m: Memory, st: State, x: Gen)
    requires StagesOk(p) && OpenOk(p, f, m, st) && st == View(st.memory, x)
    requires CountsOk(x, |p.tasks|) && x.count == |p.tasks|
    ensures AllDone(x, |p.tasks|)
  {
    hide Has, OpenOk;
    forall t: nat | t < |p.tasks| ensures Has(x.completed, t) && Has(x.claimed, t) {
      Full(x.counted, |p.tasks|, t);
      OpenClaimed(p, f, m, st, t);
    }
  }

  lemma AtMostOnce(x: Gen, n: nat, t: nat)
    requires CountsOk(x, n) && t < n && t !in x.counted
    ensures x.count < n && x.owners == map[]
  {
    hide Has;
    Fewer(x.counted, n, t);
  }

  lemma CountCurrent(g: Graph, f: Arithmetic, c: Config, next: Config, w: Now, x: Gen, t: nat)
    requires GraphOk(g) && c.program < |g.nodes| && CurrentOk(g, f, c, next, w, x)
    requires t < |g.nodes[c.program].program.tasks| && Has(x.completed, t) && t !in x.counted
    ensures CurrentOk(g, f, c, next, w, Counted(x, |g.nodes[c.program].program.tasks|, t))
  {
    hide OpenOk, CountsOk, AllDone, DependenciesOk, StagesQuiet, Finished, Has;
    assert NodeOk(g.nodes[c.program], |g.nodes|);
    var p := g.nodes[c.program].program;
    var x' := Counted(x, |p.tasks|, t);
    AtMostOnce(x, |p.tasks|, t);
    OneMore(x, |p.tasks|, t);
    assert View(w.memory, x') == View(w.memory, x);
    if x'.count == |p.tasks| { LastCounted(p, f, c.memory, View(w.memory, x'), x'); }
  }

  lemma OnlyOwner(x: Gen, n: nat, t: nat, r: Role)
    requires CountsOk(x, n) && t in x.owners
    ensures x.owners == map[t := x.owners[t]] && x.count == n
    ensures CountsOk(x.(owners := x.owners[t := r]), n) && Owner(x.(owners := x.owners[t := r]), r)
  {
    hide Has;
    assert |x.owners.Keys - {t}| == 0;
    assert x.owners.Keys == {t};
    assert x.owners[t := r].Keys == {t};
  }

  lemma AdvanceCurrent(g: Graph, f: Arithmetic, c: Config, next: Config, w: Now, x: Gen, t: nat)
    requires GraphOk(g) && c.program < |g.nodes| && CurrentOk(g, f, c, next, w, x)
    requires t in x.owners && x.owners[t] == Elected
    ensures var n := g.nodes[c.program];
            CurrentOk(g, f, c, next, w.(memory := Bump(n, w.memory), executed := w.executed + |n.program.tasks|),
                      x.(owners := x.owners[t := Advanced]))
  {
    hide OpenOk, CountsOk, DependenciesOk, StagesQuiet, Has, Sequential, Bump;
    assert NodeOk(g.nodes[c.program], |g.nodes|);
    var p := g.nodes[c.program].program;
    OnlyOwner(x, |p.tasks|, t, Advanced);
    OpenDone(p, f, c.memory, View(w.memory, x));
  }

  lemma TraceStep(g: Graph, f: Arithmetic, m: Memory, k: nat)
    requires GraphOk(g) && Trace(g, f, m, k).status == StillRunning
    ensures NodeOk(g.nodes[Trace(g, f, m, k).program], |g.nodes|)
    ensures Trace(g, f, m, k + 1) == After(g, f, Trace(g, f, m, k), k)
  {
    assert NodeOk(g.nodes[Trace(g, f, m, k).program], |g.nodes|);
  }

  lemma AdvancedNow(g: Graph, f: Arithmetic, c: Config, next: Config, now: Now, x: Gen, t: nat)
    requires GraphOk(g) && c.program < |g.nodes| && CurrentOk(g, f, c, next, now, x)
    requires t in x.owners && x.owners[t] == Advanced
    ensures NodeOk(g.nodes[c.program], |g.nodes|) && c.status == StillRunning && x.program == c.program
    ensures now == Now(Finished(g.nodes[c.program], f, c.memory), StillRunning,
                       c.executed + |g.nodes[c.program].program.tasks|)
    ensures Closed(x.(owners := x.owners[t := Gone]), |g.nodes[c.program].program.tasks|)
  {
    hide OpenOk, CountsOk, Has, Finished, NodeOk;
    OnlyOwner(x, |g.nodes[c.program].program.tasks|, t, Gone);
  }

  lemma EndedOk(g: Graph, f: Arithmetic, c: Config, next: Config, x: Gen)
    requires GraphOk(g) && c.program < |g.nodes| && c.status == StillRunning && x.program == c.program
    requires Closed(x, |g.nodes[c.program].program.tasks|) && next.status != StillRunning
    ensures CurrentOk(g, f, c, next, Outcome(next), x)
  {
    hide OpenOk, CountsOk, AllDone, Finished;
    assert NodeOk(g.nodes[c.program], |g.nodes|);
  }

  lemma PublishedOk(g: Graph, f: Arithmetic, c: Config, next: Config)
    requires GraphOk(g) && c.program < |g.nodes| && c.status == StillRunning
    ensures CurrentOk(g, f, c, next, Now(c.memory, StillRunning, c.executed), NewGen(g, c.program))
    ensures NewGen(g, c.program).program == c.program
  {
    hide OpenOk, CountsOk, Finished, NewGen, NodeOk;
    FreshOk(g, f, c.memory, c.program);
    NewGenOk(g, c.program);
  }

  lemma DecideKeeps(g: Graph, f: Arithmetic, m: Memory, w: World, t: nat)
    requires GraphOk(g) && Inv(g, f, m, w) && Can(g, w, Decide(|w.gens| - 1, t))
    ensures Inv(g, f, m, Do(g, f, w, Decide(|w.gens| - 1, t)))
  {
    hide CurrentOk, Closed, Finished, Trace, NewGen, MakePhase, PhaseGeneration, PhaseProgram, Verdict, Successor,
      NodeOk;
    var k := |w.gens| - 1;
    var x, c, next := w.gens[k], Trace(g, f, m, k), Trace(g, f, m, k + 1);
    var n := g.nodes[c.program];
    AdvancedNow(g, f, c, next, Left(w), x, t);
    TraceStep(g, f, m, k);
    assert next.memory == w.memory && next.executed == w.executed && next.status == Verdict(g, n, w.memory, k);
    if next.status == StillRunning {
      Room(g, n, w.memory, k);
      PhaseRoundTrip(k + 1, next.program);
      PublishedOk(g, f, next, Trace(g, f, m, k + 2));
    } else {
      EndedOk(g, f, c, next, x.(owners := x.owners[t := Gone]));
    }
  }

  lemma Room(g: Graph, n: Node, m: Memory, k: nat)
    requires Verdict(g, n, m, k) == StillRunning
    ensures k + 1 < g.phases
  {
  }

  lemma NewGenOk(g: Graph, program: nat)
    requires program < |g.nodes| && |g.nodes[program].program.tasks| > 0
    ensures var x := NewGen(g, program);
            x.program == program && x.owners == map[] && CountsOk(x, |g.nodes[program].program.tasks|)
  {
  }

  /** A finished generation stays finished. */
  lemma ClosedStays(g: Graph, f: Arithmetic, w: World, a: Move)
    requires GraphOk(g) && Can(g, w, a) && Closed(w.gens[a.generation], |NodeOf(g, w, a.generation).program.tasks|)
    ensures Do(g, f, w, a) == w.(gens := Do(g, f, w, a).gens)
    ensures |Do(g, f, w, a).gens| == |w.gens|
    ensures Do(g, f, w, a).gens == w.gens[a.generation := Do(g, f, w, a).gens[a.generation]]
    ensures Closed(Do(g, f, w, a).gens[a.generation], |NodeOf(g, w, a.generation).program.tasks|)
    ensures Do(g, f, w, a).gens[a.generation].program == w.gens[a.generation].program
  {
    hide Has, TaskGraph.Can, TaskGraph.Do, Publish, AllDone, CountsOk;
    var x, n := w.gens[a.generation], NodeOf(g, w, a.generation);
    match a
    case Schedule(k, step) =>
      OnlyLooks(n.program, f, w.memory, x, step);
      CountsStay(n.program, f, w.memory, x, step);
    case Count(k, t) => AtMostOnce(x, |n.program.tasks|, t);
    case _ =>
  }

  lemma CurrentProgram(g: Graph, f: Arithmetic, c: Config, next: Config, now: Now, x: Gen)
    requires GraphOk(g) && c.program < |g.nodes| && CurrentOk(g, f, c, next, now, x)
    ensures x.program == c.program && NodeOk(g.nodes[c.program], |g.nodes|)
  {
    hide OpenOk, CountsOk, AllDone, Finished, NodeOk;
  }

  lemma KeepCurrent(g: Graph, f: Arithmetic, m: Memory, w: World, a: Move)
    requires GraphOk(g) && Inv(g, f, m, w) && Can(g, w, a) && a.generation == |w.gens| - 1 && !a.Decide?
    ensures Inv(g, f, m, Do(g, f, w, a))
  {
    hide Trace, CurrentOk, Closed, TaskGraph.Can, TaskGraph.Do, Bump, NodeOk, PhaseGeneration, PhaseProgram;
    var k := a.generation;
    var c, next, x := Trace(g, f, m, k), Trace(g, f, m, k + 1), w.gens[k];
    CurrentProgram(g, f, c, next, Left(w), x);
    match a
    case Schedule(_, step) => ScheduleCurrent(g, f, c, next, Left(w), x, step);
    case Count(_, t) => CountCurrent(g, f, c, next, Left(w), x, t);
    case Advance(_, t) => AdvanceCurrent(g, f, c, next, Left(w), x, t);
  }

  lemma KeepMove(g: Graph, f: Arithmetic, m: Memory, w: World, a: Move)
    requires GraphOk(g) && Inv(g, f, m, w) && Can(g, w, a)
    ensures Inv(g, f, m, Do(g, f, w, a))
  {
    hide Trace, CurrentOk, Closed, Do, TaskGraph.Can, PhaseGeneration, PhaseProgram, NodeOk;
    if a.generation < |w.gens| - 1 {
      ClosedStays(g, f, w, a);
    } else if a.Decide? {
      DecideKeeps(g, f, m, w, a.task);
    } else {
      KeepCurrent(g, f, m, w, a);
    }
  }

  lemma {:induction false} RunKeeps(g: Graph, f: Arithmetic, m: Memory, w: World, moves: seq<Move>, w': World)
    requires GraphOk(g) && Inv(g, f, m, w) && Run(g, f, w, moves, w')
    ensures Inv(g, f, m, w')
    decreases |moves|
  {
    hide Inv, Can, Do, GraphOk;
    if moves != [] {
      KeepMove(g, f, m, w, moves[0]);
      RunKeeps(g, f, m, Do(g, f, w, moves[0]), moves[1..], w');
    }
  }

  ghost predicate Reachable(g: Graph, f: Arithmetic, m: Memory, w: World)
    requires GraphOk(g)
  {
    exists moves :: Run(g, f, Start(g, m), moves, w)
  }

  lemma ReachableInv(g: Graph, f: Arithmetic, m: Memory, w: World)
    requires GraphOk(g) && Reachable(g, f, m, w)
    ensures Inv(g, f, m, w)
  {
    hide Inv, Run, NodeOk;
    var moves :| Run(g, f, Start(g, m), moves, w);
    StartOk(g, f, m);
    RunKeeps(g, f, m, Start(g, m), moves, w);
  }

  // ------------------------------------------------------------- theorems

  /** In every generation of every run, at most one worker ever finds the counter complete,
      it does so only when all tasks of the generation are completed and counted, and the
      next generation is published only after it is done. */
  lemma OneOwner(g: Graph, f: Arithmetic, m: Memory, w: World, k: nat)
    requires GraphOk(g) && Reachable(g, f, m, w) && k < |w.gens|
    ensures w.gens[k].program < |g.nodes|
    ensures |w.gens[k].owners| <= 1
    ensures var n := |g.nodes[w.gens[k].program].program.tasks|;
            && (w.gens[k].owners != map[] <==> w.gens[k].count == n)
            && (w.gens[k].owners != map[] ==> AllDone(w.gens[k], n))
            && (k + 1 < |w.gens| ==> Owner(w.gens[k], Gone))
  {
    hide Reachable, Trace, OpenOk, Finished, Has, NodeOk;
    ReachableInv(g, f, m, w);
    var last := |w.gens| - 1;
    CurrentProgram(g, f, Trace(g, f, m, last), Trace(g, f, m, last + 1), Left(w), w.gens[last]);
  }

  /** Where the reference ends. */
  ghost predicate EndsAt(g: Graph, f: Arithmetic, m: Memory, k: nat)
    requires GraphOk(g)
  {
    && Trace(g, f, m, k).status != StillRunning
    && forall j: nat :: j < k ==> Trace(g, f, m, j).status == StillRunning
  }

  /** Whatever the number of workers and however their loads, stores, claims, increments
      and transitions interleave, with workers acting on phases that are long over: a run
      that ended leaves what running one program after the other leaves. */
  lemma EndsAsReference(g: Graph, f: Arithmetic, m: Memory, w: World)
    requires GraphOk(g) && Reachable(g, f, m, w) && w.status != StillRunning
    ensures EndsAt(g, f, m, |w.gens|)
    ensures Left(w) == Outcome(Trace(g, f, m, |w.gens|))
  {
    hide Reachable, Trace, OpenOk, Finished, CountsOk, AllDone;
    ReachableInv(g, f, m, w);
  }

  /** Why a graph ended, said about the buffers it left: it completed exactly when its last
      program evaluates the predicate and the predicate value reached the stop value, even
      when the step budget ran out with the same token; it is out of steps exactly when that
      is not so and the budget is used up; only then do the generations matter. */
  lemma EndReason(g: Graph, f: Arithmetic, m: Memory, w: World)
    requires GraphOk(g) && Reachable(g, f, m, w) && w.status != StillRunning
    ensures |w.gens| > 0 && w.gens[|w.gens| - 1].program < |g.nodes|
    ensures var n := g.nodes[w.gens[|w.gens| - 1].program];
            var stopped := n.evaluates && Word(w.memory, PredicateValue) >= g.stop;
            && (w.status == Completed <==> stopped)
            && (w.status == MaxSteps <==> !stopped && Word(w.memory, StepCount) >= g.maxSteps)
            && (w.status == InvalidProgram <==>
                  !stopped && Word(w.memory, StepCount) < g.maxSteps && |w.gens| >= g.phases)
  {
    hide Reachable, OpenOk, Finished, CountsOk, AllDone;
    ReachableInv(g, f, m, w);
    EndsAsReference(g, f, m, w);
    var c := Trace(g, f, m, |w.gens| - 1);
    assert NodeOk(g.nodes[c.program], |g.nodes|);
  }

  lemma EndsOnce(g: Graph, f: Arithmetic, m: Memory, k: nat, k': nat)
    requires GraphOk(g) && EndsAt(g, f, m, k) && EndsAt(g, f, m, k')
    ensures k == k'
  {
    hide Trace;
  }

  /** Any two runs that ended agree on the buffers, the status and the number of tasks. */
  lemma RunsAgree(g: Graph, f: Arithmetic, m: Memory, w: World, w': World)
    requires GraphOk(g) && Reachable(g, f, m, w) && Reachable(g, f, m, w')
    requires w.status != StillRunning && w'.status != StillRunning
    ensures Left(w) == Left(w') && |w.gens| == |w'.gens|
  {
    hide Reachable, Trace;
    EndsAsReference(g, f, m, w);
    EndsAsReference(g, f, m, w');
    EndsOnce(g, f, m, |w.gens|, |w'.gens|);
  }
}
