/** The resident scheduler running one program: workers load the completed mask word by
    word, claim a ready task with an atomic or, and run it load by load and store by store
    beside the other workers. */
module TaskGraph {
  import opened Bits
  import opened TaskMasks
  import opened QwenTasks

  /** `first` holds the index of the first task of every stage, and the number of tasks last. */
  datatype Program = Program(shape: Shape, tasks: seq<Task>, first: seq<nat>)

  predicate InStage(p: Program, s: nat, t: nat)
    requires s + 1 < |p.first|
  {
    p.first[s] <= t < p.first[s + 1]
  }

  predicate StagesOk(p: Program) {
    && p.shape.Valid()
    && |p.first| >= 2 && p.first[0] == 0 && p.first[|p.first| - 1] == |p.tasks|
    && (forall s, u :: 0 <= s < u < |p.first| ==> p.first[s] < p.first[u])
  }

  predicate InPreviousStage(p: Program, s: nat, u: nat)
    requires s < |p.first|
  {
    s > 0 && InStage(p, s - 1, u)
  }

  /** A task depends on the whole stage before its own, and on nothing else. */
  ghost predicate DependenciesOk(p: Program)
    requires StagesOk(p)
  {
    && (forall t :: 0 <= t < |p.tasks| ==> Narrow(p.tasks[t].dependencies))
    && forall s: nat, t: nat, u: nat :: s < |p.first| - 1 && InStage(p, s, t) ==>
         (Has(p.tasks[t].dependencies, u) <==> InPreviousStage(p, s, u))
  }

  lemma DependsOn(p: Program, s: nat, t: nat, u: nat)
    requires StagesOk(p) && DependenciesOk(p) && s + 1 < |p.first| && InStage(p, s, t)
    ensures Has(p.tasks[t].dependencies, u) <==> InPreviousStage(p, s, u)
  {
  }

  /** Tasks of one stage do not disturb each other. */
  ghost predicate StagesQuiet(p: Program)
    requires StagesOk(p)
  {
    forall s: nat, t: nat, u: nat :: s < |p.first| - 1 && InStage(p, s, t) && InStage(p, s, u) && t != u ==>
      Quiet(p.shape, p.tasks[t], p.tasks[u])
  }

  ghost predicate WellFormed(p: Program) {
    StagesOk(p) && DependenciesOk(p) && StagesQuiet(p)
  }

  // ------------------------------------------------------------- the scheduler

  /** `loaded` and `stored` hold, per task, what it has loaded and which cells it has stored. */
  datatype State = State(memory: Memory, claimed: Words, completed: Words, seen: map<nat, Words>,
                         loaded: seq<Memory>, stored: seq<set<Cell>>)

  datatype Step =
    | LoadLow(worker: nat)
    | LoadHigh(worker: nat)
    | Claim(worker: nat, task: nat)
    | Load(task: nat, target: Cell, cell: Cell)
    | Store(task: nat, cell: Cell)
    | Complete(task: nat)

  function Initial(p: Program, m: Memory): State {
    State(m, Words(0, 0), Words(0, 0), map[], seq(|p.tasks|, _ => map[]), seq(|p.tasks|, _ => {}))
  }

  predicate Running(p: Program, st: State, t: nat) {
    t < |p.tasks| && |st.loaded| == |st.stored| == |p.tasks| && Has(st.claimed, t) && !Has(st.completed, t)
  }

  predicate Can(p: Program, st: State, step: Step)
    requires p.shape.Valid()
  {
    match step
    case LoadLow(_) => true
    case LoadHigh(w) => w in st.seen && |p.tasks| > WORD
    case Claim(w, t) =>
      && w in st.seen && t < |p.tasks| && !Has(st.claimed, t)
      && And(Join(p.tasks[t].dependencies), Join(st.seen[w])) == Join(p.tasks[t].dependencies)
    case Load(t, target, c) =>
      && Running(p, st, t) && c in st.memory && c !in st.stored[t]
      && Writes(p.shape, p.tasks[t], target) && Reads(p.shape, p.tasks[t], target, c)
    case Store(t, c) =>
      && Running(p, st, t) && c in st.memory && Writes(p.shape, p.tasks[t], c) && c !in st.stored[t]
      && forall i :: i in st.memory && Reads(p.shape, p.tasks[t], c, i) ==> i in st.loaded[t]
    case Complete(t) =>
      && Running(p, st, t)
      && forall c :: c in st.memory && Writes(p.shape, p.tasks[t], c) ==> c in st.stored[t]
  }

  function Do(p: Program, f: Arithmetic, st: State, step: Step): State
    requires p.shape.Valid() && Can(p, st, step)
  {
    match step
    case LoadLow(w) => st.(seen := st.seen[w := Words(st.completed.low, 0)])
    case LoadHigh(w) => st.(seen := st.seen[w := st.seen[w].(high := st.completed.high)])
    case Claim(_, t) => st.(claimed := Set(st.claimed, t))
    case Load(t, _, c) =>
      st.(loaded := st.loaded[t := st.loaded[t][c := st.memory[c]]])
    case Store(t, c) =>
      st.(memory := st.memory[c := f(p.tasks[t], c, Inputs(p.shape, p.tasks[t], c, st.loaded[t]))],
          stored := st.stored[t := st.stored[t] + {c}])
    case Complete(t) => st.(completed := Set(st.completed, t))
  }

  predicate CanRun(p: Program, f: Arithmetic, st: State, steps: seq<Step>)
    requires p.shape.Valid()
    decreases |steps|
  {
    steps == [] || (Can(p, st, steps[0]) && CanRun(p, f, Do(p, f, st, steps[0]), steps[1..]))
  }

  function Run(p: Program, f: Arithmetic, st: State, steps: seq<Step>): State
    requires p.shape.Valid() && CanRun(p, f, st, steps)
    decreases |steps|
  {
    if steps == [] then st else Run(p, f, Do(p, f, st, steps[0]), steps[1..])
  }

  predicate AllCompleted(p: Program, st: State) {
    forall t :: 0 <= t < |p.tasks| ==> Has(st.completed, t)
  }

  // ------------------------------------------------------------- a stage in index order

  /** What task `t` of a stage stores at `c`, from the memory before the stage. */
  function Result(p: Program, f: Arithmetic, base: Memory, t: nat, c: Cell): Value
    requires p.shape.Valid() && t < |p.tasks|
  {
    f(p.tasks[t], c, Inputs(p.shape, p.tasks[t], c, base))
  }

  predicate WrittenBefore(p: Program, from: nat, to: nat, c: Cell)
    requires p.shape.Valid() && from <= to <= |p.tasks|
  {
    exists t :: from <= t < to && Writes(p.shape, p.tasks[t], c)
  }

  lemma InputFromBefore(p: Program, s: nat, u: nat, target: Cell, c: Cell)
    requires WellFormed(p) && s + 1 < |p.first| && InStage(p, s, u) && u < |p.tasks|
    requires Writes(p.shape, p.tasks[u], target) && Reads(p.shape, p.tasks[u], target, c)
    ensures !WrittenBefore(p, p.first[s], u, c)
  {
    hide Writes, Reads, Quiet, DependenciesOk;
    forall t | p.first[s] <= t < u ensures !Writes(p.shape, p.tasks[t], c) {
      assert InStage(p, s, t);
      QuietInput(p.shape, p.tasks[t], p.tasks[u], target, c);
    }
  }

  /** `now` is the memory after the tasks from `from` on, below `n`, all computed from `base`. */
  predicate SoFar(p: Program, f: Arithmetic, base: Memory, now: Memory, from: nat, n: nat)
    requires p.shape.Valid() && from <= n <= |p.tasks| && now.Keys == base.Keys
  {
    && (forall c, t :: c in now && from <= t < n && Writes(p.shape, p.tasks[t], c) ==>
      now[c] == Result(p, f, base, t, c))
    && (forall c :: c in now && !WrittenBefore(p, from, n, c) ==> now[c] == base[c])
  }

  /** The next task of the stage still sees its inputs as they were before the stage. */
  lemma SameInputs(p: Program, f: Arithmetic, base: Memory, last: Memory, s: nat, n: nat, c: Cell)
    requires WellFormed(p) && s + 1 < |p.first| && InStage(p, s, n) && n < |p.tasks| && last.Keys == base.Keys
    requires SoFar(p, f, base, last, p.first[s], n) && Writes(p.shape, p.tasks[n], c)
    ensures Inputs(p.shape, p.tasks[n], c, last) == Inputs(p.shape, p.tasks[n], c, base)
  {
    hide Writes, Reads, DependenciesOk, StagesQuiet, Result;
    forall i | i in base && Reads(p.shape, p.tasks[n], c, i) ensures last[i] == base[i] {
      InputFromBefore(p, s, n, c, i);
    }
  }

  lemma OneMore(p: Program, f: Arithmetic, base: Memory, last: Memory, s: nat, n: nat)
    requires WellFormed(p) && s + 1 < |p.first| && InStage(p, s, n) && n < |p.tasks| && last.Keys == base.Keys
    requires SoFar(p, f, base, last, p.first[s], n)
    ensures SoFar(p, f, base, Execute(p.shape, f, last, p.tasks[n]), p.first[s], n + 1)
  {
    hide Writes, Reads, DependenciesOk, Inputs, Quiet;
    var now := Execute(p.shape, f, last, p.tasks[n]);
    forall c, t | c in now && p.first[s] <= t < n + 1 && Writes(p.shape, p.tasks[t], c)
      ensures now[c] == Result(p, f, base, t, c) {
      if t == n {
        SameInputs(p, f, base, last, s, n, c);
      } else {
        assert InStage(p, s, t);
        QuietOutput(p.shape, p.tasks[n], p.tasks[t], c);
      }
    }
    forall c | c in now && !WrittenBefore(p, p.first[s], n + 1, c) ensures now[c] == base[c] {
      assert !Writes(p.shape, p.tasks[n], c);
      assert !WrittenBefore(p, p.first[s], n, c);
    }
  }

  /** In index order, the tasks of a stage all see the memory from before the stage. */
  lemma {:induction false} StageInOrder(p: Program, f: Arithmetic, m: Memory, s: nat, n: nat)
    requires WellFormed(p) && p.shape.Valid() && s + 1 < |p.first| && p.first[s] <= n <= p.first[s + 1] <= |p.tasks|
    ensures SoFar(p, f, Sequential(p.shape, f, m, p.tasks, p.first[s]), Sequential(p.shape, f, m, p.tasks, n),
                  p.first[s], n)
    decreases n
  {
    hide *;
    if n == p.first[s] {
      NothingYet(p, f, Sequential(p.shape, f, m, p.tasks, n), n);
    } else {
      StageInOrder(p, f, m, s, n - 1);
      StageIndex(p, s, n - 1);
      OneMore(p, f, Sequential(p.shape, f, m, p.tasks, p.first[s]), Sequential(p.shape, f, m, p.tasks, n - 1), s,
              n - 1);
      SequentialStep(p, f, m, n);
    }
  }

  lemma NothingYet(p: Program, f: Arithmetic, base: Memory, n: nat)
    requires p.shape.Valid() && n <= |p.tasks|
    ensures SoFar(p, f, base, base, n, n)
  {
  }

  lemma StageIndex(p: Program, s: nat, t: nat)
    requires s + 1 < |p.first| && p.first[s] <= t < p.first[s + 1]
    ensures InStage(p, s, t)
  {
  }

  lemma SequentialStep(p: Program, f: Arithmetic, m: Memory, n: nat)
    requires p.shape.Valid() && 0 < n <= |p.tasks|
    ensures Sequential(p.shape, f, m, p.tasks, n)
      == Execute(p.shape, f, Sequential(p.shape, f, m, p.tasks, n - 1), p.tasks[n - 1])
  {
  }

  // ------------------------------------------------------------- invariant

  /** The words loaded by workers never run ahead of the completed mask, and a completed
      task was claimed. */
  ghost predicate MasksOk(claimed: Words, completed: Words, seen: map<nat, Words>) {
    && Narrow(completed)
    && (forall w :: w in seen ==> Narrow(seen[w]) && Within(seen[w], completed))
    && (forall t: nat :: Has(completed, t) ==> Has(claimed, t))
  }

  /** Stage `s` is open: all stages before it are completed, no later one is claimed. */
  ghost predicate OpenStage(p: Program, claimed: Words, completed: Words, s: nat)
    requires StagesOk(p)
  {
    && s + 1 < |p.first|
    && (forall t: nat :: t < p.first[s] ==> Has(completed, t))
    && (forall t: nat :: p.first[s + 1] <= t < |p.tasks| ==> !Has(claimed, t))
  }

  predicate LoadedOk(p: Program, loaded: seq<Memory>, base: Memory, s: nat)
    requires StagesOk(p) && s + 1 < |p.first| && |loaded| == |p.tasks|
  {
    forall t: nat, c :: t < |p.tasks| && InStage(p, s, t) && c in loaded[t] ==> c in base && loaded[t][c] == base[c]
  }

  predicate StoredOk(p: Program, stored: seq<set<Cell>>, cells: set<Cell>, s: nat)
    requires StagesOk(p) && s + 1 < |p.first| && |stored| == |p.tasks|
  {
    && (forall t: nat :: t < |p.tasks| && InStage(p, s, t) ==> stored[t] <= cells)
    && (forall t: nat, c :: t < |p.tasks| && InStage(p, s, t) && c in stored[t] ==> Writes(p.shape, p.tasks[t], c))
  }

  predicate Untouched(p: Program, stored: seq<set<Cell>>, s: nat, c: Cell)
    requires StagesOk(p) && s + 1 < |p.first| && |stored| == |p.tasks|
  {
    forall t: nat :: t < |p.tasks| && InStage(p, s, t) ==> c !in stored[t]
  }

  predicate MemoryOk(p: Program, f: Arithmetic, memory: Memory, stored: seq<set<Cell>>, base: Memory, s: nat)
    requires StagesOk(p) && s + 1 < |p.first| && |stored| == |p.tasks|
  {
    && memory.Keys == base.Keys
    && (forall t: nat, c :: t < |p.tasks| && InStage(p, s, t) && c in stored[t] && c in memory ==>
          memory[c] == Result(p, f, base, t, c))
    && (forall c :: c in memory && Untouched(p, stored, s, c) ==> memory[c] == base[c])
  }

  ghost predicate DoneOk(p: Program, completed: Words, cells: set<Cell>, stored: seq<set<Cell>>, s: nat)
    requires StagesOk(p) && s + 1 < |p.first| && |stored| == |p.tasks|
  {
    forall t: nat, c ::
      t < |p.tasks| && InStage(p, s, t) && Has(completed, t) && c in cells && Writes(p.shape, p.tasks[t], c) ==>
      c in stored[t]
  }

  ghost predicate FreshOk(p: Program, claimed: Words, loaded: seq<Memory>, stored: seq<set<Cell>>)
    requires |loaded| == |stored| == |p.tasks|
  {
    forall t: nat :: t < |p.tasks| && !Has(claimed, t) ==> loaded[t] == map[] && stored[t] == {}
  }

  function Base(p: Program, f: Arithmetic, m: Memory, s: nat): (r: Memory)
    requires StagesOk(p) && s < |p.first|
    ensures r.Keys == m.Keys
  {
    assert p.first[s] <= |p.tasks|;
    Sequential(p.shape, f, m, p.tasks, p.first[s])
  }

  ghost predicate Inv(p: Program, f: Arithmetic, m: Memory, st: State, s: nat)
    requires StagesOk(p)
  {
    && |st.loaded| == |st.stored| == |p.tasks|
    && st.memory.Keys == m.Keys
    && MasksOk(st.claimed, st.completed, st.seen)
    && OpenStage(p, st.claimed, st.completed, s)
    && LoadedOk(p, st.loaded, Base(p, f, m, s), s)
    && StoredOk(p, st.stored, m.Keys, s)
    && MemoryOk(p, f, st.memory, st.stored, Base(p, f, m, s), s)
    && DoneOk(p, st.completed, m.Keys, st.stored, s)
    && FreshOk(p, st.claimed, st.loaded, st.stored)
  }

  lemma InitialInv(p: Program, f: Arithmetic, m: Memory)
    requires WellFormed(p)
    ensures Inv(p, f, m, Initial(p, m), 0)
  {
    hide Writes, Reads, DependenciesOk, StagesQuiet;
    forall t: nat ensures !Has(Words(0, 0), t) {
      ZeroBit(t);
      if t >= WORD { ZeroBit(t - WORD); }
    }
  }

  /** A running task belongs to the open stage. */
  lemma RunningInStage(p: Program, st: State, s: nat, t: nat)
    requires StagesOk(p) && OpenStage(p, st.claimed, st.completed, s) && Running(p, st, t)
    ensures InStage(p, s, t)
  {
  }

  /** Nobody in the stage has stored a cell that a running task still has to load. */
  lemma InputUntouched(p: Program, st: State, cells: set<Cell>, s: nat, t: nat, target: Cell, c: Cell)
    requires WellFormed(p) && s + 1 < |p.first| && InStage(p, s, t) && Can(p, st, Load(t, target, c))
    requires StoredOk(p, st.stored, cells, s)
    ensures Untouched(p, st.stored, s, c)
  {
    hide Writes, Reads, DependenciesOk, Has, Narrow;
    forall u: nat | u < |p.tasks| && InStage(p, s, u) && u != t ensures c !in st.stored[u] {
      QuietInput(p.shape, p.tasks[u], p.tasks[t], target, c);
    }
  }

  lemma KeepLoad(p: Program, f: Arithmetic, m: Memory, st: State, s: nat, t: nat, target: Cell, c: Cell)
    requires WellFormed(p) && Inv(p, f, m, st, s) && Can(p, st, Load(t, target, c))
    ensures Inv(p, f, m, Do(p, f, st, Load(t, target, c)), s)
  {
    hide Writes, Reads, DependenciesOk, StagesQuiet, Has, Narrow, MasksOk, Sequential, Untouched, StoredOk, DoneOk;
    RunningInStage(p, st, s, t);
    InputUntouched(p, st, m.Keys, s, t, target, c);
  }

  lemma StoreAlone(p: Program, st: State, cells: set<Cell>, s: nat, t: nat, u: nat, c: Cell)
    requires WellFormed(p) && s + 1 < |p.first| && InStage(p, s, t) && InStage(p, s, u) && t != u && u < |p.tasks|
    requires Can(p, st, Store(t, c)) && StoredOk(p, st.stored, cells, s)
    ensures c !in st.stored[u]
  {
    hide Writes, Reads, DependenciesOk, Has, Narrow;
    QuietOutput(p.shape, p.tasks[u], p.tasks[t], c);
  }

  lemma StoreMemory(p: Program, f: Arithmetic, base: Memory, st: State, s: nat, t: nat, c: Cell, value: Value)
    requires StagesOk(p) && s + 1 < |p.first| && InStage(p, s, t) && t < |p.tasks| == |st.stored|
    requires MemoryOk(p, f, st.memory, st.stored, base, s) && c in base && value == Result(p, f, base, t, c)
    requires forall u: nat :: u < |p.tasks| && InStage(p, s, u) && u != t ==> c !in st.stored[u]
    ensures MemoryOk(p, f, st.memory[c := value], st.stored[t := st.stored[t] + {c}], base, s)
  {
    hide Writes, Reads, Result;
    var stored := st.stored[t := st.stored[t] + {c}];
    assert !Untouched(p, stored, s, c) by {
      assert c in stored[t];
    }
    forall d | d != c && Untouched(p, stored, s, d) ensures Untouched(p, st.stored, s, d) {
      forall u: nat | u < |p.tasks| && InStage(p, s, u) ensures d !in st.stored[u] {
        assert d !in stored[u];
      }
    }
  }

  lemma KeepStore(p: Program, f: Arithmetic, m: Memory, st: State, s: nat, t: nat, c: Cell)
    requires WellFormed(p) && Inv(p, f, m, st, s) && Can(p, st, Store(t, c))
    ensures Inv(p, f, m, Do(p, f, st, Store(t, c)), s)
  {
    hide Writes, Reads, DependenciesOk, StagesQuiet, Has, Narrow, MasksOk, Sequential, Untouched;
    RunningInStage(p, st, s, t);
    var base := Base(p, f, m, s);
    assert Inputs(p.shape, p.tasks[t], c, st.loaded[t]) == Inputs(p.shape, p.tasks[t], c, base);
    forall u: nat | u < |p.tasks| && InStage(p, s, u) && u != t ensures c !in st.stored[u] {
      StoreAlone(p, st, m.Keys, s, t, u, c);
    }
    StoreMemory(p, f, base, st, s, t, c, Result(p, f, base, t, c));
    hide MemoryOk;
  }

  lemma KeepComplete(p: Program, f: Arithmetic, m: Memory, st: State, s: nat, t: nat)
    requires WellFormed(p) && Inv(p, f, m, st, s) && Can(p, st, Complete(t))
    ensures Inv(p, f, m, Do(p, f, st, Complete(t)), s)
  {
    hide Writes, Reads, DependenciesOk, StagesQuiet, Has, Narrow, Sequential, MemoryOk, LoadedOk, StoredOk, FreshOk;
    RunningInStage(p, st, s, t);
    SetNarrow(st.completed, t);
    forall u: nat ensures Has(Set(st.completed, t), u) <==> Has(st.completed, u) || u == t {
      SetHas(st.completed, t, u);
    }
  }

  lemma KeepLoadWord(p: Program, f: Arithmetic, m: Memory, st: State, s: nat, step: Step)
    requires WellFormed(p) && Inv(p, f, m, st, s) && Can(p, st, step) && (step.LoadLow? || step.LoadHigh?)
    ensures Inv(p, f, m, Do(p, f, st, step), s)
  {
    hide Writes, Reads, DependenciesOk, StagesQuiet, Sequential, MemoryOk, LoadedOk, StoredOk, FreshOk, DoneOk,
      OpenStage;
    var r := Do(p, f, st, step);
    forall t: nat | Has(r.seen[step.worker], t) ensures Has(st.completed, t) {
      if step.LoadLow? {
        if t >= WORD { ZeroBit(t - WORD); }
      } else {
        assert Within(st.seen[step.worker], st.completed);
        assert t < WORD ==> Has(st.seen[step.worker], t);
      }
    }
  }

  ghost predicate StageDone(p: Program, st: State, s: nat)
    requires StagesOk(p) && s + 1 < |p.first|
  {
    forall t: nat :: t < |p.tasks| && InStage(p, s, t) ==> Has(st.completed, t)
  }

  /** Once the open stage is completed, the memory is that of the index order. */
  lemma StageMemory(p: Program, f: Arithmetic, m: Memory, st: State, s: nat)
    requires WellFormed(p) && Inv(p, f, m, st, s) && StageDone(p, st, s)
    ensures st.memory == Base(p, f, m, s + 1)
  {
    hide Writes, Reads, DependenciesOk, StagesQuiet, Has, Narrow, Sequential, Result, MasksOk;
    var base, next := Base(p, f, m, s), Base(p, f, m, s + 1);
    var lo, hi := p.first[s], p.first[s + 1];
    StageInOrder(p, f, m, s, hi);
    forall c | c in m ensures st.memory[c] == next[c] {
      if WrittenBefore(p, lo, hi, c) {
        var t: nat :| lo <= t < hi && Writes(p.shape, p.tasks[t], c);
        assert InStage(p, s, t) && c in st.stored[t];
      } else {
        forall t: nat | t < |p.tasks| && InStage(p, s, t) ensures c !in st.stored[t] {
          assert !Writes(p.shape, p.tasks[t], c);
        }
        assert Untouched(p, st.stored, s, c);
      }
    }
  }

  /** The next stage is then open, with nothing loaded or stored yet. */
  lemma Advance(p: Program, f: Arithmetic, m: Memory, st: State, s: nat)
    requires WellFormed(p) && Inv(p, f, m, st, s) && StageDone(p, st, s) && s + 2 < |p.first|
    ensures Inv(p, f, m, st, s + 1)
  {
    hide Writes, Reads, DependenciesOk, StagesQuiet, Has, Narrow, Sequential, Result, MasksOk;
    StageMemory(p, f, m, st, s);
    forall t: nat | t < |p.tasks| && InStage(p, s + 1, t) ensures !Has(st.claimed, t) && !Has(st.completed, t) {
      assert p.first[s + 1] <= t;
      NotCompleted(st, t);
    }
  }

  lemma NotCompleted(st: State, t: nat)
    requires MasksOk(st.claimed, st.completed, st.seen) && !Has(st.claimed, t)
    ensures !Has(st.completed, t)
  {
  }

  /** A ready task belongs to the open stage, or to the next one and the open one is done. */
  lemma ReadyStage(p: Program, st: State, s: nat, w: nat, t: nat, u: nat)
    requires WellFormed(p) && MasksOk(st.claimed, st.completed, st.seen)
    requires OpenStage(p, st.claimed, st.completed, s) && Can(p, st, Claim(w, t))
    requires u + 1 < |p.first| && InStage(p, u, t)
    ensures u == s || u == s + 1
    ensures u == s + 1 ==> StageDone(p, st, s)
  {
    hide Writes, Reads, StagesQuiet, Has, Narrow, Join, And;
    ReadyIff(p.tasks[t].dependencies, st.seen[w]);
    assert u >= s;
    if u > s {
      var last: nat := u - 1;
      forall v: nat | InStage(p, last, v) ensures Has(st.completed, v) {
        DependsOn(p, u, t, v);
        assert Within(st.seen[w], st.completed);
      }
      assert InStage(p, last, p.first[last]);
      if last == s {
        assert StageDone(p, st, s);
      }
    }
  }

  lemma KeepClaimOpen(p: Program, f: Arithmetic, m: Memory, st: State, s: nat, w: nat, t: nat)
    requires WellFormed(p) && Inv(p, f, m, st, s) && Can(p, st, Claim(w, t)) && InStage(p, s, t)
    ensures Inv(p, f, m, Do(p, f, st, Claim(w, t)), s)
  {
    hide Writes, Reads, DependenciesOk, StagesQuiet, Has, Narrow, Sequential, MemoryOk, LoadedOk, StoredOk, Join, And;
    forall u: nat ensures Has(Set(st.claimed, t), u) <==> Has(st.claimed, u) || u == t {
      SetHas(st.claimed, t, u);
    }
  }

  lemma {:induction false} StageOf(p: Program, t: nat, s: nat) returns (u: nat)
    requires StagesOk(p) && s < |p.first| - 1 && p.first[s] <= t < |p.tasks|
    ensures u + 1 < |p.first| && InStage(p, u, t)
    decreases |p.first| - s
  {
    if t < p.first[s + 1] { u := s; } else { u := StageOf(p, t, s + 1); }
  }

  lemma KeepStep(p: Program, f: Arithmetic, m: Memory, st: State, s: nat, step: Step) returns (u: nat)
    requires WellFormed(p) && Inv(p, f, m, st, s) && Can(p, st, step)
    ensures Inv(p, f, m, Do(p, f, st, step), u)
  {
    hide Writes, Reads, DependenciesOk, StagesQuiet, Has, Narrow, MasksOk, OpenStage, Sequential, MemoryOk,
      LoadedOk, StoredOk, FreshOk, DoneOk, Join, And;
    u := s;
    match step
    case Load(t, target, c) => KeepLoad(p, f, m, st, s, t, target, c);
    case Store(t, c) => KeepStore(p, f, m, st, s, t, c);
    case Complete(t) => KeepComplete(p, f, m, st, s, t);
    case Claim(w, t) =>
      u := StageOf(p, t, 0);
      ReadyStage(p, st, s, w, t, u);
      if u == s + 1 { Advance(p, f, m, st, s); }
      KeepClaimOpen(p, f, m, st, u, w, t);
    case _ => KeepLoadWord(p, f, m, st, s, step);
  }

  lemma {:induction false} RunKeeps(p: Program, f: Arithmetic, m: Memory, st: State, s: nat, steps: seq<Step>)
    returns (u: nat)
    requires WellFormed(p) && Inv(p, f, m, st, s) && CanRun(p, f, st, steps)
    ensures Inv(p, f, m, Run(p, f, st, steps), u)
    decreases |steps|
  {
    hide Can, Do, Inv, DependenciesOk, StagesQuiet;
    if steps == [] {
      u := s;
    } else {
      u := KeepStep(p, f, m, st, s, steps[0]);
      u := RunKeeps(p, f, m, Do(p, f, st, steps[0]), u, steps[1..]);
    }
  }

  /** Whatever the number of workers, the order of their claims, and the interleaving of
      their loads and stores: when all tasks are completed, the buffers hold what running
      the tasks one after the other leaves there. */
  lemma {:induction false} ScheduleIndependent(p: Program, f: Arithmetic, m: Memory, steps: seq<Step>)
    requires WellFormed(p) && CanRun(p, f, Initial(p, m), steps)
    requires AllCompleted(p, Run(p, f, Initial(p, m), steps))
    ensures Run(p, f, Initial(p, m), steps).memory == Sequential(p.shape, f, m, p.tasks, |p.tasks|)
  {
    hide Can, Do, DependenciesOk, StagesQuiet, Writes, Reads, Has, CanRun, Run, Sequential;
    InitialInv(p, f, m);
    var s := RunKeeps(p, f, m, Initial(p, m), 0, steps);
    var st := Run(p, f, Initial(p, m), steps);
    LastStage(p, st, s);
    StageMemory(p, f, m, st, s);
  }

  lemma LastStage(p: Program, st: State, s: nat)
    requires StagesOk(p) && MasksOk(st.claimed, st.completed, st.seen) && OpenStage(p, st.claimed, st.completed, s)
    requires AllCompleted(p, st)
    ensures s + 2 == |p.first| && StageDone(p, st, s)
  {
    hide Has, Narrow;
    if s + 2 < |p.first| {
      NotLastStage(p, st, s);
      assert false;
    }
  }

  lemma NotLastStage(p: Program, st: State, s: nat)
    requires StagesOk(p) && MasksOk(st.claimed, st.completed, st.seen) && OpenStage(p, st.claimed, st.completed, s)
    requires s + 2 < |p.first|
    ensures p.first[s + 1] < |p.tasks| && !Has(st.completed, p.first[s + 1])
  {
    hide Has, Narrow;
    assert !Has(st.claimed, p.first[s + 1]);
  }

  /** A task starts only after every task of every earlier stage is completed. */
  lemma {:induction false} StagesInOrder(p: Program, f: Arithmetic, m: Memory, steps: seq<Step>, s: nat, t: nat,
                                         earlier: nat)
    requires WellFormed(p) && CanRun(p, f, Initial(p, m), steps)
    requires s + 1 < |p.first| && InStage(p, s, t) && earlier < p.first[s]
    requires Has(Run(p, f, Initial(p, m), steps).claimed, t)
    ensures Has(Run(p, f, Initial(p, m), steps).completed, earlier)
  {
    hide Can, Do, DependenciesOk, StagesQuiet, Writes, Reads, Has, CanRun, Run, Sequential;
    InitialInv(p, f, m);
    var u := RunKeeps(p, f, m, Initial(p, m), 0, steps);
    assert s <= u;
  }

  /** Two tasks of which one disturbs the other never run at the same time. */
  lemma {:induction false} ConflictsNeverOverlap(p: Program, f: Arithmetic, m: Memory, steps: seq<Step>, t: nat, u: nat)
    requires WellFormed(p) && CanRun(p, f, Initial(p, m), steps)
    requires t != u && Running(p, Run(p, f, Initial(p, m), steps), t) && Running(p, Run(p, f, Initial(p, m), steps), u)
    ensures Quiet(p.shape, p.tasks[t], p.tasks[u])
  {
    hide Can, Do, DependenciesOk, Writes, Reads, Has, CanRun, Run, Sequential;
    InitialInv(p, f, m);
    var s := RunKeeps(p, f, m, Initial(p, m), 0, steps);
    RunningInStage(p, Run(p, f, Initial(p, m), steps), s, t);
    RunningInStage(p, Run(p, f, Initial(p, m), steps), s, u);
  }
}
