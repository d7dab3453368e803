/** The resident scheduler never gets stuck: whatever the workers have done so far, the
    program can still be completed. */
module TaskProgress {
  import opened Bits
  import opened TaskMasks
  import opened QwenTasks
  import opened TaskGraph

  /** A cell that a task both stores and reads is read by the very store that replaces it. */
  lemma ReadsItself(s: Shape, t: Task, target: Cell, c: Cell)
    requires s.Valid() && Writes(s, t, target) && Writes(s, t, c) && Reads(s, t, target, c)
    ensures Reads(s, t, c, c)
  {
  }

  /** Whatever a stored cell was computed from had been loaded. */
  ghost predicate InputsLoaded(p: Program, st: State)
    requires p.shape.Valid()
  {
    && |st.loaded| == |st.stored| == |p.tasks|
    && forall t: nat, c, i ::
         t < |p.tasks| && c in st.stored[t] && i in st.memory && Reads(p.shape, p.tasks[t], c, i) ==>
         i in st.loaded[t]
  }

  lemma InputsLoadedStep(p: Program, f: Arithmetic, st: State, step: Step)
    requires p.shape.Valid() && InputsLoaded(p, st) && Can(p, st, step)
    ensures InputsLoaded(p, Do(p, f, st, step)) && Do(p, f, st, step).memory.Keys == st.memory.Keys
  {
    hide Reads, Writes, Has, Join, And, Inputs;
    var r := Do(p, f, st, step);
    forall t: nat, c, i | t < |p.tasks| && c in r.stored[t] && i in r.memory && Reads(p.shape, p.tasks[t], c, i)
      ensures i in r.loaded[t]
    {
      assert i in st.memory;
      if c in st.stored[t] { assert i in st.loaded[t]; }
    }
  }

  lemma {:induction false} InputsLoadedRun(p: Program, f: Arithmetic, st: State, steps: seq<Step>)
    requires p.shape.Valid() && InputsLoaded(p, st) && CanRun(p, f, st, steps)
    ensures InputsLoaded(p, Run(p, f, st, steps))
    decreases |steps|
  {
    hide Can, Do, InputsLoaded;
    if steps != [] {
      InputsLoadedStep(p, f, st, steps[0]);
      InputsLoadedRun(p, f, Do(p, f, st, steps[0]), steps[1..]);
    }
  }

  // -------------------------------------------------------------- a running task

  predicate Pending(p: Program, st: State, t: nat, c: Cell)
    requires p.shape.Valid() && t < |p.tasks| == |st.stored|
  {
    c in st.memory && Writes(p.shape, p.tasks[t], c) && c !in st.stored[t]
  }

  predicate Missing(p: Program, st: State, t: nat, c: Cell, i: Cell)
    requires p.shape.Valid() && t < |p.tasks| == |st.loaded|
  {
    i in st.memory && Reads(p.shape, p.tasks[t], c, i) && i !in st.loaded[t]
  }

  /** A running task always has a load, a store or its completion to perform. */
  lemma RunningMoves(p: Program, f: Arithmetic, m: Memory, st: State, s: nat, t: nat) returns (step: Step)
    requires WellFormed(p) && Inv(p, f, m, st, s) && InputsLoaded(p, st) && Running(p, st, t)
    ensures Can(p, st, step) && Advances(st, step)
  {
    hide Writes, Reads, DependenciesOk, StagesQuiet, Has, MasksOk, OpenStage, MemoryOk, LoadedOk, DoneOk, FreshOk,
      Sequential;
    RunningInStage(p, st, s, t) by { hide Has; }
    if c :| Pending(p, st, t, c) {
      if i :| Missing(p, st, t, c, i) {
        if i in st.stored[t] {
          ReadsItself(p.shape, p.tasks[t], c, i);
        }
        step := Load(t, c, i);
      } else {
        assert forall i :: i in st.memory && Reads(p.shape, p.tasks[t], c, i) ==> !Missing(p, st, t, c, i);
        step := Store(t, c);
      }
    } else {
      assert forall c :: c in st.memory && Writes(p.shape, p.tasks[t], c) ==> !Pending(p, st, t, c);
      step := Complete(t);
    }
  }

  /** The step takes something off the work that is left. */
  predicate Advances(st: State, step: Step) {
    match step
    case Claim(_, _) => true
    case Load(t, _, c) => t < |st.loaded| && c !in st.loaded[t]
    case Store(_, _) => true
    case Complete(_) => true
    case _ => false
  }

  // ------------------------------------------------------------ claiming a task

  lemma {:induction false} FirstOpen(p: Program, st: State, n: nat) returns (t: nat)
    requires n <= |p.tasks| && exists u: nat :: u < n && !Has(st.completed, u)
    ensures t < n && !Has(st.completed, t) && forall u: nat :: u < t ==> Has(st.completed, u)
  {
    hide Has;
    if u: nat :| u < n - 1 && !Has(st.completed, u) {
      t := FirstOpen(p, st, n - 1);
    } else {
      t := n - 1;
    }
  }

  /** Load both words of the mask. */
  function LoadWords(p: Program, w: nat): seq<Step> {
    if |p.tasks| > WORD then [LoadLow(w), LoadHigh(w)] else [LoadLow(w)]
  }

  function Seen(p: Program, st: State): Words {
    Words(st.completed.low, if |p.tasks| > WORD then st.completed.high else 0)
  }

  lemma {:induction false} Loaded(p: Program, f: Arithmetic, st: State, w: nat)
    requires p.shape.Valid()
    ensures CanRun(p, f, st, LoadWords(p, w))
    ensures Run(p, f, st, LoadWords(p, w)) == st.(seen := st.seen[w := Seen(p, st)])
  {
    var a := Do(p, f, st, LoadLow(w));
    assert CanRun(p, f, a, []);
    if |p.tasks| > WORD {
      var b := Do(p, f, a, LoadHigh(w));
      assert CanRun(p, f, b, []) && Run(p, f, b, []) == b;
      assert [LoadLow(w), LoadHigh(w)][1..] == [LoadHigh(w)] && [LoadHigh(w)][1..] == [];
      assert a.seen[w := Seen(p, st)] == st.seen[w := Seen(p, st)];
    } else {
      assert [LoadLow(w)][1..] == [];
    }
  }

  /** If nothing is running, any worker that loads the masks can claim the first task that
      is not completed. */
  lemma ClaimMoves(p: Program, st: State, w: nat, t: nat)
    requires WellFormed(p) && Narrow(st.completed) && t < |p.tasks| && !Has(st.claimed, t)
    requires forall u: nat :: u < t ==> Has(st.completed, u)
    ensures Can(p, st.(seen := st.seen[w := Seen(p, st)]), Claim(w, t))
  {
    hide Writes, Reads, StagesQuiet, Join, And;
    var s := StageOf(p, t, 0);
    var seen := Seen(p, st);
    forall u: nat | Has(p.tasks[t].dependencies, u) ensures Has(seen, u) {
      DependsOn(p, s, t, u);
      assert Has(st.completed, u);
    }
    assert Within(p.tasks[t].dependencies, seen);
    ReadyIff(p.tasks[t].dependencies, seen);
  }

  // ---------------------------------------------------------------- work left

  ghost function Work(st: State, cells: set<Cell>, t: nat): nat
    requires t < |st.loaded| == |st.stored|
  {
    (if Has(st.claimed, t) then 0 else 1) + (if Has(st.completed, t) then 0 else 1)
    + Rest(cells, st.stored[t]) + Rest(cells, st.loaded[t].Keys)
  }

  function Rest(cells: set<Cell>, done: set<Cell>): nat {
    |cells - done|
  }

  ghost function Left(st: State, cells: set<Cell>, n: nat): nat
    requires n <= |st.loaded| == |st.stored|
  {
    if n == 0 then 0 else Left(st, cells, n - 1) + Work(st, cells, n - 1)
  }

  lemma {:induction false} LessLeft(st: State, st': State, cells: set<Cell>, n: nat, t: nat)
    requires |st.loaded| == |st.stored| == |st'.loaded| == |st'.stored| && n <= |st.loaded| && t < |st.loaded|
    requires Work(st', cells, t) < Work(st, cells, t)
    requires forall u: nat :: u < |st.loaded| && u != t ==> Work(st', cells, u) == Work(st, cells, u)
    ensures if t < n then Left(st', cells, n) < Left(st, cells, n) else Left(st', cells, n) == Left(st, cells, n)
  {
    hide Work;
    if n > 0 { LessLeft(st, st', cells, n - 1, t); }
  }

  lemma Smaller(cells: set<Cell>, s: set<Cell>, c: Cell)
    requires c in cells && c !in s
    ensures Rest(cells, s + {c}) < Rest(cells, s)
  {
    assert cells - s == (cells - (s + {c})) + {c};
  }

  lemma {:induction false} StepLess(p: Program, f: Arithmetic, st: State, step: Step)
    requires p.shape.Valid() && |st.loaded| == |st.stored| == |p.tasks| && Can(p, st, step) && Advances(st, step)
    ensures var r := Do(p, f, st, step);
      |r.loaded| == |r.stored| == |p.tasks| && Left(r, st.memory.Keys, |p.tasks|) < Left(st, st.memory.Keys, |p.tasks|)
  {
    hide Writes, Reads, Has, Join, And, Inputs, Set, Rest, Left;
    var r, cells := Do(p, f, st, step), st.memory.Keys;
    var t := step.task;
    forall u: nat | u < |p.tasks| && u != t ensures Work(r, cells, u) == Work(st, cells, u) {
      SetHas(st.claimed, t, u);
      SetHas(st.completed, t, u);
    }
    SetHas(st.claimed, t, t);
    SetHas(st.completed, t, t);
    match step {
      case Load(_, _, c) =>
        assert r.loaded[t].Keys == st.loaded[t].Keys + {c};
        Smaller(cells, st.loaded[t].Keys, c);
      case Store(_, c) => Smaller(cells, st.stored[t], c);
      case _ =>
    }
    LessLeft(st, r, cells, |p.tasks|, t);
  }

  // --------------------------------------------------------------- completion

  lemma {:induction false} RunAppend(p: Program, f: Arithmetic, st: State, a: seq<Step>, b: seq<Step>)
    requires p.shape.Valid() && CanRun(p, f, st, a) && CanRun(p, f, Run(p, f, st, a), b)
    ensures CanRun(p, f, st, a + b) && Run(p, f, st, a + b) == Run(p, f, Run(p, f, st, a), b)
    decreases |a|
  {
    hide Can, Do;
    if a == [] {
      assert a + b == b;
    } else {
      RunAppend(p, f, Do(p, f, st, a[0]), a[1..], b);
      assert (a + b)[0] == a[0] && (a + b)[1..] == a[1..] + b;
    }
  }

  lemma {:induction false} OneStep(p: Program, f: Arithmetic, st: State, step: Step)
    requires p.shape.Valid() && Can(p, st, step)
    ensures CanRun(p, f, st, [step]) && Run(p, f, st, [step]) == Do(p, f, st, step)
  {
    hide Can, Do;
    assert [step][1..] == [];
  }

  /** A next move: at most two mask loads of worker `w`, then a step that takes work off. */
  lemma NextMove(p: Program, f: Arithmetic, m: Memory, st: State, s: nat, w: nat) returns (loads: seq<Step>, step: Step)
    requires WellFormed(p) && Inv(p, f, m, st, s) && InputsLoaded(p, st) && !AllCompleted(p, st)
    ensures (loads == [] || loads == LoadWords(p, w)) && CanRun(p, f, st, loads)
    ensures var l := Run(p, f, st, loads); l == st.(seen := l.seen) && Can(p, l, step) && Advances(l, step)
  {
    hide Writes, Reads, DependenciesOk, StagesQuiet, Has, InputsLoaded, LoadedOk, StoredOk, MemoryOk, DoneOk,
      FreshOk, OpenStage, Can, Sequential;
    if t: nat :| Running(p, st, t) {
      loads := [];
      step := RunningMoves(p, f, m, st, s, t);
    } else {
      var t := FirstOpen(p, st, |p.tasks|);
      assert !Running(p, st, t);
      loads, step := LoadWords(p, w), Claim(w, t);
      Loaded(p, f, st, w);
      ClaimMoves(p, st, w, t);
    }
  }

  lemma {:induction false} Finish(p: Program, f: Arithmetic, m: Memory, st: State, s: nat, w: nat)
    returns (rest: seq<Step>)
    requires WellFormed(p) && Inv(p, f, m, st, s) && InputsLoaded(p, st)
    ensures CanRun(p, f, st, rest) && AllCompleted(p, Run(p, f, st, rest))
    decreases Left(st, m.Keys, |p.tasks|)
  {
    hide Writes, Reads, DependenciesOk, StagesQuiet, Has, InputsLoaded, MasksOk, LoadedOk, StoredOk, MemoryOk, DoneOk,
      FreshOk, OpenStage,
      Can, Do, Sequential, Advances, Left, AllCompleted;
    if AllCompleted(p, st) {
      rest := [];
    } else {
      var loads, step := NextMove(p, f, m, st, s, w);
      var l := Run(p, f, st, loads);
      var u := RunKeeps(p, f, m, st, s, loads);
      InputsLoadedRun(p, f, st, loads);
      var r := Do(p, f, l, step);
      StepLess(p, f, l, step);
      SeenIrrelevant(st, l, m.Keys, |p.tasks|);
      var v := KeepStep(p, f, m, l, u, step);
      InputsLoadedStep(p, f, l, step);
      var more := Finish(p, f, m, r, v, w);
      OneStep(p, f, l, step);
      RunAppend(p, f, l, [step], more);
      RunAppend(p, f, st, loads, [step] + more);
      rest := loads + ([step] + more);
    }
  }

  lemma {:induction false} SeenIrrelevant(st: State, l: State, cells: set<Cell>, n: nat)
    requires l == st.(seen := l.seen) && n <= |st.loaded| == |st.stored|
    ensures Left(l, cells, n) == Left(st, cells, n)
  {
    hide Rest, Has;
    if n > 0 { SeenIrrelevant(st, l, cells, n - 1); }
  }

  /** However the workers have been scheduled so far, any one of them can bring the program
      to its end, and the buffers then hold what the index order leaves there. */
  lemma NeverStuck(p: Program, f: Arithmetic, m: Memory, steps: seq<Step>, w: nat) returns (rest: seq<Step>)
    requires WellFormed(p) && CanRun(p, f, Initial(p, m), steps)
    ensures CanRun(p, f, Initial(p, m), steps + rest)
    ensures AllCompleted(p, Run(p, f, Initial(p, m), steps + rest))
    ensures Run(p, f, Initial(p, m), steps + rest).memory == Sequential(p.shape, f, m, p.tasks, |p.tasks|)
  {
    hide Can, Do, DependenciesOk, StagesQuiet, Inv, Has, CanRun, Run, Sequential, AllCompleted, InputsLoaded;
    InitialInv(p, f, m);
    var s := RunKeeps(p, f, m, Initial(p, m), 0, steps);
    assert InputsLoaded(p, Initial(p, m)) by { InitialLoaded(p, m); }
    InputsLoadedRun(p, f, Initial(p, m), steps);
    rest := Finish(p, f, m, Run(p, f, Initial(p, m), steps), s, w);
    RunAppend(p, f, Initial(p, m), steps, rest);
    ScheduleIndependent(p, f, m, steps + rest);
  }

  lemma InitialLoaded(p: Program, m: Memory)
    requires p.shape.Valid()
    ensures InputsLoaded(p, Initial(p, m))
  {
  }
}
