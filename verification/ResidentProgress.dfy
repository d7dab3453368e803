/** The resident graph always ends: from every state of every run a single worker can bring
    it to one of its three ends. */
module ResidentProgress {
  import opened TaskMasks
  import opened QwenTasks
  import opened TaskGraph
  import opened R = ResidentGraph
  import TaskProgress

  lemma {:induction false} RunJoin(g: Graph, f: Arithmetic, w: World, a: seq<Move>, w1: World, b: seq<Move>, w2: World)
    requires GraphOk(g) && R.Run(g, f, w, a, w1) && R.Run(g, f, w1, b, w2)
    ensures R.Run(g, f, w, a + b, w2)
    decreases |a|
  {
    hide R.Can, R.Do, GraphOk;
    if a == [] {
      assert a + b == b;
    } else {
      RunJoin(g, f, R.Do(g, f, w, a[0]), a[1..], w1, b, w2);
      assert (a + b)[0] == a[0] && (a + b)[1..] == a[1..] + b;
    }
  }

  lemma {:induction false} OneMove(g: Graph, f: Arithmetic, w: World, a: Move)
    requires GraphOk(g) && R.Can(g, w, a)
    ensures R.Run(g, f, w, [a], R.Do(g, f, w, a))
  {
    hide R.Can, R.Do, GraphOk;
    assert [a][1..] == [];
  }

  // ------------------------------------------------------------- finishing the tasks

  function Lifted(k: nat, steps: seq<Step>): seq<Move> {
    seq(|steps|, i requires 0 <= i < |steps| => Schedule(k, steps[i]))
  }

  function With(w: World, k: nat, st: State): World
    requires k < |w.gens|
  {
    w.(memory := st.memory, gens := w.gens[k := Scheduled(w.gens[k], st)])
  }

  /** What the tasks of one generation can do, the graph can do. */
  lemma {:induction false} Lift(g: Graph, f: Arithmetic, w: World, k: nat, p: Program, steps: seq<Step>)
    requires GraphOk(g) && Published(g, w, k) && p == NodeOf(g, w, k).program
    requires TaskGraph.CanRun(p, f, View(w.memory, w.gens[k]), steps)
    ensures R.Run(g, f, w, Lifted(k, steps), With(w, k, TaskGraph.Run(p, f, View(w.memory, w.gens[k]), steps)))
    decreases |steps|
  {
    hide GraphOk, TaskGraph.Can, TaskGraph.Do;
    var st := View(w.memory, w.gens[k]);
    if steps == [] {
      assert With(w, k, st) == w;
    } else {
      var w1, st1 := R.Do(g, f, w, Schedule(k, steps[0])), TaskGraph.Do(p, f, st, steps[0]);
      assert w1 == With(w, k, st1) && View(w1.memory, w1.gens[k]) == st1;
      Lift(g, f, w1, k, p, steps[1..]);
      var st2 := TaskGraph.Run(p, f, st1, steps[1..]);
      assert With(w1, k, st2) == With(w, k, st2);
      assert Lifted(k, steps)[1..] == Lifted(k, steps[1..]);
    }
  }

  // ------------------------------------------------------------- counting them

  lemma {:induction false} SomeUncounted(s: set<nat>, n: nat) returns (t: nat)
    requires |s| < n
    ensures t < n && t !in s
    decreases n
  {
    if n - 1 in s {
      assert |s| == |s - {n - 1}| + 1;
      t := SomeUncounted(s - {n - 1}, n - 1);
    } else {
      t := n - 1;
    }
  }

  ghost predicate AllCompletedIn(x: Gen, n: nat) {
    forall t: nat :: t < n ==> Has(x.completed, t)
  }

  lemma {:induction false} CountAll(g: Graph, f: Arithmetic, m: Memory, w: World) returns (moves: seq<Move>, w': World)
    requires GraphOk(g) && R.Inv(g, f, m, w) && 0 < |w.gens| && Published(g, w, |w.gens| - 1)
    requires AllCompletedIn(w.gens[|w.gens| - 1], |NodeOf(g, w, |w.gens| - 1).program.tasks|)
    requires CountsOk(w.gens[|w.gens| - 1], |NodeOf(g, w, |w.gens| - 1).program.tasks|)
    ensures R.Run(g, f, w, moves, w') && |w'.gens| == |w.gens| && w'.gens[|w.gens| - 1].owners != map[]
    decreases |NodeOf(g, w, |w.gens| - 1).program.tasks| - w.gens[|w.gens| - 1].count
  {
    hide R.Inv, R.Run, Has, GraphOk;
    var k := |w.gens| - 1;
    var x, n := w.gens[k], |NodeOf(g, w, k).program.tasks|;
    AtMost(x.counted, n);
    if x.count == n {
      moves, w' := [], w;
      assert R.Run(g, f, w, [], w) by { NoMoves(g, f, w); }
      OwnersAtEnd(x, n);
    } else {
      var t := SomeUncounted(x.counted, n);
      var a := Count(k, t);
      OneMove(g, f, w, a);
      KeepMove(g, f, m, w, a);
      R.OneMore(x, n, t);
      var w1 := R.Do(g, f, w, a);
      var rest;
      rest, w' := CountAll(g, f, m, w1);
      RunJoin(g, f, w, [a], w1, rest, w');
      moves := [a] + rest;
    }
  }

  lemma NoMoves(g: Graph, f: Arithmetic, w: World)
    requires GraphOk(g)
    ensures R.Run(g, f, w, [], w)
  {
  }

  lemma OwnersAtEnd(x: Gen, n: nat)
    requires CountsOk(x, n) && x.count == n
    ensures x.owners != map[]
  {
  }

  // ------------------------------------------------------------- one generation

  lemma CurrentParts(g: Graph, f: Arithmetic, m: Memory, w: World)
    requires GraphOk(g) && R.Inv(g, f, m, w)
    ensures 0 < |w.gens| && Published(g, w, |w.gens| - 1)
    ensures var k := |w.gens| - 1;
            var n := NodeOf(g, w, k);
            && WellFormed(n.program) && CountsOk(w.gens[k], |n.program.tasks|)
            && (w.gens[k].owners == map[] ==>
                  OpenOk(n.program, f, Trace(g, f, m, k).memory, View(w.memory, w.gens[k])))
            && (w.status == StillRunning && w.gens[k].owners != map[] ==>
              Owner(w.gens[k], Elected) || Owner(w.gens[k], Advanced))
  {
    hide OpenOk, CountsOk, AllDone, Finished, Trace, DependenciesOk, StagesQuiet;
    assert NodeOk(g.nodes[w.gens[|w.gens| - 1].program], |g.nodes|);
  }

  lemma ToElected(g: Graph, f: Arithmetic, m: Memory, w: World) returns (moves: seq<Move>, w': World)
    requires GraphOk(g) && R.Inv(g, f, m, w) && w.gens[|w.gens| - 1].owners == map[]
    ensures R.Run(g, f, w, moves, w') && |w'.gens| == |w.gens| && w'.gens[|w.gens| - 1].owners != map[]
  {
    hide R.Inv, R.Run, Has, GraphOk, CountsOk, Trace, TaskGraph.Inv, TaskProgress.InputsLoaded, TaskGraph.CanRun,
      TaskGraph.Run, DependenciesOk, StagesQuiet;
    var k := |w.gens| - 1;
    CurrentParts(g, f, m, w);
    var p, start, st := NodeOf(g, w, k).program, Trace(g, f, m, k).memory, View(w.memory, w.gens[k]);
    var s :| TaskGraph.Inv(p, f, start, st, s);
    var steps := TaskProgress.Finish(p, f, start, st, s, 0);
    Lift(g, f, w, k, p, steps);
    var w1 := With(w, k, TaskGraph.Run(p, f, st, steps));
    R.RunKeeps(g, f, m, w, Lifted(k, steps), w1);
    CurrentParts(g, f, m, w1);
    var rest;
    rest, w' := CountAll(g, f, m, w1);
    moves := Lifted(k, steps) + rest;
    RunJoin(g, f, w, Lifted(k, steps), w1, rest, w');
  }

  /** The owner's transition publishes the next generation or ends the run. */
  lemma ToDecided(g: Graph, f: Arithmetic, m: Memory, w: World) returns (moves: seq<Move>, w': World)
    requires GraphOk(g) && R.Inv(g, f, m, w) && w.status == StillRunning && w.gens[|w.gens| - 1].owners != map[]
    ensures R.Run(g, f, w, moves, w') && (w'.status != StillRunning || |w'.gens| == |w.gens| + 1)
  {
    hide R.Inv, R.Run, GraphOk, Bump, CountsOk, OpenOk, NodeOk;
    var k := |w.gens| - 1;
    CurrentParts(g, f, m, w);
    var t :| t in w.gens[k].owners;
    if w.gens[k].owners[t] == Advanced {
      moves, w' := Decided(g, f, w, t);
    } else {
      var a := Advance(k, t);
      OneMove(g, f, w, a);
      var w1 := R.Do(g, f, w, a);
      var rest;
      rest, w' := Decided(g, f, w1, t);
      RunJoin(g, f, w, [a], w1, rest, w');
      moves := [a] + rest;
    }
  }

  lemma Decided(g: Graph, f: Arithmetic, w: World, t: nat) returns (moves: seq<Move>, w': World)
    requires GraphOk(g) && 0 < |w.gens| && R.Can(g, w, Decide(|w.gens| - 1, t))
    ensures R.Run(g, f, w, moves, w') && (w'.status != StillRunning || |w'.gens| == |w.gens| + 1)
  {
    hide R.Run, GraphOk, Verdict, Successor, NewGen, MakePhase, PhaseProgram;
    var a := Decide(|w.gens| - 1, t);
    OneMove(g, f, w, a);
    moves, w' := [a], R.Do(g, f, w, a);
  }

  // ------------------------------------------------------------- the whole run

  lemma {:induction false} Finish(g: Graph, f: Arithmetic, m: Memory, w: World) returns (moves: seq<Move>, w': World)
    requires GraphOk(g) && R.Inv(g, f, m, w)
    ensures R.Run(g, f, w, moves, w') && w'.status != StillRunning
    decreases g.phases - |w.gens|, w.gens[|w.gens| - 1].owners == map[]
  {
    hide R.Run, GraphOk, CurrentOk, Trace, Closed, PhaseProgram, PhaseGeneration;
    if w.status != StillRunning {
      moves, w' := [], w;
      NoMoves(g, f, w);
    } else {
      var first, w1;
      if w.gens[|w.gens| - 1].owners == map[] {
        first, w1 := ToElected(g, f, m, w);
      } else {
        first, w1 := ToDecided(g, f, m, w);
      }
      R.RunKeeps(g, f, m, w, first, w1);
      if w1.status != StillRunning {
        moves, w' := first, w1;
      } else {
        var rest;
        rest, w' := Finish(g, f, m, w1);
        RunJoin(g, f, w, first, w1, rest, w');
        moves := first + rest;
      }
    }
  }

  /** However the workers have been scheduled so far, the graph can still be brought to its
      end, and there is only one thing the end can be. */
  lemma NeverStuck(g: Graph, f: Arithmetic, m: Memory, w: World) returns (moves: seq<Move>, w': World)
    requires GraphOk(g) && Reachable(g, f, m, w)
    ensures R.Run(g, f, w, moves, w') && w'.status != StillRunning && EndsAt(g, f, m, |w'.gens|)
    ensures Left(w') == Outcome(Trace(g, f, m, |w'.gens|))
  {
    hide R.Run, R.Inv, NodeOk, Trace;
    ReachableInv(g, f, m, w);
    moves, w' := Finish(g, f, m, w);
    assert Reachable(g, f, m, w') by {
      var before :| R.Run(g, f, Start(g, m), before, w);
      RunJoin(g, f, Start(g, m), before, w, moves, w');
    }
    EndsAsReference(g, f, m, w');
  }
}
