/** The host's way to decode: one kernel launch per stage, layer after layer and token after
    token, with the step counted by the kernel that runs the residual task. */
module HostDecode {
  import opened TaskMasks
  import opened QwenTasks
  import opened TaskGraph
  import opened QwenPrograms

  // ------------------------------------------------------------- launches

  /** One block of the host-step kernel. */
  function HostTask(s: Shape, f: Arithmetic, m: Memory, t: Task): (r: Memory)
    requires s.Valid()
    ensures r.Keys == m.Keys
  {
    var r := Execute(s, f, m, t);
    if t.opcode.ResidualAdvance? && StepCount in r then r[StepCount := r[StepCount] + 1] else r
  }

  function HostTasks(s: Shape, f: Arithmetic, m: Memory, tasks: seq<Task>): (r: Memory)
    requires s.Valid()
    ensures r.Keys == m.Keys
  {
    if tasks == [] then m
    else HostTask(s, f, HostTasks(s, f, m, tasks[..|tasks| - 1]), tasks[|tasks| - 1])
  }

  lemma {:induction false} HostConcat(s: Shape, f: Arithmetic, m: Memory, a: seq<Task>, b: seq<Task>)
    requires s.Valid()
    ensures HostTasks(s, f, m, a + b) == HostTasks(s, f, HostTasks(s, f, m, a), b)
    decreases |b|
  {
    hide HostTask;
    if b == [] {
      assert a + b == a;
    } else {
      var n := |b| - 1;
      assert (a + b)[..|a + b| - 1] == a + b[..n] && (a + b)[|a + b| - 1] == b[n];
      HostConcat(s, f, m, a, b[..n]);
    }
  }

  // ------------------------------------------------------------- tokens

  function DecoderTasks(s: Shape, n: Partitions): seq<Task>
    requires PartitionsOk(n)
  {
    SpecsValid(s, n);
    Tasks(AttentionSpecs(s, n), 5) + Tasks(FeedForwardSpecs(s, n), 4)
  }

  function TailTasks(s: Shape, n: Partitions): seq<Task>
    requires PartitionsOk(n)
  {
    SpecsValid(s, n);
    Tasks(TailSpecs(s, n), 4)
  }

  /** The first `l` layers of a token. */
  function HostLayers(s: Shape, n: Partitions, f: Arithmetic, m: Memory, l: nat): (r: Memory)
    requires s.Valid() && PartitionsOk(n)
    ensures r.Keys == m.Keys
  {
    if l == 0 then m else HostTasks(s, f, HostLayers(s, n, f, m, l - 1), DecoderTasks(s, n))
  }

  function HostTokens(s: Shape, n: Partitions, f: Arithmetic, layers: nat, m: Memory, k: nat): (r: Memory)
    requires s.Valid() && PartitionsOk(n)
    ensures r.Keys == m.Keys
  {
    if k == 0 then m
    else HostTasks(s, f, HostLayers(s, n, f, HostTokens(s, n, f, layers, m, k - 1), layers), TailTasks(s, n))
  }

  // ------------------------------------------------------------- the loops

  /** The launches cover the tasks from `from` to `to` without gap or overlap. */
  predicate Consecutive(stages: seq<HostStage>, from: nat, to: nat) {
    if stages == [] then from == to
    else
      var last := stages[|stages| - 1];
      last.taskBegin + last.taskCount == to && Consecutive(stages[..|stages| - 1], from, last.taskBegin)
  }

  lemma {:induction false} ConsecutiveOrdered(stages: seq<HostStage>, from: nat, to: nat)
    requires Consecutive(stages, from, to)
    ensures from <= to
  {
    if stages != [] { ConsecutiveOrdered(stages[..|stages| - 1], from, stages[|stages| - 1].taskBegin); }
  }

  /** Where the first `i` launches end. */
  lemma {:induction false} ConsecutivePrefix(stages: seq<HostStage>, from: nat, to: nat, i: nat)
    requires Consecutive(stages, from, to) && i < |stages|
    ensures from <= stages[i].taskBegin <= stages[i].taskBegin + stages[i].taskCount <= to
    ensures i == 0 ==> stages[i].taskBegin == from
    ensures i > 0 ==> stages[i].taskBegin == stages[i - 1].taskBegin + stages[i - 1].taskCount
    ensures i == |stages| - 1 ==> stages[i].taskBegin + stages[i].taskCount == to
    decreases |stages|
  {
    var n := |stages| - 1;
    if i < n {
      ConsecutivePrefix(stages[..n], from, stages[n].taskBegin, i);
      assert stages[..n][i] == stages[i];
    } else {
      ConsecutiveOrdered(stages[..n], from, stages[n].taskBegin);
      if n > 0 { assert stages[..n][n - 1] == stages[n - 1]; }
    }
  }

  method LaunchAll(s: Shape, f: Arithmetic, m: Memory, tasks: seq<Task>, stages: seq<HostStage>, ghost from: nat,
                   ghost to: nat)
    returns (r: Memory)
    requires s.Valid() && from <= to <= |tasks| && Consecutive(stages, from, to)
    ensures r == HostTasks(s, f, m, tasks[from..to])
  {
    hide HostTasks, Consecutive;
    r := m;
    ghost var at := from;
    assert tasks[from..from] == [];
    NoTasks(s, f, m);
    NoStages(stages, from, to);
    for i := 0 to |stages|
      invariant from <= at <= to && r == HostTasks(s, f, m, tasks[from..at])
      invariant at == if i == 0 then from else stages[i - 1].taskBegin + stages[i - 1].taskCount
    {
      ConsecutivePrefix(stages, from, to, i);
      var stage := stages[i];
      ghost var end := stage.taskBegin + stage.taskCount;
      r := HostTasks(s, f, r, tasks[stage.taskBegin..stage.taskBegin + stage.taskCount]);
      HostConcat(s, f, m, tasks[from..at], tasks[at..end]);
      assert tasks[from..at] + tasks[at..end] == tasks[from..end];
      at := end;
    }
    if |stages| > 0 { ConsecutivePrefix(stages, from, to, |stages| - 1); }
  }

  lemma NoTasks(s: Shape, f: Arithmetic, m: Memory)
    requires s.Valid()
    ensures HostTasks(s, f, m, []) == m
  {
  }

  lemma NoStages(stages: seq<HostStage>, from: nat, to: nat)
    requires Consecutive(stages, from, to)
    ensures stages == [] ==> from == to
  {
  }

  /** The decoder's nine launches and the tail's four cover their programs. */
  lemma StagesConsecutive(s: Shape, n: Partitions)
    requires PartitionsOk(n)
    ensures |HostStages(n)| == 13
    ensures Consecutive(HostStages(n)[..9], 0, |DecoderTasks(s, n)|)
    ensures Consecutive(HostStages(n)[9..], |DecoderTasks(s, n)|, |DecoderTasks(s, n)| + |TailTasks(s, n)|)
  {
    hide Tasks, First;
    SpecsValid(s, n);
    FirstOfFive(AttentionSpecs(s, n));
    FirstOfFour(FeedForwardSpecs(s, n));
    FirstOfFour(TailSpecs(s, n));
    Nine(HostStages(n));
    Four(HostStages(n));
  }

  lemma {:induction false} Chain(stages: seq<HostStage>, from: nat, k: nat)
    requires k <= |stages| && (k > 0 ==> stages[0].taskBegin == from)
    requires forall i :: 0 < i < k ==> stages[i].taskBegin == stages[i - 1].taskBegin + stages[i - 1].taskCount
    ensures k > 0 ==> Consecutive(stages[..k], from, stages[k - 1].taskBegin + stages[k - 1].taskCount)
    ensures k == 0 ==> Consecutive(stages[..k], from, from)
  {
    if k > 0 {
      Chain(stages, from, k - 1);
      assert stages[..k][..k - 1] == stages[..k - 1];
    }
  }

  lemma Nine(stages: seq<HostStage>)
    requires |stages| == 13 && stages[0].taskBegin == 0
    requires forall i :: 0 < i < 9 ==> stages[i].taskBegin == stages[i - 1].taskBegin + stages[i - 1].taskCount
    ensures Consecutive(stages[..9], 0, stages[8].taskBegin + stages[8].taskCount)
  {
    Chain(stages, 0, 9);
  }

  lemma Four(stages: seq<HostStage>)
    requires |stages| == 13
    requires forall i :: 9 < i < 13 ==> stages[i].taskBegin == stages[i - 1].taskBegin + stages[i - 1].taskCount
    ensures Consecutive(stages[9..], stages[9].taskBegin, stages[12].taskBegin + stages[12].taskCount)
  {
    var tail := stages[9..];
    forall i | 0 < i < 4 ensures tail[i].taskBegin == tail[i - 1].taskBegin + tail[i - 1].taskCount {
      assert tail[i] == stages[9 + i] && tail[i - 1] == stages[9 + i - 1];
    }
    Chain(tail, stages[9].taskBegin, 4);
    assert tail[..4] == tail;
  }

  /** The benchmark's launch loops. */
  method Decode(s: Shape, n: Partitions, f: Arithmetic, tasks: seq<Task>, layers: nat, steps: nat, m: Memory)
    returns (r: Memory)
    requires s.Valid() && PartitionsOk(n) && tasks == DecoderTasks(s, n) + TailTasks(s, n)
    ensures r == HostTokens(s, n, f, layers, m, steps)
  {
    hide HostTasks, DecoderTasks, TailTasks, HostStages, Consecutive, PartitionsOk;
    StagesConsecutive(s, n);
    var stages := HostStages(n);
    ghost var decoder, all := |DecoderTasks(s, n)|, |tasks|;
    assert tasks[0..decoder] == DecoderTasks(s, n) && tasks[decoder..all] == TailTasks(s, n);
    r := m;
    for step := 0 to steps
      invariant r == HostTokens(s, n, f, layers, m, step)
    {
      ghost var token := r;
      for layer := 0 to layers
        invariant r == HostLayers(s, n, f, token, layer)
      {
        r := LaunchAll(s, f, r, tasks, stages[..9], 0, decoder);
      }
      r := LaunchAll(s, f, r, tasks, stages[9..], decoder, all);
    }
  }

  // ------------------------------------------------------------- programs

  lemma {:induction false} PlainTasks(s: Shape, f: Arithmetic, m: Memory, tasks: seq<Task>, k: nat)
    requires s.Valid() && k <= |tasks| && forall t :: 0 <= t < k ==> !tasks[t].opcode.ResidualAdvance?
    ensures HostTasks(s, f, m, tasks[..k]) == Sequential(s, f, m, tasks, k)
  {
    hide Execute;
    if k > 0 {
      PlainTasks(s, f, m, tasks, k - 1);
      assert tasks[..k][..k - 1] == tasks[..k - 1];
    }
  }

  lemma OpcodeOf(s: Shape, specs: seq<StageSpec>, t: nat) returns (k: nat)
    requires s.Valid() && SpecsOk(specs) && t < |Tasks(specs, |specs|)|
    ensures k < |specs| && First(specs, k) <= t < First(specs, k + 1)
    ensures Tasks(specs, |specs|)[t].opcode == specs[k].opcode
    ensures Tasks(specs, |specs|)[t].argument1 == specs[k].argument1
  {
    hide First, Tasks, Before, Bound, Split;
    var p := Assemble(s, specs);
    AssembledStages(s, specs);
    k := StageOf(p, t, 0);
    AssembledTask(s, specs, k, t);
  }

  /** Attention and tail leave on the host what they leave in index order. */
  lemma PlainPrograms(s: Shape, n: Partitions, f: Arithmetic, m: Memory)
    requires s.Valid() && PartitionsOk(n) && SpecsOk(AttentionSpecs(s, n)) && SpecsOk(TailSpecs(s, n))
    ensures var a, t := Tasks(AttentionSpecs(s, n), 5), Tasks(TailSpecs(s, n), 4);
            && HostTasks(s, f, m, a) == Sequential(s, f, m, a, |a|)
            && HostTasks(s, f, m, t) == Sequential(s, f, m, t, |t|)
  {
    hide Tasks, First, HostTasks, Sequential, PartitionsOk;
    var a, t := Tasks(AttentionSpecs(s, n), 5), Tasks(TailSpecs(s, n), 4);
    forall i | 0 <= i < |a| ensures !a[i].opcode.ResidualAdvance? { var k := OpcodeOf(s, AttentionSpecs(s, n), i); }
    forall i | 0 <= i < |t| ensures !t[i].opcode.ResidualAdvance? { var k := OpcodeOf(s, TailSpecs(s, n), i); }
    PlainTasks(s, f, m, a, |a|);
    PlainTasks(s, f, m, t, |t|);
    assert a[..|a|] == a && t[..|t|] == t;
  }

  /** The residual task comes last. */
  lemma ResidualLast(s: Shape, n: Partitions, i: nat)
    requires s.Valid() && PartitionsOk(n) && SpecsOk(FeedForwardSpecs(s, n)) && i < |Tasks(FeedForwardSpecs(s, n), 4)|
    ensures var t := Tasks(FeedForwardSpecs(s, n), 4)[i];
            (t.opcode.ResidualAdvance? <==> i == |Tasks(FeedForwardSpecs(s, n), 4)| - 1)
            && (t.opcode.ResidualAdvance? ==> t.argument1 == 1)
  {
    hide Tasks, First, PartitionsOk;
    var specs := FeedForwardSpecs(s, n);
    FirstOfFour(specs);
    var k := OpcodeOf(s, specs, i);
  }

  /** Feed-forward leaves on the host what it leaves in index order, one step further. */
  lemma ResidualProgram(s: Shape, n: Partitions, f: Arithmetic, m: Memory)
    requires s.Valid() && PartitionsOk(n) && SpecsOk(FeedForwardSpecs(s, n))
    ensures var t := Tasks(FeedForwardSpecs(s, n), 4);
            var r := Sequential(s, f, m, t, |t|);
            HostTasks(s, f, m, t) == if StepCount in r then r[StepCount := r[StepCount] + 1] else r
  {
    hide Tasks, First, PartitionsOk, Execute;
    var t := Tasks(FeedForwardSpecs(s, n), 4);
    FirstOfFour(FeedForwardSpecs(s, n));
    assert |t| > 0;
    forall i | 0 <= i < |t| ensures t[i].opcode.ResidualAdvance? <==> i == |t| - 1 { ResidualLast(s, n, i); }
    PlainTasks(s, f, m, t, |t| - 1);
  }
}
