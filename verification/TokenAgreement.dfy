/** The scheduler and the sampling kernels together: whatever partitions the vocabulary and
    whatever schedules the tail program, the sampled token is the same. */
module TokenAgreement {
  import opened TaskMasks
  import opened QwenTasks
  import opened TaskGraph
  import opened QwenPrograms
  import opened Top1

  /** A stored bit pattern as a number. */
  type Decode = Value -> Float

  /** The logits as a function of the normalized hidden state. */
  type Logits = Memory -> seq<Float>

  predicate HasPartials(x: Memory, parts: nat) {
    forall q :: 0 <= q < parts ==> PartialValue(q) in x && PartialIndex(q) in x
  }

  function At(decode: Decode, x: Memory, parts: nat, q: nat): Candidate
    requires HasPartials(x, parts) && q < parts
  {
    Candidate(decode(x[PartialValue(q)]), x[PartialIndex(q)])
  }

  /** The reduction over the first `n` partitions. */
  function Reduced(decode: Decode, x: Memory, parts: nat, n: nat): Candidate
    requires HasPartials(x, parts) && 0 < n <= parts
  {
    if n == 1 then At(decode, x, parts, 0) else Pick(Reduced(decode, x, parts, n - 1), At(decode, x, parts, n - 1))
  }

  /** The partition task stores the best of its rows. */
  ghost predicate PartitionSamples(f: Arithmetic, decode: Decode, logits: Logits, t: Task, x: Memory) {
    t.opcode.LmHeadTop1Partition? && t.begin <= t.end <= |logits(x)| ==>
      IsTop(logits(x), Range(t.begin, t.end),
            Candidate(decode(f(t, PartialValue(t.argument0), x)), f(t, PartialIndex(t.argument0), x)))
  }

  /** The reduction task stores the best of the partials. */
  ghost predicate ReductionSamples(f: Arithmetic, decode: Decode, t: Task, x: Memory) {
    t.opcode.Top1Reduce? && t.begin == 0 < t.end && HasPartials(x, t.end) ==>
      && f(t, SampledToken, x) == Reduced(decode, x, t.end, t.end).index
      && decode(f(t, SampledLogit, x)) == Reduced(decode, x, t.end, t.end).value
  }

  /** The arithmetic of the two sampling opcodes is what their kernels compute. */
  ghost predicate Samples(s: Shape, f: Arithmetic, decode: Decode, logits: Logits) {
    && (forall x :: |logits(x)| == s.vocabulary)
    && (forall t, x :: PartitionSamples(f, decode, logits, t, x))
    && (forall t, x :: ReductionSamples(f, decode, t, x))
  }

  // ------------------------------------------------------------- the reduction

  lemma {:induction false} ReducedTop(logits: seq<Float>, decode: Decode, x: Memory, parts: nat, n: nat)
    requires Rows(logits) && HasPartials(x, parts) && 0 < n <= parts
    requires forall q :: 0 <= q < parts ==> PartialOk(logits, parts, q, At(decode, x, parts, q))
    ensures IsTop(logits, Range(0, Bound(|logits|, parts, n)), Reduced(decode, x, parts, n))
  {
    hide IsTop, Better, Pick, Bound, At;
    LastBound(|logits|, parts);
    if n == 1 {
      assert PartialOk(logits, parts, 0, At(decode, x, parts, 0));
    } else {
      ReducedTop(logits, decode, x, parts, n - 1);
      MergeRanges(logits, parts, n - 1, Reduced(decode, x, parts, n - 1), At(decode, x, parts, n - 1));
    }
  }

  // ------------------------------------------------------------- the tail program

  function Tail(s: Shape, n: Partitions): Program
    requires n.lmHead > 0
  {
    Assemble(s, TailSpecs(s, n))
  }

  predicate TailOk(s: Shape, n: Partitions) {
    s.Valid() && PartitionsOk(n) && s.vocabulary <= NO_INDEX
  }

  /** The cells the tail program works on exist. */
  predicate HasCells(m: Memory, n: Partitions) {
    HasPartials(m, n.lmHead) && SampledToken in m && SampledLogit in m
  }

  lemma TailTask(s: Shape, n: Partitions, k: nat, t: nat)
    requires TailOk(s, n) && k < 4 && First(TailSpecs(s, n), k) <= t < First(TailSpecs(s, n), k + 1)
    ensures t < |Tail(s, n).tasks|
    ensures Tail(s, n).tasks[t] == TaskOf(TailSpecs(s, n)[k], Before(TailSpecs(s, n), k), t - First(TailSpecs(s, n), k))
  {
    hide TaskOf, Before, First, Tasks;
    AssembledTask(s, TailSpecs(s, n), k, t);
  }

  lemma TailFirsts(s: Shape, n: Partitions)
    requires TailOk(s, n)
    ensures var first := Tail(s, n).first;
      |first| == 5 && first[0] == 0 && first[1] == 1 && first[2] == 1 + n.lmHead && first[3] == 2 + n.lmHead
        && first[4] == 3 + n.lmHead
    ensures |Tail(s, n).tasks| == 3 + n.lmHead && WellFormed(Tail(s, n))
  {
    hide First, WellFormed, Tasks;
    FirstOfFour(TailSpecs(s, n));
    DecoderWellFormed(s, n);
  }

  /** The normalized hidden state, and the step. */
  function Norm(s: Shape, m: Memory): Memory {
    map c | c in m && (c.StepCount? || (c.FinalNormalized? && c.i < s.hidden)) :: m[c]
  }

  /** The memory when the partition tasks start: the same for all partitionings. */
  function Normalized(s: Shape, f: Arithmetic, m: Memory): Memory
    requires s.Valid()
  {
    Execute(s, f, m, Task(FinalRmsnorm, Split(0), Bound(s.hidden, 1, 0), Bound(s.hidden, 1, 1), EPSILON, 0))
  }

  lemma {:induction false} AfterNorm(s: Shape, f: Arithmetic, m: Memory, n: Partitions)
    requires TailOk(s, n)
    ensures |Tail(s, n).tasks| > 0 && Sequential(s, f, m, Tail(s, n).tasks, 1) == Normalized(s, f, m)
  {
    hide Execute, PartitionsOk, Bound, Split, First;
    TailFirsts(s, n);
    FirstOfFour(TailSpecs(s, n));
    TailTask(s, n, 0, 0);
    var p := Tail(s, n);
    assert p.tasks[0] == TaskOf(TailSpecs(s, n)[0], 0, 0);
    assert Sequential(s, f, m, p.tasks, 0) == m;
    SequentialStep(p, f, m, 1);
  }

  lemma PartitionTask(s: Shape, n: Partitions, q: nat)
    requires TailOk(s, n) && q < n.lmHead
    ensures 1 + q < |Tail(s, n).tasks|
    ensures var t := Tail(s, n).tasks[1 + q];
      t.opcode.LmHeadTop1Partition? && t.argument0 == q
      && t.begin == Bound(s.vocabulary, n.lmHead, q) && t.end == Bound(s.vocabulary, n.lmHead, q + 1)
  {
    hide First, PartitionsOk, Bound, Split, Before;
    FirstOfFour(TailSpecs(s, n));
    TailTask(s, n, 1, 1 + q);
  }

  lemma ReduceTask(s: Shape, n: Partitions)
    requires TailOk(s, n)
    ensures 1 + n.lmHead < |Tail(s, n).tasks|
    ensures var t := Tail(s, n).tasks[1 + n.lmHead]; t.opcode.Top1Reduce? && t.begin == 0 && t.end == n.lmHead
  {
    hide First, PartitionsOk, Split, Before, Bound;
    FirstOfFour(TailSpecs(s, n));
    TailTask(s, n, 2, 1 + n.lmHead);
    LastBound(n.lmHead, 1);
  }

  lemma FeedbackTask(s: Shape, n: Partitions)
    requires TailOk(s, n)
    ensures 2 + n.lmHead < |Tail(s, n).tasks| && Tail(s, n).tasks[2 + n.lmHead].opcode.EmbeddingFeedback?
  {
    hide First, PartitionsOk, Split, Before, Bound;
    FirstOfFour(TailSpecs(s, n));
    TailTask(s, n, 3, 2 + n.lmHead);
  }

  lemma SameInputs(s: Shape, t: Task, target: Cell, m: Memory)
    requires s.Valid() && t.opcode.LmHeadTop1Partition?
    ensures Inputs(s, t, target, m) == Norm(s, m)
  {
  }

  lemma HeadWrites(s: Shape, t: Task, q: nat)
    requires s.Valid() && t.opcode.LmHeadTop1Partition? && t.argument0 == q
    ensures Writes(s, t, PartialValue(q)) && Writes(s, t, PartialIndex(q))
  {
  }

  lemma StageCell(p: Program, f: Arithmetic, base: Memory, now: Memory, from: nat, n: nat, t: nat, c: Cell)
    requires p.shape.Valid() && from <= t < n <= |p.tasks| && now.Keys == base.Keys && SoFar(p, f, base, now, from, n)
    requires c in now && Writes(p.shape, p.tasks[t], c)
    ensures now[c] == f(p.tasks[t], c, Inputs(p.shape, p.tasks[t], c, base))
  {
    hide Writes, Inputs;
    assert now[c] == Result(p, f, base, t, c);
  }

  /** What a partition task left in one of its two cells. */
  lemma {:induction false} AfterPartition(s: Shape, f: Arithmetic, m: Memory, n: Partitions, q: nat, c: Cell)
    requires TailOk(s, n) && q < n.lmHead && c in m && (c == PartialValue(q) || c == PartialIndex(q))
    ensures 1 + n.lmHead < |Tail(s, n).tasks|
    ensures Sequential(s, f, m, Tail(s, n).tasks, 1 + n.lmHead)[c]
      == f(Tail(s, n).tasks[1 + q], c, Norm(s, Normalized(s, f, m)))
  {
    hide Sequential, Normalized, PartitionsOk, WellFormed, Tail, Norm, Inputs, Writes, SoFar, Bound;
    var p := Tail(s, n);
    assert p.shape == s by { TailShape(s, n); }
    TailFirsts(s, n);
    AfterNorm(s, f, m, n);
    PartitionTask(s, n, q);
    StageInOrder(p, f, m, 1, 1 + n.lmHead);
    HeadWrites(s, p.tasks[1 + q], q);
    StageCell(p, f, Normalized(s, f, m), Sequential(s, f, m, p.tasks, 1 + n.lmHead), 1, 1 + n.lmHead, 1 + q, c);
    SameInputs(s, p.tasks[1 + q], c, Normalized(s, f, m));
  }

  /** After the partition tasks every partial is the best of its rows. */
  lemma {:induction false} PartialAfter(s: Shape, f: Arithmetic, decode: Decode, logits: Logits, m: Memory,
                                        n: Partitions, q: nat)
    requires TailOk(s, n) && HasPartials(m, n.lmHead) && Samples(s, f, decode, logits) && q < n.lmHead
    ensures 1 + n.lmHead < |Tail(s, n).tasks|
    ensures var now := Sequential(s, f, m, Tail(s, n).tasks, 1 + n.lmHead);
      PartialOk(logits(Norm(s, Normalized(s, f, m))), n.lmHead, q,
                Candidate(decode(now[PartialValue(q)]), now[PartialIndex(q)]))
  {
    hide Sequential, Normalized, PartitionsOk, IsTop, Range, Bound, WellFormed, Tail, Norm;
    AfterPartition(s, f, m, n, q, PartialValue(q));
    AfterPartition(s, f, m, n, q, PartialIndex(q));
    PartitionTask(s, n, q);
    BoundsMonotone(s.vocabulary, n.lmHead, q, q + 1);
    BoundsMonotone(s.vocabulary, n.lmHead, q + 1, n.lmHead);
    LastBound(s.vocabulary, n.lmHead);
    var x := Norm(s, Normalized(s, f, m));
    assert |logits(x)| == s.vocabulary;
    assert PartitionSamples(f, decode, logits, Tail(s, n).tasks[1 + q], x);
  }

  lemma TailShape(s: Shape, n: Partitions)
    requires n.lmHead > 0
    ensures Tail(s, n).shape == s
  {
  }

  lemma ReduceInputs(s: Shape, t: Task, m: Memory, parts: nat)
    requires s.Valid() && t.opcode.Top1Reduce? && t.begin == 0 && t.end == parts && HasPartials(m, parts)
    ensures var x := Inputs(s, t, SampledToken, m);
      && Inputs(s, t, SampledLogit, m) == x && HasPartials(x, parts)
      && forall q :: 0 <= q < parts ==>
        x[PartialValue(q)] == m[PartialValue(q)] && x[PartialIndex(q)] == m[PartialIndex(q)]
  {
  }

  /** The last two tasks leave in the two sampling cells what the reduction stored. */
  lemma {:induction false} AfterReduce(s: Shape, f: Arithmetic, m: Memory, n: Partitions, c: Cell)
    requires TailOk(s, n) && c in m && (c == SampledToken || c == SampledLogit)
    ensures 1 + n.lmHead < |Tail(s, n).tasks|
    ensures var t := Tail(s, n).tasks[1 + n.lmHead];
      Sequential(s, f, m, Tail(s, n).tasks, |Tail(s, n).tasks|)[c]
      == f(t, c, Inputs(s, t, c, Sequential(s, f, m, Tail(s, n).tasks, 1 + n.lmHead)))
  {
    hide Sequential, WellFormed, Tail, Inputs, Execute, Writes, PartitionsOk;
    SomePartition(n);
    var p := Tail(s, n);
    assert p.shape == s by { TailShape(s, n); }
    TailFirsts(s, n);
    ReduceTask(s, n);
    FeedbackTask(s, n);
    SequentialStep(p, f, m, 2 + n.lmHead);
    SequentialStep(p, f, m, 3 + n.lmHead);
    ExecuteCell(s, f, Sequential(s, f, m, p.tasks, 1 + n.lmHead), p.tasks[1 + n.lmHead], c);
    ExecuteCell(s, f, Sequential(s, f, m, p.tasks, 2 + n.lmHead), p.tasks[2 + n.lmHead], c);
    SampledOnce(s, p.tasks[1 + n.lmHead], p.tasks[2 + n.lmHead], c);
  }

  lemma SampledOnce(s: Shape, reduce: Task, feedback: Task, c: Cell)
    requires s.Valid() && reduce.opcode.Top1Reduce? && feedback.opcode.EmbeddingFeedback?
      && (c == SampledToken || c == SampledLogit)
    ensures Writes(s, reduce, c) && !Writes(s, feedback, c)
  {
  }

  lemma ExecuteCell(s: Shape, f: Arithmetic, m: Memory, t: Task, c: Cell)
    requires s.Valid() && c in m
    ensures Execute(s, f, m, t)[c] == if Writes(s, t, c) then f(t, c, Inputs(s, t, c, m)) else m[c]
  {
    hide Writes, Inputs;
  }

  /** In index order, the tail program samples the best of all logits. */
  lemma {:induction false} TailSamples(s: Shape, f: Arithmetic, decode: Decode, logits: Logits, m: Memory,
                                       n: Partitions)
    requires TailOk(s, n) && HasCells(m, n) && Samples(s, f, decode, logits)
    ensures var end := Sequential(s, f, m, Tail(s, n).tasks, |Tail(s, n).tasks|);
      IsTop(logits(Norm(s, Normalized(s, f, m))), Range(0, s.vocabulary),
            Candidate(decode(end[SampledLogit]), end[SampledToken]))
  {
    hide Sequential, Normalized, PartitionsOk, IsTop, Range, Bound, WellFormed, Tail, Norm, Reduced, PartialOk,
      PartitionSamples, Inputs;
    SomePartition(n);
    var p, parts := Tail(s, n), n.lmHead;
    var all := logits(Norm(s, Normalized(s, f, m)));
    AfterReduce(s, f, m, n, SampledToken);
    AfterReduce(s, f, m, n, SampledLogit);
    ReduceTask(s, n);
    var now, t := Sequential(s, f, m, p.tasks, 1 + parts), p.tasks[1 + parts];
    ReduceInputs(s, t, now, parts);
    var x := Inputs(s, t, SampledToken, now);
    forall q | 0 <= q < parts ensures PartialOk(all, parts, q, At(decode, x, parts, q)) {
      PartialAfter(s, f, decode, logits, m, n, q);
    }
    assert |all| == s.vocabulary;
    ReducedTop(all, decode, x, parts, parts);
    LastBound(s.vocabulary, parts);
    assert ReductionSamples(f, decode, t, x);
  }

  lemma SomePartition(n: Partitions)
    requires PartitionsOk(n)
    ensures n.lmHead > 0
  {
  }

  /** Two complete runs of the tail program from the same buffers, with any two partition
      counts, any numbers of workers and any schedules, leave the same token: the lowest
      index among the highest logits. */
  lemma {:induction false} SameTokenSampled(s: Shape, f: Arithmetic, decode: Decode, logits: Logits, m: Memory,
                         n: Partitions, steps: seq<Step>, n': Partitions, steps': seq<Step>)
    requires TailOk(s, n) && TailOk(s, n') && HasCells(m, n) && HasCells(m, n') && Samples(s, f, decode, logits)
    requires CanRun(Tail(s, n), f, Initial(Tail(s, n), m), steps)
    requires AllCompleted(Tail(s, n), Run(Tail(s, n), f, Initial(Tail(s, n), m), steps))
    requires CanRun(Tail(s, n'), f, Initial(Tail(s, n'), m), steps')
    requires AllCompleted(Tail(s, n'), Run(Tail(s, n'), f, Initial(Tail(s, n'), m), steps'))
    ensures var end := Run(Tail(s, n), f, Initial(Tail(s, n), m), steps).memory;
      var end' := Run(Tail(s, n'), f, Initial(Tail(s, n'), m), steps').memory;
      && end.Keys == m.Keys && end'.Keys == m.Keys
      && end[SampledToken] == end'[SampledToken] && decode(end[SampledLogit]) == decode(end'[SampledLogit])
      && IsTop(logits(Norm(s, Normalized(s, f, m))), Range(0, s.vocabulary),
               Candidate(decode(end[SampledLogit]), end[SampledToken]))
  {
    hide Sequential, Normalized, IsTop, Range, WellFormed, Tail, Norm, CanRun, Run, AllCompleted, Samples, Initial;
    TailShape(s, n);
    TailShape(s, n');
    TailFirsts(s, n);
    TailFirsts(s, n');
    ScheduleIndependent(Tail(s, n), f, m, steps);
    ScheduleIndependent(Tail(s, n'), f, m, steps');
    TailSamples(s, f, decode, logits, m, n);
    TailSamples(s, f, decode, logits, m, n');
    var end := Run(Tail(s, n), f, Initial(Tail(s, n), m), steps).memory;
    var end' := Run(Tail(s, n'), f, Initial(Tail(s, n'), m), steps').memory;
    TopUnique(logits(Norm(s, Normalized(s, f, m))), Range(0, s.vocabulary),
              Candidate(decode(end[SampledLogit]), end[SampledToken]),
                Candidate(decode(end'[SampledLogit]), end'[SampledToken]));
  }
}
