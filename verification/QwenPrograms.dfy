/** The decoder programs: how the builder cuts each stage into ranges and masks, and why
    the result is a well-formed staged program for every shape and partitioning. */
module QwenPrograms {
  import opened Bits
  import opened TaskMasks
  import opened QwenTasks
  import opened TaskGraph

  const MAXIMUM_LM_HEAD_PARTITIONS: nat := 32
  /** The bit pattern of the single-precision 1.0e-6. */
  const EPSILON: nat := 0x358637BD

  // ------------------------------------------------------------- ranges

  /** Where partition `p` begins. */
  function Bound(size: nat, parts: nat, p: nat): nat
    requires parts > 0
  {
    size * p / parts
  }

  lemma Divided(a: nat, b: nat, n: nat)
    requires a <= b && n > 0
    ensures a / n <= b / n
  {
    assert a == n * (a / n) + a % n && b == n * (b / n) + b % n;
    if a / n > b / n {
      AtLeast(a / n - b / n, n);
      assert false;
    }
  }

  lemma Product(size: nat, a: nat, b: nat)
    requires a <= b
    ensures size * a <= size * b
  {
  }

  lemma BoundsMonotone(size: nat, parts: nat, a: nat, b: nat)
    requires parts > 0 && a <= b
    ensures Bound(size, parts, a) <= Bound(size, parts, b)
  {
    Product(size, a, b);
    Divided(size * a, size * b, parts);
  }

  lemma LastBound(size: nat, parts: nat)
    requires parts > 0
    ensures Bound(size, parts, 0) == 0 && Bound(size, parts, parts) == size
  {
    var product := size * parts;
    var q, r := product / parts, product % parts;
    assert product == q * parts + r;
    assert (q - size) * parts == -r;
    SmallMultiple(q - size, parts);
  }

  predicate InPartition(size: nat, parts: nat, p: nat, row: nat)
    requires parts > 0
  {
    Bound(size, parts, p) <= row < Bound(size, parts, p + 1)
  }

  lemma {:induction false} FindPartition(size: nat, parts: nat, row: nat, p: nat) returns (q: nat)
    requires parts > 0 && row < Bound(size, parts, p)
    ensures q < p && InPartition(size, parts, q, row)
    decreases p
  {
    LastBound(size, parts);
    if Bound(size, parts, p - 1) <= row { q := p - 1; } else { q := FindPartition(size, parts, row, p - 1); }
  }

  /** The partitions tile the rows: every row is in exactly one of them. */
  lemma RowsTiled(size: nat, parts: nat, row: nat) returns (p: nat)
    requires parts > 0 && row < size
    ensures p < parts && InPartition(size, parts, p, row)
    ensures forall q: nat :: q < parts && InPartition(size, parts, q, row) ==> q == p
  {
    LastBound(size, parts);
    p := FindPartition(size, parts, row, parts);
    forall q: nat | q < parts && InPartition(size, parts, q, row) ensures q == p {
      PartitionsApart(size, parts, p, q, row);
    }
  }

  lemma PartitionsApart(size: nat, parts: nat, p: nat, q: nat, row: nat)
    requires parts > 0 && InPartition(size, parts, p, row) && InPartition(size, parts, q, row)
    ensures p == q
  {
    hide Bound;
    if p < q { BoundsMonotone(size, parts, p + 1, q); }
    if q < p { BoundsMonotone(size, parts, q + 1, p); }
  }

  // ------------------------------------------------------------- stages

  /** A stage cut into `parts` tasks. `indexed` stages pass the partition number along. */
  datatype StageSpec = StageSpec(opcode: Opcode, size: nat, parts: nat, argument0: nat, argument1: nat, indexed: bool)

  function TaskOf(spec: StageSpec, mask: nat, p: nat): Task
    requires spec.parts > 0
  {
    Task(spec.opcode, Split(mask), Bound(spec.size, spec.parts, p), Bound(spec.size, spec.parts, p + 1),
         if spec.indexed then p else spec.argument0, spec.argument1)
  }

  predicate SpecsOk(specs: seq<StageSpec>) {
    |specs| > 0 && forall s :: 0 <= s < |specs| ==> specs[s].parts > 0
  }

  function First(specs: seq<StageSpec>, n: nat): nat
    requires n <= |specs|
  {
    if n == 0 then 0 else First(specs, n - 1) + specs[n - 1].parts
  }

  /** The mask of the stage before stage `n`. */
  function Before(specs: seq<StageSpec>, n: nat): nat
    requires n <= |specs|
  {
    if n == 0 then 0 else RangeMask(First(specs, n - 1), First(specs, n))
  }

  function StageTasks(spec: StageSpec, mask: nat, n: nat): (r: seq<Task>)
    requires spec.parts > 0
    ensures |r| == n && forall p :: 0 <= p < n ==> r[p] == TaskOf(spec, mask, p)
  {
    seq(n, p requires 0 <= p => TaskOf(spec, mask, p))
  }

  function Tasks(specs: seq<StageSpec>, n: nat): (r: seq<Task>)
    requires SpecsOk(specs) && n <= |specs|
    ensures |r| == First(specs, n)
  {
    if n == 0 then [] else Tasks(specs, n - 1) + StageTasks(specs[n - 1], Before(specs, n - 1), specs[n - 1].parts)
  }

  function Firsts(specs: seq<StageSpec>): (r: seq<nat>)
    ensures |r| == |specs| + 1 && forall n :: 0 <= n <= |specs| ==> r[n] == First(specs, n)
  {
    seq(|specs| + 1, n requires 0 <= n <= |specs| => First(specs, n))
  }

  function Assemble(shape: Shape, specs: seq<StageSpec>): Program
    requires SpecsOk(specs)
  {
    Program(shape, Tasks(specs, |specs|), Firsts(specs))
  }

  lemma {:induction false} FirstGrows(specs: seq<StageSpec>, a: nat, b: nat)
    requires SpecsOk(specs) && a < b <= |specs|
    ensures First(specs, a) < First(specs, b)
    decreases b
  {
    if a + 1 < b { FirstGrows(specs, a, b - 1); }
  }

  lemma {:induction false} TaskAt(specs: seq<StageSpec>, n: nat, s: nat, t: nat)
    requires SpecsOk(specs) && s < n <= |specs| && First(specs, s) <= t < First(specs, s + 1)
    ensures t < |Tasks(specs, n)| && Tasks(specs, n)[t] == TaskOf(specs[s], Before(specs, s), t - First(specs, s))
    decreases n
  {
    hide TaskOf, RangeMask;
    if s < n - 1 {
      TaskAt(specs, n - 1, s, t);
    }
  }

  lemma AssembledStages(shape: Shape, specs: seq<StageSpec>)
    requires shape.Valid() && SpecsOk(specs)
    ensures StagesOk(Assemble(shape, specs))
  {
    forall a, b | 0 <= a < b <= |specs| ensures First(specs, a) < First(specs, b) {
      FirstGrows(specs, a, b);
    }
  }

  lemma {:induction false} AssembledTask(shape: Shape, specs: seq<StageSpec>, s: nat, t: nat)
    requires shape.Valid() && SpecsOk(specs) && s < |specs| && InStage(Assemble(shape, specs), s, t)
    ensures t < |Assemble(shape, specs).tasks|
    ensures Assemble(shape, specs).tasks[t] == TaskOf(specs[s], Before(specs, s), t - First(specs, s))
  {
    TaskAt(specs, |specs|, s, t);
  }

  lemma BeforeHas(shape: Shape, specs: seq<StageSpec>, s: nat, u: nat)
    requires shape.Valid() && SpecsOk(specs) && s < |specs|
    ensures Has(Split(Before(specs, s)), u) <==> InPreviousStage(Assemble(shape, specs), s, u)
  {
    JoinSplit(Before(specs, s));
    if s == 0 { ZeroBit(u); } else { RangeMaskBit(First(specs, s - 1), First(specs, s), u); }
  }

  lemma AssembledNarrow(shape: Shape, specs: seq<StageSpec>, t: nat)
    requires shape.Valid() && SpecsOk(specs) && StagesOk(Assemble(shape, specs)) && t < |Assemble(shape, specs).tasks|
    ensures Narrow(Assemble(shape, specs).tasks[t].dependencies)
  {
    var s := StageOf(Assemble(shape, specs), t, 0);
    AssembledTask(shape, specs, s, t);
    JoinSplit(Before(specs, s));
  }

  lemma AssembledDependencies(shape: Shape, specs: seq<StageSpec>)
    requires shape.Valid() && SpecsOk(specs)
    ensures StagesOk(Assemble(shape, specs)) && DependenciesOk(Assemble(shape, specs))
  {
    hide Has, Split, Narrow;
    var p := Assemble(shape, specs);
    AssembledStages(shape, specs);
    forall t: nat | t < |p.tasks| ensures Narrow(p.tasks[t].dependencies) {
      AssembledNarrow(shape, specs, t);
    }
    forall s: nat, t: nat, u: nat | s < |p.first| - 1 && InStage(p, s, t)
      ensures Has(p.tasks[t].dependencies, u) <==> InPreviousStage(p, s, u)
    {
      AssembledTask(shape, specs, s, t);
      BeforeHas(shape, specs, s, u);
    }
  }

  // ------------------------------------------------------------- disjoint ranges are quiet

  /** Stages that are cut in parts by rows, heads or partition number. */
  predicate Cuttable(spec: StageSpec) {
    match spec.opcode
    case QkvProjection => true
    case GroupedQueryAttention => true
    case AttentionOutputResidual => true
    case GateUpSilu => true
    case DownMatvec => true
    case LmHeadTop1Partition => spec.indexed
    case _ => spec.parts == 1
  }

  lemma RangesQuiet(shape: Shape, a: Task, b: Task)
    requires shape.Valid() && a.opcode == b.opcode
    requires a.opcode in {QkvProjection, GroupedQueryAttention, AttentionOutputResidual, GateUpSilu, DownMatvec}
    requires forall row: nat :: !(InRange(a, row) && InRange(b, row))
    ensures Quiet(shape, a, b)
  {
    match a.opcode
    case QkvProjection =>
    case GroupedQueryAttention =>
    case AttentionOutputResidual =>
    case GateUpSilu =>
    case DownMatvec =>
  }

  lemma PartsQuiet(shape: Shape, spec: StageSpec, mask: nat, p: nat, q: nat)
    requires shape.Valid() && spec.parts > 0 && Cuttable(spec) && p < spec.parts && q < spec.parts && p != q
    ensures Quiet(shape, TaskOf(spec, mask, p), TaskOf(spec, mask, q))
  {
    hide Bound, Writes, Reads, Quiet;
    var a, b := TaskOf(spec, mask, p), TaskOf(spec, mask, q);
    if spec.opcode == LmHeadTop1Partition {
      HeadsQuiet(shape, a, b);
    } else {
      forall row: nat ensures !(InRange(a, row) && InRange(b, row)) {
        if InRange(a, row) && InRange(b, row) {
          PartitionsApart(spec.size, spec.parts, p, q, row);
        }
      }
      RangesQuiet(shape, a, b);
    }
  }

  lemma HeadsQuiet(shape: Shape, a: Task, b: Task)
    requires shape.Valid() && a.opcode == b.opcode == LmHeadTop1Partition && a.argument0 != b.argument0
    ensures Quiet(shape, a, b)
  {
  }

  /** Any assembly of cuttable stages is a well-formed program. */
  lemma AssembledWellFormed(shape: Shape, specs: seq<StageSpec>)
    requires shape.Valid() && SpecsOk(specs)
    requires forall s :: 0 <= s < |specs| ==> Cuttable(specs[s])
    ensures WellFormed(Assemble(shape, specs))
  {
    hide DependenciesOk, Quiet, TaskOf, Cuttable;
    var p := Assemble(shape, specs);
    AssembledDependencies(shape, specs);
    forall s: nat, t: nat, u: nat | s < |p.first| - 1 && InStage(p, s, t) && InStage(p, s, u) && t != u
      ensures Quiet(p.shape, p.tasks[t], p.tasks[u])
    {
      AssembledTask(shape, specs, s, t);
      AssembledTask(shape, specs, s, u);
      PartsQuiet(shape, specs[s], Before(specs, s), t - First(specs, s), u - First(specs, s));
    }
  }

  // ------------------------------------------------------------- the decoder

  datatype Partitions = Partitions(projection: nat, attention: nat, output: nat, ffn: nat, down: nat, lmHead: nat)

  function Whole(opcode: Opcode, size: nat, argument0: nat, argument1: nat): StageSpec {
    StageSpec(opcode, size, 1, argument0, argument1, false)
  }

  function Cut(opcode: Opcode, size: nat, parts: nat): StageSpec {
    StageSpec(opcode, size, parts, 0, 0, false)
  }

  function AttentionSpecs(s: Shape, n: Partitions): seq<StageSpec> {
    [Whole(AttentionRmsnorm, s.hidden, EPSILON, 0),
     Cut(QkvProjection, s.PackedSize(), n.projection),
     Whole(RopeKvCache, s.heads + s.kvHeads, 0, 0),
     Cut(GroupedQueryAttention, s.heads, n.attention),
     Cut(AttentionOutputResidual, s.hidden, n.output)]
  }

  function FeedForwardSpecs(s: Shape, n: Partitions): seq<StageSpec> {
    [Whole(MlpRmsnorm, s.hidden, EPSILON, 0),
     Cut(GateUpSilu, s.intermediate, n.ffn),
     Cut(DownMatvec, s.hidden, n.down),
     Whole(ResidualAdvance, s.hidden, 1, 1)]
  }

  function TailSpecs(s: Shape, n: Partitions): seq<StageSpec> {
    [Whole(FinalRmsnorm, s.hidden, EPSILON, 0),
     Cut(LmHeadTop1Partition, s.vocabulary, n.lmHead).(indexed := true),
     Whole(Top1Reduce, n.lmHead, 0, 0),
     Whole(EmbeddingFeedback, s.hidden, 0, 0)]
  }

  predicate PartitionsOk(n: Partitions) {
    && n.projection > 0 && n.attention > 0 && n.output > 0 && n.ffn > 0 && n.down > 0 && n.lmHead > 0
    && 2 + n.projection + n.attention + n.output <= MAXIMUM_TASKS
    && 2 + n.ffn + n.down <= MAXIMUM_TASKS
    && 3 + n.lmHead <= MAXIMUM_TASKS
  }

  /** All three programs of the decoder are well formed, whatever the sizes and partition
      counts, so every schedule of them leaves what the index order leaves. */
  lemma DecoderWellFormed(s: Shape, n: Partitions)
    requires s.Valid() && PartitionsOk(n)
    ensures SpecsOk(AttentionSpecs(s, n)) && WellFormed(Assemble(s, AttentionSpecs(s, n)))
    ensures SpecsOk(FeedForwardSpecs(s, n)) && WellFormed(Assemble(s, FeedForwardSpecs(s, n)))
    ensures SpecsOk(TailSpecs(s, n)) && WellFormed(Assemble(s, TailSpecs(s, n)))
  {
    hide WellFormed;
    AssembledWellFormed(s, AttentionSpecs(s, n));
    AssembledWellFormed(s, FeedForwardSpecs(s, n));
    AssembledWellFormed(s, TailSpecs(s, n));
  }

  /** The masks of a program of at most 64 tasks fit in 64 bits. */
  lemma {:induction false} MasksFit(specs: seq<StageSpec>, n: nat)
    requires SpecsOk(specs) && n < |specs| && First(specs, |specs|) <= MAXIMUM_TASKS
    ensures Before(specs, n) < Pow2(MAXIMUM_TASKS)
  {
    hide Pow2, RangeMask;
    FirstGrows(specs, n, |specs|);
    PowPositive(MAXIMUM_TASKS);
    if n > 0 {
      RangeMaskFits(First(specs, n - 1), First(specs, n));
    }
  }

  lemma {:induction false} PowPositive(k: nat)
    ensures Pow2(k) > 0
  {
  }

  // ------------------------------------------------------------- the builder

  datatype Entry = Entry(taskOffset: nat, taskCount: nat, nextProgram: nat, advancesStep: bool, branchesOnState: bool,
                         branchProgram: nat, evaluatesPredicate: bool)

  datatype Table = Table(tasks: seq<Task>, programs: seq<Entry>)

  datatype Built = Built(table: Table) | InvalidPartitioning

  lemma StageNone(tasks: seq<Task>, offset: nat, spec: StageSpec, mask: nat)
    requires offset <= |tasks| && spec.parts > 0
    ensures tasks + StageTasks(spec, mask, 0) == tasks && RangeMask(|tasks| - offset, |tasks| - offset) == 0
  {
  }

  lemma StageStep(tasks: seq<Task>, offset: nat, spec: StageSpec, mask: nat, p: nat)
    requires offset <= |tasks| && spec.parts > 0
    ensures var at := |tasks| - offset;
            && tasks + StageTasks(spec, mask, p + 1) == tasks + StageTasks(spec, mask, p) + [TaskOf(spec, mask, p)]
            && RangeMask(at, at + p + 1) == Or(RangeMask(at, at + p), Pow2(at + p))
  {
    hide TaskOf, Or, Pow2;
  }

  /** One stage of tasks after another; the mask collects the bits of the new tasks. */
  method AppendStage(tasks: seq<Task>, offset: nat, spec: StageSpec, mask: nat) returns (all: seq<Task>, bits: nat)
    requires offset <= |tasks| && spec.parts > 0
    ensures all == tasks + StageTasks(spec, mask, spec.parts)
    ensures bits == RangeMask(|tasks| - offset, |tasks| - offset + spec.parts)
  {
    hide Or, Pow2, Split, RangeMask, StageTasks;
    all, bits := tasks, 0;
    var p := 0;
    StageNone(tasks, offset, spec, mask);
    while p < spec.parts
      invariant p <= spec.parts
      invariant all == tasks + StageTasks(spec, mask, p)
      invariant bits == RangeMask(|tasks| - offset, |tasks| - offset + p)
    {
      var index := |all| - offset;
      StageStep(tasks, offset, spec, mask, p);
      all := all + [Task(spec.opcode, Split(mask), spec.size * p / spec.parts, spec.size * (p + 1) / spec.parts,
                         if spec.indexed then p else spec.argument0, spec.argument1)];
      bits := Or(bits, Pow2(index));
      p := p + 1;
    }
  }

  method AppendProgram(tasks: seq<Task>, specs: seq<StageSpec>) returns (all: seq<Task>)
    requires SpecsOk(specs)
    ensures all == tasks + Tasks(specs, |specs|)
  {
    hide Pow2, Or, RangeMask, StageTasks;
    all := tasks;
    var n, mask := 0, 0;
    while n < |specs|
      invariant n <= |specs|
      invariant all == tasks + Tasks(specs, n)
      invariant mask == Before(specs, n)
    {
      all, mask := AppendStage(all, |tasks|, specs[n], mask);
      n := n + 1;
    }
  }

  /** The decoder's programs: attention, feed-forward and tail, one after the other in one
      task list, each with masks local to its own tasks. */
  method MakePrograms(s: Shape, n: Partitions) returns (r: Built)
    requires s.hidden > 0 && n.projection > 0 && n.attention > 0 && n.output > 0 && n.ffn > 0 && n.down > 0
    ensures r.InvalidPartitioning? <==>
            s.vocabulary == 0 || n.lmHead == 0 || n.lmHead > MAXIMUM_LM_HEAD_PARTITIONS || n.lmHead > s.vocabulary
    ensures r.Built? ==>
      && |r.table.programs| == 3
      && SpecsOk(AttentionSpecs(s, n)) && SpecsOk(FeedForwardSpecs(s, n)) && SpecsOk(TailSpecs(s, n))
      && ProgramTasks(r.table, 0) == Tasks(AttentionSpecs(s, n), 5)
      && ProgramTasks(r.table, 1) == Tasks(FeedForwardSpecs(s, n), 4)
      && ProgramTasks(r.table, 2) == Tasks(TailSpecs(s, n), 4)
      && r.table.tasks == Tasks(AttentionSpecs(s, n), 5) + Tasks(FeedForwardSpecs(s, n), 4) + Tasks(TailSpecs(s, n), 4)
      && Linked(r.table)
  {
    if s.vocabulary == 0 || n.lmHead == 0 || n.lmHead > MAXIMUM_LM_HEAD_PARTITIONS || n.lmHead > s.vocabulary {
      return InvalidPartitioning;
    }
    SpecsValid(s, n);
    TailCount(s, n);
    var table := BuildTable(AttentionSpecs(s, n), FeedForwardSpecs(s, n), TailSpecs(s, n), n.lmHead);
    r := Built(table);
  }

  method BuildTable(a: seq<StageSpec>, f: seq<StageSpec>, t: seq<StageSpec>, lmHead: nat) returns (table: Table)
    requires SpecsOk(a) && SpecsOk(f) && SpecsOk(t) && First(t, |t|) == lmHead + 3
    ensures |table.programs| == 3
    ensures ProgramTasks(table, 0) == Tasks(a, |a|)
    ensures ProgramTasks(table, 1) == Tasks(f, |f|)
    ensures ProgramTasks(table, 2) == Tasks(t, |t|)
    ensures table.tasks == Tasks(a, |a|) + Tasks(f, |f|) + Tasks(t, |t|) && Linked(table)
  {
    hide *;
    var attention := AppendProgram([], a);
    var first := Entry(0, |attention|, 1, false, false, 0, false);
    var decoder := AppendProgram(attention, f);
    var second := Entry(|attention|, |decoder| - |attention|, 0, true, true, 2, false);
    var all := AppendProgram(decoder, t);
    var third := Entry(|decoder|, lmHead + 3, 0, false, false, 0, true);
    table := Table(all, [first, second, third]);
    assert attention == Tasks(a, |a|);
    LinksOf(table);
    TableSlices(Tasks(a, |a|), Tasks(f, |f|), Tasks(t, |t|), table);
  }

  /** Attention runs first and hands over to feed-forward, which advances the step and
      branches to the tail; the tail evaluates the predicate and returns to attention. */
  predicate Linked(t: Table) {
    && |t.programs| == 3
    && t.programs[0].nextProgram == 1 && !t.programs[0].advancesStep && !t.programs[0].branchesOnState
    && t.programs[1].nextProgram == 0 && t.programs[1].advancesStep && t.programs[1].branchesOnState
      && t.programs[1].branchProgram == 2
    && t.programs[2].nextProgram == 0 && !t.programs[2].advancesStep && !t.programs[2].branchesOnState
    && !t.programs[0].evaluatesPredicate && !t.programs[1].evaluatesPredicate && t.programs[2].evaluatesPredicate
  }

  lemma LinksOf(t: Table)
    requires |t.programs| == 3
    requires t.programs[0] == Entry(t.programs[0].taskOffset, t.programs[0].taskCount, 1, false, false, 0, false)
    requires t.programs[1] == Entry(t.programs[1].taskOffset, t.programs[1].taskCount, 0, true, true, 2, false)
    requires t.programs[2] == Entry(t.programs[2].taskOffset, t.programs[2].taskCount, 0, false, false, 0, true)
    ensures Linked(t)
  {
  }

  lemma SpecsValid(s: Shape, n: Partitions)
    requires n.projection > 0 && n.attention > 0 && n.output > 0 && n.ffn > 0 && n.down > 0 && n.lmHead > 0
    ensures |AttentionSpecs(s, n)| == 5 && |FeedForwardSpecs(s, n)| == 4 && |TailSpecs(s, n)| == 4
    ensures SpecsOk(AttentionSpecs(s, n)) && SpecsOk(FeedForwardSpecs(s, n)) && SpecsOk(TailSpecs(s, n))
  {
  }

  lemma TableSlices(a: seq<Task>, b: seq<Task>, c: seq<Task>, t: Table)
    requires t.tasks == a + b + c && |t.programs| == 3
    requires t.programs[0].taskOffset == 0 && t.programs[0].taskCount == |a|
    requires t.programs[1].taskOffset == |a| && t.programs[1].taskCount == |b|
    requires t.programs[2].taskOffset == |a| + |b| && t.programs[2].taskCount == |c|
    ensures ProgramTasks(t, 0) == a && ProgramTasks(t, 1) == b && ProgramTasks(t, 2) == c
  {
  }

  lemma TailCount(s: Shape, n: Partitions)
    ensures First(TailSpecs(s, n), 4) == n.lmHead + 3
  {
    var specs := TailSpecs(s, n);
    assert First(specs, 1) == 1;
    assert First(specs, 2) == 1 + n.lmHead;
    assert First(specs, 3) == 2 + n.lmHead;
  }

  function ProgramTasks(t: Table, i: nat): seq<Task>
    requires i < |t.programs|
  {
    var e := t.programs[i];
    if e.taskOffset + e.taskCount <= |t.tasks| then t.tasks[e.taskOffset..e.taskOffset + e.taskCount] else []
  }

  // ------------------------------------------------------------- host and resident agree

  datatype HostStage = HostStage(taskBegin: nat, taskCount: nat)

  /** The host's own list of launches for one decoder step and its tail. */
  function HostStages(n: Partitions): seq<HostStage> {
    var attention := 2 + n.projection + n.attention + n.output;
    var decoder := attention + 2 + n.ffn + n.down;
    [HostStage(0, 1),
     HostStage(1, n.projection),
     HostStage(1 + n.projection, 1),
     HostStage(2 + n.projection, n.attention),
     HostStage(2 + n.projection + n.attention, n.output),
     HostStage(attention, 1),
     HostStage(attention + 1, n.ffn),
     HostStage(attention + 1 + n.ffn, n.down),
     HostStage(decoder - 1, 1),
     HostStage(decoder, 1),
     HostStage(decoder + 1, n.lmHead),
     HostStage(decoder + 1 + n.lmHead, 1),
     HostStage(decoder + 2 + n.lmHead, 1)]
  }

  function Launch(offset: nat, specs: seq<StageSpec>, s: nat): HostStage
    requires s < |specs|
  {
    HostStage(offset + First(specs, s), specs[s].parts)
  }

  lemma {:induction false} FirstOfFive(specs: seq<StageSpec>)
    requires |specs| == 5
    ensures First(specs, 0) == 0 && First(specs, 1) == specs[0].parts
    ensures First(specs, 2) == specs[0].parts + specs[1].parts
    ensures First(specs, 3) == specs[0].parts + specs[1].parts + specs[2].parts
    ensures First(specs, 4) == specs[0].parts + specs[1].parts + specs[2].parts + specs[3].parts
    ensures First(specs, 5) == specs[0].parts + specs[1].parts + specs[2].parts + specs[3].parts + specs[4].parts
  {
    assert First(specs, 2) == First(specs, 1) + specs[1].parts;
    assert First(specs, 4) == First(specs, 3) + specs[3].parts;
  }

  lemma {:induction false} FirstOfFour(specs: seq<StageSpec>)
    requires |specs| == 4
    ensures First(specs, 0) == 0 && First(specs, 1) == specs[0].parts
    ensures First(specs, 2) == specs[0].parts + specs[1].parts
    ensures First(specs, 3) == specs[0].parts + specs[1].parts + specs[2].parts
    ensures First(specs, 4) == specs[0].parts + specs[1].parts + specs[2].parts + specs[3].parts
  {
    assert First(specs, 2) == First(specs, 1) + specs[1].parts;
  }

  /** The host launches exactly the stages of the three programs, in order. */
  lemma HostLaunchesStages(s: Shape, n: Partitions, i: nat)
    requires i < 13
    ensures var a, f, t := AttentionSpecs(s, n), FeedForwardSpecs(s, n), TailSpecs(s, n);
            HostStages(n)[i] ==
              if i < 5 then Launch(0, a, i)
              else if i < 9 then Launch(First(a, 5), f, i - 5)
              else Launch(First(a, 5) + First(f, 4), t, i - 9)
  {
    hide First;
    FirstOfFive(AttentionSpecs(s, n));
    FirstOfFour(FeedForwardSpecs(s, n));
    FirstOfFour(TailSpecs(s, n));
  }

  /** Every complete run of one of the decoder's programs, by any number of workers in any
      interleaving, leaves the buffers of the stage-by-stage order. */
  lemma {:induction false} DecoderScheduleIndependent(s: Shape, n: Partitions, specs: seq<StageSpec>,
                                                      f: Arithmetic, m: Memory, steps: seq<Step>)
    requires s.Valid() && PartitionsOk(n)
    requires specs == AttentionSpecs(s, n) || specs == FeedForwardSpecs(s, n) || specs == TailSpecs(s, n)
    requires SpecsOk(specs)
    requires CanRun(Assemble(s, specs), f, Initial(Assemble(s, specs), m), steps)
    requires AllCompleted(Assemble(s, specs), Run(Assemble(s, specs), f, Initial(Assemble(s, specs), m), steps))
    ensures Run(Assemble(s, specs), f, Initial(Assemble(s, specs), m), steps).memory ==
            Sequential(s, f, m, Tasks(specs, |specs|), |Tasks(specs, |specs|)|)
  {
    hide Run, CanRun, WellFormed, Sequential, AttentionSpecs, FeedForwardSpecs, TailSpecs, Tasks, PartitionsOk,
      SpecsOk, AllCompleted;
    DecoderWellFormed(s, n);
    ScheduleIndependent(Assemble(s, specs), f, m, steps);
  }
}
