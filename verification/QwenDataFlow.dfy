/** What the decoder programs compute: every output is written by exactly one task, every
    intermediate value is read from the stage that is meant to produce it, and every task
    passes the workload's own check. */
module QwenDataFlow {
  import opened TaskMasks
  import opened QwenTasks
  import opened TaskGraph
  import opened QwenPrograms

  /** How the sizes of a grouped-query model belong together. */
  predicate Tied(s: Shape) {
    s.Valid() && s.query == s.heads * s.headSize && s.kv == s.kvHeads * s.headSize && s.headSize == 2 * s.rotary
  }

  /** The three programs: attention, feed-forward, tail. */
  function Specs(s: Shape, n: Partitions, which: nat): (r: seq<StageSpec>)
    requires which < 3
    ensures |r| == if which == 0 then 5 else 4
  {
    if which == 0 then AttentionSpecs(s, n) else if which == 1 then FeedForwardSpecs(s, n) else TailSpecs(s, n)
  }

  function Decoder(s: Shape, n: Partitions, which: nat): Program
    requires which < 3 && PartitionsOk(n)
  {
    SpecsValid(s, n);
    Assemble(s, Specs(s, n, which))
  }

  // ------------------------------------------------------------- what a stage is for

  /** The cells an operation of the model produces, all of them. */
  predicate Makes(s: Shape, n: Partitions, op: Opcode, c: Cell) {
    match op
    case AttentionRmsnorm => c.AttentionNormalized? && c.i < s.hidden
    case QkvProjection => (c.Query? && c.i < s.query) || ((c.Key? || c.Val?) && c.i < s.kv)
    case RopeKvCache => (c.Query? && c.i < s.query) || ((c.Key? || c.KeyCache? || c.ValueCache?) && c.i < s.kv)
    case GroupedQueryAttention => c.Query? && c.i < s.query
    case AttentionOutputResidual => c.Hidden? && c.i < s.hidden
    case MlpRmsnorm => c.MlpNormalized? && c.i < s.hidden
    case GateUpSilu => c.Activated? && c.i < s.intermediate
    case DownMatvec => c.Projected? && c.i < s.hidden
    case ResidualAdvance => (c.Hidden? && c.i < s.hidden) || c.BranchValue?
    case FinalRmsnorm => c.FinalNormalized? && c.i < s.hidden
    case LmHeadTop1Partition => (c.PartialValue? || c.PartialIndex?) && c.i < n.lmHead
    case Top1Reduce => c.SampledLogit? || c.SampledToken?
    case EmbeddingFeedback =>
      || (c.Hidden? && c.i < s.hidden)
      || c.OutputToken? || c.GeneratedTokens? || c.StopReason? || c.TokenPosition? || c.KvLength? || c.PredicateValue?
  }

  /** Values that live only inside a program, and the sampled token. */
  predicate Intermediate(c: Cell) {
    c.AttentionNormalized? || c.Query? || c.Key? || c.Val? || c.MlpNormalized? || c.Activated? || c.Projected?
    || c.FinalNormalized? || c.PartialValue? || c.PartialIndex? || c.SampledToken?
  }

  /** The operation whose result the reader is meant to see. */
  function Producer(reader: Opcode): Opcode {
    match reader
    case QkvProjection => AttentionRmsnorm
    case RopeKvCache => QkvProjection
    case GroupedQueryAttention => RopeKvCache
    case AttentionOutputResidual => GroupedQueryAttention
    case GateUpSilu => MlpRmsnorm
    case DownMatvec => GateUpSilu
    case ResidualAdvance => DownMatvec
    case LmHeadTop1Partition => FinalRmsnorm
    case Top1Reduce => LmHeadTop1Partition
    case EmbeddingFeedback => Top1Reduce
    case other => other
  }

  // ------------------------------------------------------------- coverage

  /** The row of a stage that decides which task produces the cell. */
  function Row(s: Shape, op: Opcode, c: Cell): nat
    requires s.Valid()
  {
    match c
    case Query(i) => if op.GroupedQueryAttention? then i / s.headSize else i
    case Key(i) => s.query + i
    case Val(i) => s.query + s.kv + i
    case AttentionNormalized(i) => i
    case Hidden(i) => i
    case MlpNormalized(i) => i
    case Activated(i) => i
    case Projected(i) => i
    case FinalNormalized(i) => i
    case _ => 0
  }

  predicate ByRow(op: Opcode) {
    op.QkvProjection? || op.GroupedQueryAttention? || op.AttentionOutputResidual? || op.GateUpSilu? || op.DownMatvec?
  }

  lemma HeadOf(s: Shape, i: nat)
    requires s.Valid() && s.query == s.heads * s.headSize
    ensures i < s.query <==> i / s.headSize < s.heads
  {
    var h, r := i / s.headSize, i % s.headSize;
    assert i == h * s.headSize + r;
    if h < s.heads {
      assert (h + 1) * s.headSize <= s.heads * s.headSize by { Product(s.headSize, h + 1, s.heads); }
    } else {
      assert s.heads * s.headSize <= h * s.headSize by { Product(s.headSize, s.heads, h); }
    }
  }

  /** A task of a stage cut by rows writes the cells of its rows. */
  lemma RowWrites(s: Shape, n: Partitions, t: Task, c: Cell)
    requires Tied(s) && ByRow(t.opcode)
    ensures Makes(s, n, t.opcode, c) ==> (Writes(s, t, c) <==> InRange(t, Row(s, t.opcode, c)))
  {
  }

  lemma RowBound(s: Shape, n: Partitions, spec: StageSpec, c: Cell)
    requires Tied(s) && ByRow(spec.opcode) && Makes(s, n, spec.opcode, c)
    requires spec.size == Size(s, n, spec.opcode)
    ensures Row(s, spec.opcode, c) < spec.size
  {
    if spec.opcode.GroupedQueryAttention? { HeadOf(s, c.i); }
  }

  /** How many rows an operation of the model has. */
  function Size(s: Shape, n: Partitions, op: Opcode): nat {
    match op
    case QkvProjection => s.query + 2 * s.kv
    case RopeKvCache => s.heads + s.kvHeads
    case GroupedQueryAttention => s.heads
    case GateUpSilu => s.intermediate
    case LmHeadTop1Partition => s.vocabulary
    case Top1Reduce => n.lmHead
    case _ => s.hidden
  }

  lemma SpecSizes(s: Shape, n: Partitions, which: nat, k: nat)
    requires s.Valid() && which < 3 && PartitionsOk(n) && k < |Specs(s, n, which)|
    ensures var spec := Specs(s, n, which)[k];
            && spec.parts > 0 && spec.size == Size(s, n, spec.opcode)
            && (!ByRow(spec.opcode) && !spec.opcode.LmHeadTop1Partition? ==> spec.parts == 1)
            && (spec.opcode.LmHeadTop1Partition? ==> spec.indexed && spec.parts == n.lmHead)
            && (spec.opcode.ResidualAdvance? ==> spec.argument0 != 0 && spec.argument1 == 1 && !spec.indexed)
            && (spec.opcode.Top1Reduce? ==> spec.size == n.lmHead)
            && (spec.indexed ==> spec.opcode.LmHeadTop1Partition?)
  {
  }

  /** The writer inside its stage: partition `p` writes the cell and no other does. */
  lemma PartWriter(s: Shape, n: Partitions, spec: StageSpec, mask: nat, c: Cell) returns (p: nat)
    requires Tied(s) && PartitionsOk(n) && spec.parts > 0 && spec.size == Size(s, n, spec.opcode)
    requires !ByRow(spec.opcode) && !spec.opcode.LmHeadTop1Partition? ==> spec.parts == 1
    requires spec.opcode.LmHeadTop1Partition? ==> spec.indexed && spec.parts == n.lmHead
    requires Makes(s, n, spec.opcode, c)
    ensures p < spec.parts
    ensures forall q: nat :: q < spec.parts ==> (Writes(s, TaskOf(spec, mask, q), c) <==> q == p)
  {
    hide Bound, Split;
    if ByRow(spec.opcode) {
      RowBound(s, n, spec, c);
      p := RowsTiled(spec.size, spec.parts, Row(s, spec.opcode, c));
      forall q: nat | q < spec.parts ensures Writes(s, TaskOf(spec, mask, q), c) <==> q == p {
        RowWrites(s, n, TaskOf(spec, mask, q), c);
        assert InRange(TaskOf(spec, mask, q), Row(s, spec.opcode, c))
          <==> InPartition(spec.size, spec.parts, q, Row(s, spec.opcode, c));
      }
    } else if spec.opcode.LmHeadTop1Partition? {
      p := c.i;
    } else {
      p := 0;
      LastBound(spec.size, 1);
    }
  }

  /** What a task of a stage writes is what the stage is for. */
  lemma OnlyMakes(s: Shape, n: Partitions, spec: StageSpec, mask: nat, q: nat, c: Cell)
    requires Tied(s) && PartitionsOk(n) && spec.parts > 0 && spec.size == Size(s, n, spec.opcode) && q < spec.parts
    requires spec.opcode.LmHeadTop1Partition? ==> spec.indexed && spec.parts == n.lmHead
    requires spec.opcode.ResidualAdvance? ==> spec.argument1 == 1 && !spec.indexed
    requires Writes(s, TaskOf(spec, mask, q), c)
    ensures Makes(s, n, spec.opcode, c)
  {
    hide Bound, Split;
    BoundsMonotone(spec.size, spec.parts, q + 1, spec.parts);
    LastBound(spec.size, spec.parts);
    if c.Query? { HeadOf(s, c.i); }
  }

  /** Where a task of a program stands. */
  lemma Place(s: Shape, n: Partitions, which: nat, t: nat) returns (k: nat, p: nat)
    requires s.Valid() && which < 3 && PartitionsOk(n) && t < |Decoder(s, n, which).tasks|
    ensures k < |Specs(s, n, which)| && SpecsOk(Specs(s, n, which)) && p < Specs(s, n, which)[k].parts
    ensures t == First(Specs(s, n, which), k) + p
    ensures Decoder(s, n, which).tasks[t] == TaskOf(Specs(s, n, which)[k], Before(Specs(s, n, which), k), p)
  {
    hide Before, TaskOf, Tasks;
    SpecsValid(s, n);
    var specs := Specs(s, n, which);
    AssembledStages(s, specs);
    k := StageOf(Assemble(s, specs), t, 0);
    AssembledTask(s, specs, k, t);
    p := t - First(specs, k);
  }

  lemma TaskIn(s: Shape, n: Partitions, which: nat, k: nat, p: nat)
    requires s.Valid() && which < 3 && PartitionsOk(n) && k < |Specs(s, n, which)|
    requires SpecsOk(Specs(s, n, which)) && p < Specs(s, n, which)[k].parts
    ensures var specs, t := Specs(s, n, which), First(Specs(s, n, which), k) + p;
            && t < |Decoder(s, n, which).tasks|
            && Decoder(s, n, which).tasks[t] == TaskOf(specs[k], Before(specs, k), p)
  {
    hide Before, TaskOf;
    TaskAt(Specs(s, n, which), |Specs(s, n, which)|, k, First(Specs(s, n, which), k) + p);
  }

  lemma DistinctOpcodes(s: Shape, n: Partitions, which: nat, j: nat, k: nat)
    requires which < 3 && j < |Specs(s, n, which)| && k < |Specs(s, n, which)|
    requires Specs(s, n, which)[j].opcode == Specs(s, n, which)[k].opcode
    ensures j == k
  {
  }

  /** Task `u` is the one task of its opcode that writes the cell. */
  ghost predicate OneWriter(p: Program, op: Opcode, c: Cell, u: nat)
    requires p.shape.Valid()
  {
    && u < |p.tasks| && p.tasks[u].opcode == op && Writes(p.shape, p.tasks[u], c)
    && forall v :: 0 <= v < |p.tasks| && p.tasks[v].opcode == op && Writes(p.shape, p.tasks[v], c) ==> v == u
  }

  predicate HasStage(s: Shape, n: Partitions, which: nat, op: Opcode)
    requires which < 3
  {
    exists k :: 0 <= k < |Specs(s, n, which)| && Specs(s, n, which)[k].opcode == op
  }

  lemma DecoderShape(s: Shape, n: Partitions, which: nat)
    requires which < 3 && PartitionsOk(n)
    ensures Decoder(s, n, which).shape == s
  {
  }

  /** Every element an operation of the program is for is written by exactly one of its tasks. */
  lemma Covered(s: Shape, n: Partitions, which: nat, op: Opcode, c: Cell) returns (u: nat)
    requires Tied(s) && PartitionsOk(n) && which < 3 && HasStage(s, n, which, op) && Makes(s, n, op, c)
    ensures Decoder(s, n, which).shape == s && OneWriter(Decoder(s, n, which), op, c, u)
  {
    hide Writes, Makes, TaskOf, Before, First, Decoder, PartitionsOk, Specs, Size;
    var specs := Specs(s, n, which);
    var k: nat :| k < |specs| && specs[k].opcode == op;
    u := StageWriter(s, n, which, k, c);
    DecoderShape(s, n, which);
    forall v: nat | v < |Decoder(s, n, which).tasks| && Decoder(s, n, which).tasks[v].opcode == op
                    && Writes(s, Decoder(s, n, which).tasks[v], c)
      ensures v == u
    {
      SameStage(s, n, which, k, c, u, v);
    }
  }

  lemma StageWriter(s: Shape, n: Partitions, which: nat, k: nat, c: Cell) returns (u: nat)
    requires Tied(s) && PartitionsOk(n) && which < 3 && k < |Specs(s, n, which)|
    requires Makes(s, n, Specs(s, n, which)[k].opcode, c)
    ensures u < |Decoder(s, n, which).tasks| && Writes(s, Decoder(s, n, which).tasks[u], c)
    ensures Decoder(s, n, which).tasks[u].opcode == Specs(s, n, which)[k].opcode
    ensures First(Specs(s, n, which), k) <= u < First(Specs(s, n, which), k + 1)
  {
    hide Writes, Makes, Before, Decoder, Size, Bound, Split, PartitionsOk, Specs;
    AllSpecs(s, n, which);
    SpecSizes(s, n, which, k);
    var spec := Specs(s, n, which)[k];
    var p := PartWriter(s, n, spec, Before(Specs(s, n, which), k), c);
    TaskIn(s, n, which, k, p);
    u := First(Specs(s, n, which), k) + p;
  }

  lemma AllSpecs(s: Shape, n: Partitions, which: nat)
    requires which < 3 && PartitionsOk(n)
    ensures SpecsOk(Specs(s, n, which))
  {
    SpecsValid(s, n);
  }

  lemma SameStage(s: Shape, n: Partitions, which: nat, k: nat, c: Cell, u: nat, v: nat)
    requires Tied(s) && PartitionsOk(n) && which < 3 && k < |Specs(s, n, which)|
    requires u < |Decoder(s, n, which).tasks| && v < |Decoder(s, n, which).tasks|
    requires Decoder(s, n, which).tasks[u].opcode == Decoder(s, n, which).tasks[v].opcode
             == Specs(s, n, which)[k].opcode
    requires Writes(s, Decoder(s, n, which).tasks[u], c) && Writes(s, Decoder(s, n, which).tasks[v], c)
    ensures u == v
  {
    hide Writes, Makes, Before, Decoder, Size, Bound, Split, PartitionsOk, Specs, First;
    AllSpecs(s, n, which);
    var ku, pu := Place(s, n, which, u);
    var kv, pv := Place(s, n, which, v);
    DistinctOpcodes(s, n, which, ku, k);
    DistinctOpcodes(s, n, which, kv, k);
    SpecSizes(s, n, which, k);
    var spec, mask := Specs(s, n, which)[k], Before(Specs(s, n, which), k);
    OnlyMakes(s, n, spec, mask, pu, c);
    var p := PartWriter(s, n, spec, mask, c);
  }

  // ------------------------------------------------------------- data flow

  /** What a task reads of the intermediate values, the producing operation is for. */
  lemma ReadsMade(s: Shape, n: Partitions, t: Task, target: Cell, c: Cell)
    requires Tied(s) && Makes(s, n, t.opcode, target) && Reads(s, t, target, c) && Intermediate(c)
    requires t.opcode.Top1Reduce? ==> t.end == n.lmHead
    ensures Producer(t.opcode) != t.opcode && Makes(s, n, Producer(t.opcode), c)
  {
    hide Reads, Makes;
    if t.opcode.RopeKvCache? {
      RopeReads(s, n, t, target, c);
    } else if t.opcode.GroupedQueryAttention? {
      AttentionReads(s, n, t, target, c);
    } else {
      PlainReads(s, n, t, target, c);
    }
  }

  lemma PlainReads(s: Shape, n: Partitions, t: Task, target: Cell, c: Cell)
    requires s.Valid() && !t.opcode.RopeKvCache? && !t.opcode.GroupedQueryAttention?
    requires Makes(s, n, t.opcode, target) && Reads(s, t, target, c) && Intermediate(c)
    requires t.opcode.Top1Reduce? ==> t.end == n.lmHead
    ensures Producer(t.opcode) != t.opcode && Makes(s, n, Producer(t.opcode), c)
  {
  }

  lemma AttentionReads(s: Shape, n: Partitions, t: Task, target: Cell, c: Cell)
    requires Tied(s) && t.opcode.GroupedQueryAttention? && Makes(s, n, GroupedQueryAttention, target)
    requires Reads(s, t, target, c) && Intermediate(c)
    ensures Makes(s, n, RopeKvCache, c)
  {
    SameHead(s, target.i, c.i);
  }

  lemma RopeReads(s: Shape, n: Partitions, t: Task, target: Cell, c: Cell)
    requires Tied(s) && t.opcode.RopeKvCache? && Makes(s, n, RopeKvCache, target)
    requires Reads(s, t, target, c) && Intermediate(c)
    ensures Makes(s, n, QkvProjection, c)
  {
    if c.Query? { SameHead(s, target.i, c.i); }
    if c.Key? { SameKvHead(s, target.i, c.i); }
  }

  /** The producing operation is the stage just before. */
  lemma ProducerBefore(s: Shape, n: Partitions, which: nat, k: nat)
    requires which < 3 && k < |Specs(s, n, which)|
    requires Producer(Specs(s, n, which)[k].opcode) != Specs(s, n, which)[k].opcode
    ensures k > 0 && Specs(s, n, which)[k - 1].opcode == Producer(Specs(s, n, which)[k].opcode)
  {
  }

  lemma SameHead(s: Shape, i: nat, j: nat)
    requires Tied(s)
    ensures i / s.headSize == j / s.headSize && i < s.query ==> j < s.query
  {
    HeadOf(s, i);
    HeadOf(s, j);
  }

  lemma SameKvHead(s: Shape, i: nat, j: nat)
    requires Tied(s)
    ensures i / s.headSize == j / s.headSize && i < s.kv ==> j < s.kv
  {
    if i < s.kv {
      var keys := s.(heads := s.kvHeads, query := s.kv);
      HeadOf(keys, i);
      HeadOf(keys, j);
    }
  }

  /** In index order, `u` is the last task before `t` that writes the cell. */
  ghost predicate LastWriter(p: Program, u: nat, t: nat, c: Cell)
    requires p.shape.Valid()
  {
    && u < t < |p.tasks| && Writes(p.shape, p.tasks[u], c)
    && forall v :: u < v < t ==> !Writes(p.shape, p.tasks[v], c)
  }

  /** Whatever intermediate value a task of the decoder reads was stored last by the operation
      that is meant to produce it, by exactly one of its tasks, in the same program. */
  lemma DataFlow(s: Shape, n: Partitions, which: nat, t: nat, target: Cell, c: Cell) returns (u: nat)
    requires Tied(s) && PartitionsOk(n) && which < 3 && t < |Decoder(s, n, which).tasks|
    requires Writes(s, Decoder(s, n, which).tasks[t], target) && Reads(s, Decoder(s, n, which).tasks[t], target, c)
    requires Intermediate(c)
    ensures Decoder(s, n, which).shape == s
    ensures LastWriter(Decoder(s, n, which), u, t, c)
    ensures OneWriter(Decoder(s, n, which), Producer(Decoder(s, n, which).tasks[t].opcode), c, u)
  {
    hide Writes, Reads, Makes, Before, Decoder, Size, Bound, Split, PartitionsOk, Specs, First, Producer, Intermediate;
    AllSpecs(s, n, which);
    DecoderShape(s, n, which);
    var specs := Specs(s, n, which);
    var k, p := Place(s, n, which, t);
    SpecSizes(s, n, which, k);
    OnlyMakes(s, n, specs[k], Before(specs, k), p, target);
    TaskShape(specs[k], Before(specs, k), p);
    ReadsMade(s, n, Decoder(s, n, which).tasks[t], target, c);
    ProducerBefore(s, n, which, k);
    u := Covered(s, n, which, specs[k - 1].opcode, c);
    var j, q := Place(s, n, which, u);
    DistinctOpcodes(s, n, which, j, k - 1);
    StageEnds(specs, k);
    StageEnds(specs, k + 1);
    forall v: nat | u < v < t ensures !Writes(s, Decoder(s, n, which).tasks[v], c) {
      Between(s, n, which, k, u, v, t, target, c);
    }
  }

  lemma StageEnds(specs: seq<StageSpec>, k: nat)
    requires 0 < k <= |specs|
    ensures First(specs, k) == First(specs, k - 1) + specs[k - 1].parts
  {
  }

  /** Between the writer and the reader there are only their own two stages. */
  lemma Between(s: Shape, n: Partitions, which: nat, k: nat, u: nat, v: nat, t: nat, target: Cell, c: Cell)
    requires Tied(s) && PartitionsOk(n) && which < 3 && 0 < k < |Specs(s, n, which)| && SpecsOk(Specs(s, n, which))
    requires First(Specs(s, n, which), k - 1) <= u < v < t < First(Specs(s, n, which), k + 1)
    requires First(Specs(s, n, which), k) <= t < |Decoder(s, n, which).tasks|
    requires Decoder(s, n, which).shape == s
    requires OneWriter(Decoder(s, n, which), Specs(s, n, which)[k - 1].opcode, c, u)
    requires Writes(s, Decoder(s, n, which).tasks[t], target) && Reads(s, Decoder(s, n, which).tasks[t], target, c)
    ensures !Writes(s, Decoder(s, n, which).tasks[v], c)
  {
    hide Writes, Reads, Makes, Before, Size, Bound, Split, PartitionsOk, First, TaskOf, Tasks, DependenciesOk;
    var specs, p := Specs(s, n, which), Decoder(s, n, which);
    if v < First(specs, k) {
      var kv, pv := Place(s, n, which, v);
      StageOfIndex(specs, k - 1, kv, v, pv);
      assert p.tasks[v].opcode == specs[k - 1].opcode by { TaskShape(specs[kv], Before(specs, kv), pv); }
    } else {
      WellFormedDecoder(s, n, which);
      assert InStage(p, k, v) && InStage(p, k, t);
      QuietInput(s, p.tasks[v], p.tasks[t], target, c);
    }
  }

  lemma TaskShape(spec: StageSpec, mask: nat, p: nat)
    requires spec.parts > 0
    ensures TaskOf(spec, mask, p).opcode == spec.opcode
    ensures spec.parts == 1 && p == 0 ==> TaskOf(spec, mask, p).begin == 0 && TaskOf(spec, mask, p).end == spec.size
  {
    if spec.parts == 1 { LastBound(spec.size, 1); }
  }

  lemma StageOfIndex(specs: seq<StageSpec>, j: nat, k: nat, t: nat, p: nat)
    requires SpecsOk(specs) && j < |specs| && k < |specs| && t == First(specs, k) + p && p < specs[k].parts
    requires First(specs, j) <= t < First(specs, j + 1)
    ensures j == k
  {
    if j < k { if j + 1 < k { FirstGrows(specs, j + 1, k); } }
    if k < j { if k + 1 < j { FirstGrows(specs, k + 1, j); } }
  }

  lemma WellFormedDecoder(s: Shape, n: Partitions, which: nat)
    requires s.Valid() && which < 3 && PartitionsOk(n)
    ensures WellFormed(Decoder(s, n, which))
  {
    hide WellFormed;
    DecoderWellFormed(s, n);
  }

  // ------------------------------------------------------------- results

  /** The operations whose results outlive a program, and the programs they belong to. */
  function Result(which: nat): set<Opcode>
    requires which < 3
  {
    if which == 0 then {RopeKvCache, AttentionOutputResidual}
    else if which == 1 then {ResidualAdvance}
    else {Top1Reduce, EmbeddingFeedback}
  }

  /** Every program produces all its results, each element by exactly one task: attention the
      caches and the residual, feed-forward the residual and the branch, the tail the token,
      the counters and the next input. */
  lemma Results(s: Shape, n: Partitions, which: nat, op: Opcode, c: Cell) returns (u: nat)
    requires Tied(s) && PartitionsOk(n) && which < 3 && op in Result(which) && Makes(s, n, op, c)
    ensures Decoder(s, n, which).shape == s && OneWriter(Decoder(s, n, which), op, c, u)
  {
    hide Makes, OneWriter, Decoder, PartitionsOk;
    var k := if op == AttentionOutputResidual then 4 else if op == RopeKvCache || op == Top1Reduce then 2 else 3;
    assert Specs(s, n, which)[k].opcode == op;
    u := Covered(s, n, which, op, c);
  }

  /** A normalization sees the whole hidden state, and the reduction every partial maximum. */
  lemma WholeInputs(s: Shape, n: Partitions, which: nat, t: nat, target: Cell, i: nat)
    requires Tied(s) && PartitionsOk(n) && which < 3 && t < |Decoder(s, n, which).tasks|
    requires Writes(s, Decoder(s, n, which).tasks[t], target)
    ensures var op := Decoder(s, n, which).tasks[t].opcode;
            && ((op.AttentionRmsnorm? || op.MlpRmsnorm? || op.FinalRmsnorm?) && i < s.hidden ==>
                  Reads(s, Decoder(s, n, which).tasks[t], target, Hidden(i)))
            && (op.Top1Reduce? && i < n.lmHead ==>
                  && Reads(s, Decoder(s, n, which).tasks[t], target, PartialValue(i))
                  && Reads(s, Decoder(s, n, which).tasks[t], target, PartialIndex(i)))
  {
    hide Before, Decoder, Bound, Split, PartitionsOk, Specs, First, Writes;
    var k, p := Place(s, n, which, t);
    SpecSizes(s, n, which, k);
    var spec := Specs(s, n, which)[k];
    if spec.parts == 1 { LastBound(spec.size, 1); }
  }

  /** Every row of the vocabulary is looked at by exactly one partition of the tail. */
  lemma VocabularyCovered(s: Shape, n: Partitions, row: nat) returns (u: nat)
    requires s.Valid() && PartitionsOk(n) && row < s.vocabulary
    ensures u < |Decoder(s, n, 2).tasks|
    ensures forall v: nat :: v < |Decoder(s, n, 2).tasks| ==>
      (Decoder(s, n, 2).tasks[v].opcode.LmHeadTop1Partition? && InRange(Decoder(s, n, 2).tasks[v], row) <==> v == u)
  {
    hide Before, Decoder, Bound, Split, PartitionsOk, First;
    AllSpecs(s, n, 2);
    SpecSizes(s, n, 2, 1);
    var spec := Specs(s, n, 2)[1];
    var q := RowsTiled(spec.size, spec.parts, row);
    TaskIn(s, n, 2, 1, q);
    u := First(Specs(s, n, 2), 1) + q;
    assert InPartition(spec.size, spec.parts, q, row);
    forall v: nat | v < |Decoder(s, n, 2).tasks|
      ensures Decoder(s, n, 2).tasks[v].opcode.LmHeadTop1Partition? && InRange(Decoder(s, n, 2).tasks[v], row)
        <==> v == u
    {
      var k, p := Place(s, n, 2, v);
      if k == 1 { assert InPartition(spec.size, spec.parts, p, row) <==> p == q; }
    }
  }

  // ------------------------------------------------------------- the workload's check

  /** valid_qwen_task */
  predicate ValidTask(s: Shape, n: Partitions, t: Task) {
    match t.opcode
    case QkvProjection => t.begin < t.end <= s.PackedSize()
    case RopeKvCache => t.begin == 0 && t.end == s.heads + s.kvHeads
    case GroupedQueryAttention => t.begin < t.end <= s.heads
    case ResidualAdvance => t.begin < t.end <= s.hidden && t.argument0 != 0
    case GateUpSilu => t.begin < t.end <= s.intermediate
    case LmHeadTop1Partition => t.begin < t.end <= s.vocabulary && t.argument0 < n.lmHead
    case Top1Reduce => t.begin == 0 && t.end == n.lmHead
    case EmbeddingFeedback => t.begin == 0 && t.end == s.hidden
    case _ => t.begin < t.end <= s.hidden
  }

  lemma BoundsGrow(size: nat, parts: nat, p: nat)
    requires 0 < parts <= size
    ensures Bound(size, parts, p) < Bound(size, parts, p + 1)
  {
    var a := size * p;
    var q := a / parts;
    assert a == q * parts + a % parts && size * (p + 1) == a + size && (q + 1) * parts == q * parts + parts;
    LastBound(q + 1, parts);
    Divided((q + 1) * parts, size * (p + 1), parts);
  }

  lemma {:induction false} SomeEmpty(size: nat, parts: nat, p: nat)
    requires parts > 0 && forall q: nat :: q < p ==> Bound(size, parts, q) < Bound(size, parts, q + 1)
    ensures p <= Bound(size, parts, p)
  {
    hide Bound;
    if p > 0 { SomeEmpty(size, parts, p - 1); }
  }

  /** No stage is cut into more parts than it has rows. */
  predicate Enough(s: Shape, n: Partitions, which: nat)
    requires which < 3
  {
    forall k :: 0 <= k < |Specs(s, n, which)| ==> Specs(s, n, which)[k].parts <= Specs(s, n, which)[k].size
  }

  /** The scheduler's validation accepts every task of a program if and only if no stage is cut
      into more parts than it has rows. */
  lemma TasksValidIff(s: Shape, n: Partitions, which: nat)
    requires s.Valid() && PartitionsOk(n) && which < 3
    ensures (forall t :: 0 <= t < |Decoder(s, n, which).tasks| ==> ValidTask(s, n, Decoder(s, n, which).tasks[t]))
            <==> Enough(s, n, which)
  {
    hide Before, Decoder, Bound, Split, PartitionsOk, Specs, First, ValidTask, Size;
    AllSpecs(s, n, which);
    var specs := Specs(s, n, which);
    if Enough(s, n, which) {
      forall t: nat | t < |Decoder(s, n, which).tasks| ensures ValidTask(s, n, Decoder(s, n, which).tasks[t]) {
        var k, p := Place(s, n, which, t);
        SpecSizes(s, n, which, k);
        PartValid(s, n, specs[k], Before(specs, k), p);
      }
    } else {
      var k: nat :| k < |specs| && specs[k].parts > specs[k].size;
      SpecSizes(s, n, which, k);
      var p := EmptyPart(specs[k].size, specs[k].parts);
      TaskIn(s, n, which, k, p);
      PartInvalid(s, n, specs[k], Before(specs, k), p);
    }
  }

  lemma PartValid(s: Shape, n: Partitions, spec: StageSpec, mask: nat, p: nat)
    requires s.Valid() && p < spec.parts <= spec.size && spec.size == Size(s, n, spec.opcode)
    requires !ByRow(spec.opcode) && !spec.opcode.LmHeadTop1Partition? ==> spec.parts == 1
    requires spec.opcode.LmHeadTop1Partition? ==> spec.indexed && spec.parts == n.lmHead
    requires spec.opcode.ResidualAdvance? ==> spec.argument0 != 0 && !spec.indexed
    ensures ValidTask(s, n, TaskOf(spec, mask, p))
  {
    hide Bound, Split;
    BoundsGrow(spec.size, spec.parts, p);
    BoundsMonotone(spec.size, spec.parts, p + 1, spec.parts);
    LastBound(spec.size, spec.parts);
  }

  lemma EmptyPart(size: nat, parts: nat) returns (p: nat)
    requires parts > size
    ensures p < parts && Bound(size, parts, p) >= Bound(size, parts, p + 1)
  {
    hide Bound;
    LastBound(size, parts);
    if q: nat :| q < parts && Bound(size, parts, q) >= Bound(size, parts, q + 1) {
      p := q;
    } else {
      SomeEmpty(size, parts, parts);
      assert false;
    }
  }

  lemma PartInvalid(s: Shape, n: Partitions, spec: StageSpec, mask: nat, p: nat)
    requires s.Valid() && PartitionsOk(n) && p < spec.parts && spec.size == Size(s, n, spec.opcode)
    requires Bound(spec.size, spec.parts, p) >= Bound(spec.size, spec.parts, p + 1)
    requires !ByRow(spec.opcode) && !spec.opcode.LmHeadTop1Partition? ==> spec.parts == 1
    ensures !ValidTask(s, n, TaskOf(spec, mask, p))
  {
    hide Split;
    if spec.parts == 1 { LastBound(spec.size, 1); }
  }

  /** The word encodes the single-precision number nearest to 1.0e-6. */
  predicate NearestMillionth(word: nat) {
    var exponent, mantissa := word / 0x80_0000, word % 0x80_0000 + 0x80_0000;
    && exponent == 127 - 20
    && -1_000_000 <= 2 * (mantissa * 1_000_000 - 0x800_0000_0000) <= 1_000_000
  }

  predicate Normalizes(op: Opcode) {
    op.AttentionRmsnorm? || op.MlpRmsnorm? || op.FinalRmsnorm?
  }

  lemma SpecEpsilon(s: Shape, n: Partitions, which: nat, k: nat)
    requires which < 3 && k < |Specs(s, n, which)| && Normalizes(Specs(s, n, which)[k].opcode)
    ensures NearestMillionth(Specs(s, n, which)[k].argument0) && !Specs(s, n, which)[k].indexed
  {
  }

  /** Every normalization of every program is given that number. */
  lemma EpsilonNearest(s: Shape, n: Partitions, which: nat, t: nat)
    requires s.Valid() && PartitionsOk(n) && which < 3 && t < |Decoder(s, n, which).tasks|
    requires Normalizes(Decoder(s, n, which).tasks[t].opcode)
    ensures NearestMillionth(Decoder(s, n, which).tasks[t].argument0)
  {
    hide Before, Decoder, Bound, Split, PartitionsOk, Specs, First, NearestMillionth;
    var k, p := Place(s, n, which, t);
    SpecEpsilon(s, n, which, k);
  }
}
