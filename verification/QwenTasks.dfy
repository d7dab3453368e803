/** The tasks of the Qwen stateful graph: which buffer cells each opcode writes, and which
    cells each written cell is computed from. Arithmetic is left abstract. */
module QwenTasks {
  import opened TaskMasks

  datatype Opcode =
    | AttentionRmsnorm | QkvProjection | RopeKvCache | GroupedQueryAttention | AttentionOutputResidual
    | MlpRmsnorm | GateUpSilu | DownMatvec | ResidualAdvance
    | FinalRmsnorm | LmHeadTop1Partition | Top1Reduce | EmbeddingFeedback

  datatype Task = Task(opcode: Opcode, dependencies: Words, begin: nat, end: nat, argument0: nat, argument1: nat)

  /** Buffer elements and control words a task touches. */
  datatype Cell =
    | Hidden(i: nat) | AttentionNormalized(i: nat) | Query(i: nat) | Key(i: nat) | Val(i: nat)
    | KeyCache(layer: nat, position: nat, i: nat) | ValueCache(layer: nat, position: nat, i: nat)
    | MlpNormalized(i: nat) | Activated(i: nat) | Projected(i: nat)
    | FinalNormalized(i: nat) | PartialValue(i: nat) | PartialIndex(i: nat) | SampledLogit | SampledToken
    | OutputToken(i: nat) | GeneratedTokens | StopReason | TokenPosition | KvLength
    | PredicateValue | BranchValue | StepCount

  /** Sizes of the model, in elements except for the head counts; the two halves of a head
      hold `rotary` elements each. */
  datatype Shape = Shape(hidden: nat, heads: nat, kvHeads: nat, headSize: nat, rotary: nat, query: nat, kv: nat,
                         intermediate: nat, vocabulary: nat)
  {
    predicate Valid() {
      && hidden > 0 && heads > 0 && kvHeads > 0 && rotary > 0 && headSize > 0 && intermediate > 0 && vocabulary > 0
      && query > 0
    }

    function PackedSize(): nat { query + 2 * kv }
  }

  predicate InRange(t: Task, i: nat) {
    t.begin <= i < t.end
  }

  predicate Writes(s: Shape, t: Task, c: Cell)
    requires s.Valid()
  {
    match t.opcode
    case AttentionRmsnorm => c.AttentionNormalized? && InRange(t, c.i)
    case QkvProjection =>
      || (c.Query? && c.i < s.query && InRange(t, c.i))
      || (c.Key? && c.i < s.kv && InRange(t, s.query + c.i))
      || (c.Val? && c.i < s.kv && InRange(t, s.query + s.kv + c.i))
    case RopeKvCache =>
      || (c.Query? && c.i < s.query)
      || (c.Key? && c.i < s.kv)
      || ((c.KeyCache? || c.ValueCache?) && c.i < s.kv)
    case GroupedQueryAttention => c.Query? && InRange(t, c.i / s.headSize)
    case AttentionOutputResidual => c.Hidden? && InRange(t, c.i)
    case MlpRmsnorm => c.MlpNormalized? && InRange(t, c.i)
    case GateUpSilu => c.Activated? && InRange(t, c.i)
    case DownMatvec => c.Projected? && InRange(t, c.i)
    case ResidualAdvance => (c.Hidden? && InRange(t, c.i)) || c.BranchValue? || (c.PredicateValue? && t.argument1 == 0)
    case FinalRmsnorm => c.FinalNormalized? && InRange(t, c.i)
    case LmHeadTop1Partition => (c.PartialValue? || c.PartialIndex?) && c.i == t.argument0
    case Top1Reduce => c.SampledLogit? || c.SampledToken?
    case EmbeddingFeedback =>
      || (c.Hidden? && InRange(t, c.i))
      || c.OutputToken? || c.GeneratedTokens? || c.StopReason? || c.TokenPosition? || c.KvLength? || c.PredicateValue?
  }

  /** The two elements a rotation mixes. */
  predicate SamePair(s: Shape, i: nat, j: nat)
    requires s.Valid()
  {
    i / s.headSize == j / s.headSize && i % s.rotary == j % s.rotary
  }

  /** The value stored at `target` is computed from `c`.  The step selects the layer's
      weights and caches, so every task reads it. */
  predicate Reads(s: Shape, t: Task, target: Cell, c: Cell)
    requires s.Valid()
  {
    c.StepCount? || ReadsData(s, t, target, c)
  }

  predicate ReadsData(s: Shape, t: Task, target: Cell, c: Cell)
    requires s.Valid()
  {
    match t.opcode
    case AttentionRmsnorm => c.Hidden? && InRange(t, c.i)
    case QkvProjection => c.AttentionNormalized? && c.i < s.hidden
    case RopeKvCache =>
      || c.TokenPosition?
      || (target.Query? && c.Query? && SamePair(s, target.i, c.i))
      || ((target.Key? || target.KeyCache?) && c.Key? && SamePair(s, target.i, c.i))
      || (target.ValueCache? && c.Val? && c.i == target.i)
      || ((target.KeyCache? || target.ValueCache?) && c == target)
    case GroupedQueryAttention =>
      || c.KvLength?
      || (target.Query? && c.Query? && c.i / s.headSize == target.i / s.headSize)
      || c.KeyCache? || c.ValueCache?
    case AttentionOutputResidual => c == target || (c.Query? && c.i < s.query)
    case MlpRmsnorm => c.Hidden? && InRange(t, c.i)
    case GateUpSilu => c.MlpNormalized? && c.i < s.hidden
    case DownMatvec => c.Activated? && c.i < s.intermediate
    case ResidualAdvance =>
      || (target.Hidden? && (c == target || c == Projected(target.i)))
      || (target.PredicateValue? && c == target)
    case FinalRmsnorm => c.Hidden? && InRange(t, c.i)
    case LmHeadTop1Partition => c.FinalNormalized? && c.i < s.hidden
    case Top1Reduce => (c.PartialValue? || c.PartialIndex?) && InRange(t, c.i)
    case EmbeddingFeedback =>
      c == target || c.SampledToken? || c.GeneratedTokens? || c.TokenPosition? || c.KvLength? || c.PredicateValue?
  }

  /** Running `a` and `b` side by side, `a` never disturbs `b`. */
  ghost predicate Quiet(s: Shape, a: Task, b: Task)
    requires s.Valid()
  {
    && (forall c :: Writes(s, a, c) ==> !Writes(s, b, c))
    && (forall c, target :: Writes(s, a, c) && Writes(s, b, target) ==> !Reads(s, b, target, c))
  }

  lemma QuietInput(s: Shape, a: Task, b: Task, target: Cell, c: Cell)
    requires s.Valid() && Quiet(s, a, b) && Writes(s, b, target) && Reads(s, b, target, c)
    ensures !Writes(s, a, c)
  {
    hide Writes, Reads;
  }

  lemma QuietOutput(s: Shape, a: Task, b: Task, c: Cell)
    requires s.Valid() && Quiet(s, a, b) && Writes(s, b, c)
    ensures !Writes(s, a, c)
  {
    hide Writes, Reads;
  }

  /** Elements are 32-bit patterns, floats and counters alike. */
  type Value = nat

  type Memory = map<Cell, Value>

  /** What an opcode stores at a cell, given the inputs of that cell. */
  type Arithmetic = (Task, Cell, Memory) -> Value

  function Inputs(s: Shape, t: Task, target: Cell, m: Memory): Memory
    requires s.Valid()
  {
    map c | c in m && Reads(s, t, target, c) :: m[c]
  }

  /** A task run on its own. */
  function Execute(s: Shape, f: Arithmetic, m: Memory, t: Task): (r: Memory)
    requires s.Valid()
    ensures r.Keys == m.Keys
  {
    map c | c in m :: if Writes(s, t, c) then f(t, c, Inputs(s, t, c, m)) else m[c]
  }

  /** The first `n` tasks one after the other. */
  function Sequential(s: Shape, f: Arithmetic, m: Memory, tasks: seq<Task>, n: nat): (r: Memory)
    requires s.Valid() && n <= |tasks|
    ensures r.Keys == m.Keys
    decreases n
  {
    if n == 0 then m else Execute(s, f, Sequential(s, f, m, tasks, n - 1), tasks[n - 1])
  }
}
