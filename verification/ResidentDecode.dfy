/** The resident graph decodes what the host's launch loops decode: the same buffers after
    the same number of tokens, whatever the number of workers and their interleaving. */
module ResidentDecode {
  import Bits
  import opened TaskMasks
  import opened QwenTasks
  import opened TaskGraph
  import opened QwenPrograms
  import opened HostDecode
  import opened R = ResidentGraph

  /** A decoder as the benchmark sets it up. */
  datatype Setup = Setup(shape: Shape, parts: Partitions, layers: nat, maxSteps: nat, stop: nat, phases: nat)
  {
    predicate Valid() {
      && shape.Valid() && PartitionsOk(parts) && layers > 0
      && 0 < maxSteps < WORD_SIZE
      && 0 < phases <= MAXIMUM_PHASES
    }

    /** Programs per token. */
    function Cycle(): nat { 2 * layers + 1 }
  }

  // ------------------------------------------------------------- the graph

  function AttentionNode(d: Setup): Node
    requires d.Valid()
  {
    SpecsValid(d.shape, d.parts);
    Node(Assemble(d.shape, AttentionSpecs(d.shape, d.parts)), 1, false, false, false, 0)
  }

  function FeedForwardNode(d: Setup): Node
    requires d.Valid()
  {
    SpecsValid(d.shape, d.parts);
    Node(Assemble(d.shape, FeedForwardSpecs(d.shape, d.parts)), 0, true, false, true, 2)
  }

  function TailNode(d: Setup): Node
    requires d.Valid()
  {
    SpecsValid(d.shape, d.parts);
    Node(Assemble(d.shape, TailSpecs(d.shape, d.parts)), 0, false, true, false, 0)
  }

  lemma NodesOk(d: Setup)
    requires d.Valid()
    ensures NodeOk(AttentionNode(d), 3) && NodeOk(FeedForwardNode(d), 3) && NodeOk(TailNode(d), 3)
    ensures AttentionNode(d).program.shape == FeedForwardNode(d).program.shape == TailNode(d).program.shape == d.shape
  {
    hide WellFormed, PartitionsOk;
    DecoderWellFormed(d.shape, d.parts);
  }

  function DecoderGraph(d: Setup): (g: Graph)
    requires d.Valid()
    ensures |g.nodes| == 3 && GraphOk(g)
  {
    NodesOk(d);
    Graph([AttentionNode(d), FeedForwardNode(d), TailNode(d)], 0, d.maxSteps, d.stop, d.phases)
  }

  /** The graph is the one in the table that the builder makes. */
  lemma GraphOfTable(d: Setup, table: Table, i: nat)
    requires d.Valid() && Linked(table) && i < 3
    requires SpecsOk(AttentionSpecs(d.shape, d.parts)) && SpecsOk(FeedForwardSpecs(d.shape, d.parts))
      && SpecsOk(TailSpecs(d.shape, d.parts))
    requires ProgramTasks(table, 0) == Tasks(AttentionSpecs(d.shape, d.parts), 5)
    requires ProgramTasks(table, 1) == Tasks(FeedForwardSpecs(d.shape, d.parts), 4)
    requires ProgramTasks(table, 2) == Tasks(TailSpecs(d.shape, d.parts), 4)
    ensures var node, entry := DecoderGraph(d).nodes[i], table.programs[i];
            && node.program.tasks == ProgramTasks(table, i)
            && node.next == entry.nextProgram && node.advances == entry.advancesStep
            && node.evaluates == entry.evaluatesPredicate && node.branches == entry.branchesOnState
            && (node.branches ==> node.branch == entry.branchProgram)
  {
    hide Tasks, ProgramTasks, PartitionsOk;
  }

  // ------------------------------------------------------------- programs and the host

  function AttentionTasks(d: Setup): seq<Task>
    requires d.Valid()
  {
    SpecsValid(d.shape, d.parts);
    Tasks(AttentionSpecs(d.shape, d.parts), 5)
  }

  /** Memory before program `r` of token `j`, on the host. */
  function Prior(d: Setup, f: Arithmetic, m: Memory, j: nat, r: nat): (x: Memory)
    requires d.Valid()
    ensures x.Keys == m.Keys
  {
    var layers := HostLayers(d.shape, d.parts, f, Tokens(d, f, m, j), r / 2);
    if r % 2 == 0 then layers else HostTasks(d.shape, f, layers, AttentionTasks(d))
  }

  function Tokens(d: Setup, f: Arithmetic, m: Memory, k: nat): (x: Memory)
    requires d.Valid()
    ensures x.Keys == m.Keys
  {
    HostTokens(d.shape, d.parts, f, d.layers, m, k)
  }

  /** Attention and feed-forward for every layer, then the tail. */
  function ProgramAt(d: Setup, r: nat): nat {
    if r == 2 * d.layers then 2 else r % 2
  }

  lemma SetupSpecs(d: Setup)
    requires d.Valid()
    ensures |AttentionSpecs(d.shape, d.parts)| == 5 && SpecsOk(AttentionSpecs(d.shape, d.parts))
    ensures |FeedForwardSpecs(d.shape, d.parts)| == 4 && SpecsOk(FeedForwardSpecs(d.shape, d.parts))
    ensures |TailSpecs(d.shape, d.parts)| == 4 && SpecsOk(TailSpecs(d.shape, d.parts))
  {
    SpecsValid(d.shape, d.parts);
  }

  lemma AttentionIsHost(d: Setup, f: Arithmetic, m: Memory)
    requires d.Valid()
    ensures Finished(AttentionNode(d), f, m) == HostTasks(d.shape, f, m, AttentionTasks(d))
  {
    hide PartitionsOk, Tasks, HostTasks, Sequential;
    SetupSpecs(d);
    PlainPrograms(d.shape, d.parts, f, m);
  }

  lemma TailIsHost(d: Setup, f: Arithmetic, m: Memory)
    requires d.Valid()
    ensures Finished(TailNode(d), f, m) == HostTasks(d.shape, f, m, TailTasks(d.shape, d.parts))
  {
    hide PartitionsOk, Tasks, HostTasks, Sequential;
    SetupSpecs(d);
    PlainPrograms(d.shape, d.parts, f, m);
  }

  lemma LayerIsHost(d: Setup, f: Arithmetic, m: Memory)
    requires d.Valid()
    ensures Finished(FeedForwardNode(d), f, HostTasks(d.shape, f, m, AttentionTasks(d)))
            == HostTasks(d.shape, f, m, DecoderTasks(d.shape, d.parts))
  {
    hide PartitionsOk, Tasks, HostTasks, Sequential;
    SetupSpecs(d);
    var a, b := AttentionTasks(d), Tasks(FeedForwardSpecs(d.shape, d.parts), 4);
    ResidualProgram(d.shape, d.parts, f, HostTasks(d.shape, f, m, a));
    HostConcat(d.shape, f, m, a, b);
  }

  function Layers(d: Setup, f: Arithmetic, m: Memory, j: nat, l: nat): (x: Memory)
    requires d.Valid()
    ensures x.Keys == m.Keys
  {
    HostLayers(d.shape, d.parts, f, Tokens(d, f, m, j), l)
  }

  lemma PriorIs(d: Setup, f: Arithmetic, m: Memory, j: nat, l: nat)
    requires d.Valid()
    ensures Prior(d, f, m, j, 2 * l) == Layers(d, f, m, j, l)
    ensures Prior(d, f, m, j, 2 * l + 1) == HostTasks(d.shape, f, Layers(d, f, m, j, l), AttentionTasks(d))
  {
    hide HostTasks, HostLayers, Tokens, AttentionTasks, PartitionsOk;
  }

  lemma NextLayer(d: Setup, f: Arithmetic, m: Memory, j: nat, l: nat)
    requires d.Valid()
    ensures Layers(d, f, m, j, l + 1) == HostTasks(d.shape, f, Layers(d, f, m, j, l), DecoderTasks(d.shape, d.parts))
    ensures Tokens(d, f, m, j + 1) == HostTasks(d.shape, f, Layers(d, f, m, j, d.layers), TailTasks(d.shape, d.parts))
  {
    hide HostTasks, DecoderTasks, TailTasks, PartitionsOk;
  }

  /** Running the next program in index order is what the host does next. */
  lemma NextPrior(d: Setup, f: Arithmetic, m: Memory, j: nat, r: nat)
    requires d.Valid() && r <= 2 * d.layers
    ensures DecoderGraph(d).nodes[ProgramAt(d, r)].program.shape.Valid()
    ensures Finished(DecoderGraph(d).nodes[ProgramAt(d, r)], f, Prior(d, f, m, j, r))
            == if r < 2 * d.layers then Prior(d, f, m, j, r + 1) else Tokens(d, f, m, j + 1)
  {
    hide PartitionsOk, HostTasks, Finished, AttentionTasks, DecoderTasks, TailTasks, AttentionNode, FeedForwardNode,
      TailNode, GraphOk, Prior, Layers, Tokens;
    NodesOk(d);
    var l := r / 2;
    PriorIs(d, f, m, j, l);
    PriorIs(d, f, m, j, l + 1);
    NextLayer(d, f, m, j, l);
    if r == 2 * d.layers {
      TailIsHost(d, f, Layers(d, f, m, j, l));
    } else if r == 2 * l {
      AttentionIsHost(d, f, Layers(d, f, m, j, l));
    } else {
      assert r + 1 == 2 * (l + 1);
      LayerIsHost(d, f, Layers(d, f, m, j, l));
    }
  }

  // ------------------------------------------------------------- the step

  predicate HasControl(m: Memory) {
    StepCount in m && BranchValue in m && PredicateValue in m
  }

  lemma NobodyWritesStep(s: Shape, t: Task)
    requires s.Valid()
    ensures !Writes(s, t, StepCount)
  {
  }

  lemma {:induction false} StepKept(s: Shape, f: Arithmetic, m: Memory, tasks: seq<Task>, n: nat)
    requires s.Valid() && n <= |tasks| && StepCount in m
    ensures Sequential(s, f, m, tasks, n)[StepCount] == m[StepCount]
  {
    hide Writes, Inputs;
    if n > 0 {
      StepKept(s, f, m, tasks, n - 1);
      NobodyWritesStep(s, tasks[n - 1]);
    }
  }

  lemma FinishedStep(n: Node, f: Arithmetic, m: Memory)
    requires n.program.shape.Valid() && StepCount in m
    ensures StepCount in Finished(n, f, m)
    ensures Finished(n, f, m)[StepCount] == m[StepCount] + if n.advances then 1 else 0
  {
    hide Sequential;
    StepKept(n.program.shape, f, m, n.program.tasks, |n.program.tasks|);
  }

  lemma {:induction false} PriorStep(d: Setup, f: Arithmetic, m: Memory, j: nat, r: nat)
    requires d.Valid() && HasControl(m) && m[StepCount] == 0 && r <= 2 * d.layers
    ensures Prior(d, f, m, j, r)[StepCount] == j * d.layers + r / 2
    decreases j, r
  {
    hide PartitionsOk, HostTasks, HostLayers, HostTokens, Finished, AttentionTasks, Prior, Tokens, AttentionNode,
      FeedForwardNode, TailNode;
    FirstPrior(d, f, m, j);
    if r > 0 {
      PriorStep(d, f, m, j, r - 1);
      NextPrior(d, f, m, j, r - 1);
      StepOfNode(d, ProgramAt(d, r - 1), f, Prior(d, f, m, j, r - 1));
    } else if j > 0 {
      PriorStep(d, f, m, j - 1, 2 * d.layers);
      NextPrior(d, f, m, j - 1, 2 * d.layers);
      StepOfNode(d, 2, f, Prior(d, f, m, j - 1, 2 * d.layers));
    }
  }

  lemma FirstPrior(d: Setup, f: Arithmetic, m: Memory, j: nat)
    requires d.Valid()
    ensures Prior(d, f, m, j, 0) == Tokens(d, f, m, j)
    ensures Tokens(d, f, m, 0) == m
  {
  }

  lemma StepOfNode(d: Setup, i: nat, f: Arithmetic, m: Memory)
    requires d.Valid() && i < 3 && StepCount in m
    ensures DecoderGraph(d).nodes[i].program.shape.Valid() && StepCount in Finished(DecoderGraph(d).nodes[i], f, m)
    ensures Finished(DecoderGraph(d).nodes[i], f, m)[StepCount] == m[StepCount] + if i == 1 then 1 else 0
  {
    hide PartitionsOk, Finished, NodeOk, GraphOk;
    NodesOk(d);
    FinishedStep(DecoderGraph(d).nodes[i], f, m);
  }

  // ------------------------------------------------------------- the branch

  /** The residual task stores whether the layer was the last of its token. */
  ghost predicate MarksTokens(f: Arithmetic, layers: nat)
    requires layers > 0
  {
    forall t: Task, x: Memory ::
      t.opcode.ResidualAdvance? && t.argument1 == 1 && StepCount in x && x[StepCount] + 1 < WORD_SIZE ==>
      (f(t, BranchValue, x) != 0 <==> (x[StepCount] + 1) % layers == 0)
  }

  lemma ResidualInputs(s: Shape, t: Task, m: Memory)
    requires s.Valid() && t.opcode.ResidualAdvance? && StepCount in m
    ensures Writes(s, t, BranchValue)
    ensures StepCount in Inputs(s, t, BranchValue, m) && Inputs(s, t, BranchValue, m)[StepCount] == m[StepCount]
  {
  }

  lemma BranchStored(d: Setup, f: Arithmetic, m: Memory)
    requires d.Valid() && HasControl(m) && MarksTokens(f, d.layers) && m[StepCount] + 1 < WORD_SIZE
    ensures BranchValue in Finished(FeedForwardNode(d), f, m)
    ensures Finished(FeedForwardNode(d), f, m)[BranchValue] != 0 <==> (m[StepCount] + 1) % d.layers == 0
  {
    hide PartitionsOk, Tasks, First, Writes, Inputs, MarksTokens, Sequential;
    SetupSpecs(d);
    var tasks := Tasks(FeedForwardSpecs(d.shape, d.parts), 4);
    FirstOfFour(FeedForwardSpecs(d.shape, d.parts));
    var k := |tasks| - 1;
    ResidualLast(d.shape, d.parts, k);
    var x := Sequential(d.shape, f, m, tasks, k);
    StepKept(d.shape, f, m, tasks, k);
    ResidualInputs(d.shape, tasks[k], x);
    LastTask(d.shape, f, m, tasks);
    Marked(f, d.layers, tasks[k], Inputs(d.shape, tasks[k], BranchValue, x));
  }

  lemma LastTask(s: Shape, f: Arithmetic, m: Memory, tasks: seq<Task>)
    requires s.Valid() && |tasks| > 0 && BranchValue in m && Writes(s, tasks[|tasks| - 1], BranchValue)
    ensures var x := Sequential(s, f, m, tasks, |tasks| - 1);
            Sequential(s, f, m, tasks, |tasks|)[BranchValue]
            == f(tasks[|tasks| - 1], BranchValue, Inputs(s, tasks[|tasks| - 1], BranchValue, x))
  {
    hide Writes, Inputs;
  }

  lemma Marked(f: Arithmetic, layers: nat, t: Task, x: Memory)
    requires layers > 0 && MarksTokens(f, layers) && t.opcode.ResidualAdvance? && t.argument1 == 1
    requires StepCount in x && x[StepCount] + 1 < WORD_SIZE
    ensures f(t, BranchValue, x) != 0 <==> (x[StepCount] + 1) % layers == 0
  {
  }

  lemma Remainder(j: nat, x: nat, n: nat)
    requires x < n
    ensures (j * n + x) % n == x
  {
    var a := j * n + x;
    var q, r := a / n, a % n;
    assert a == q * n + r;
    assert (j - q) * n == r - x;
    Bits.SmallMultiple(j - q, n);
  }

  lemma LayerBoundary(j: nat, l: nat, layers: nat)
    requires l < layers
    ensures (j * layers + l + 1) % layers == 0 <==> l + 1 == layers
  {
    if l + 1 == layers {
      assert j * layers + l + 1 == (j + 1) * layers + 0;
      Remainder(j + 1, 0, layers);
    } else {
      Remainder(j, l + 1, layers);
    }
  }

  // ------------------------------------------------------------- the trace is the host's

  function Index(d: Setup, j: nat, r: nat): nat {
    j * d.Cycle() + r
  }

  lemma RunningStep(d: Setup, f: Arithmetic, m: Memory, k: nat)
    requires d.Valid() && HasControl(m) && m[StepCount] == 0
    requires Trace(DecoderGraph(d), f, m, k).status == StillRunning
    ensures Word(Trace(DecoderGraph(d), f, m, k).memory, StepCount) < d.maxSteps
    ensures k > 0 ==> Trace(DecoderGraph(d), f, m, k - 1).status == StillRunning
  {
    hide GraphOk, DecoderGraph, Finished, PartitionsOk;
    assert DecoderGraph(d).maxSteps == d.maxSteps by { GraphBounds(d); }
  }

  lemma GraphBounds(d: Setup)
    requires d.Valid()
    ensures DecoderGraph(d).initial == 0 && DecoderGraph(d).maxSteps == d.maxSteps && DecoderGraph(d).stop == d.stop
    ensures DecoderGraph(d).phases == d.phases
  {
  }

  /** Tasks of a layer and of a token. */
  function PerLayer(d: Setup): nat {
    4 + d.parts.projection + d.parts.attention + d.parts.output + d.parts.ffn + d.parts.down
  }

  function PerToken(d: Setup): nat {
    d.layers * PerLayer(d) + 3 + d.parts.lmHead
  }

  function ExecutedAt(d: Setup, j: nat, r: nat): nat {
    j * PerToken(d) + r / 2 * PerLayer(d)
    + if r % 2 == 1 then 2 + d.parts.projection + d.parts.attention + d.parts.output else 0
  }

  ghost predicate OnTrack(d: Setup, f: Arithmetic, m: Memory, c: Config, j: nat, r: nat)
    requires d.Valid()
  {
    c.memory == Prior(d, f, m, j, r) && c.program == ProgramAt(d, r) && c.executed == ExecutedAt(d, j, r)
  }

  lemma TaskCounts(d: Setup)
    requires d.Valid()
    ensures |AttentionNode(d).program.tasks| == 2 + d.parts.projection + d.parts.attention + d.parts.output
    ensures |FeedForwardNode(d).program.tasks| == 2 + d.parts.ffn + d.parts.down
    ensures |TailNode(d).program.tasks| == 3 + d.parts.lmHead
  {
    hide PartitionsOk, Tasks, First;
    SetupSpecs(d);
    FirstOfFive(AttentionSpecs(d.shape, d.parts));
    FirstOfFour(FeedForwardSpecs(d.shape, d.parts));
    FirstOfFour(TailSpecs(d.shape, d.parts));
  }

  lemma ExecutedNext(d: Setup, j: nat, r: nat)
    requires d.Valid() && r <= 2 * d.layers
    ensures ExecutedAt(d, j, r) + |DecoderGraph(d).nodes[ProgramAt(d, r)].program.tasks|
            == if r < 2 * d.layers then ExecutedAt(d, j, r + 1) else ExecutedAt(d, j + 1, 0)
  {
    hide PartitionsOk, AttentionNode, FeedForwardNode, TailNode;
    TaskCounts(d);
    if r < 2 * d.layers && r % 2 == 1 {
      assert (r + 1) / 2 == r / 2 + 1;
      assert (r / 2 + 1) * PerLayer(d) == r / 2 * PerLayer(d) + PerLayer(d);
    }
    assert (j + 1) * PerToken(d) == j * PerToken(d) + PerToken(d);
  }

  lemma NodeLinks(d: Setup)
    requires d.Valid()
    ensures AttentionNode(d).next == 1 && !AttentionNode(d).branches && !AttentionNode(d).evaluates
    ensures FeedForwardNode(d).next == 0 && FeedForwardNode(d).branches && FeedForwardNode(d).branch == 2
    ensures !FeedForwardNode(d).evaluates
    ensures TailNode(d).next == 0 && !TailNode(d).branches && TailNode(d).evaluates
  {
    hide PartitionsOk;
  }

  /** From a program of the host's order to the next. */
  lemma StaysOnTrack(d: Setup, f: Arithmetic, m: Memory, j: nat, r: nat, c: Config, k: nat)
    requires d.Valid() && HasControl(m) && m[StepCount] == 0 && MarksTokens(f, d.layers)
    requires r <= 2 * d.layers && OnTrack(d, f, m, c, j, r) && Word(c.memory, StepCount) < d.maxSteps
    requires DecoderGraph(d).nodes[c.program].program.shape.Valid()
    requires After(DecoderGraph(d), f, c, k).status == StillRunning
    ensures if r < 2 * d.layers then OnTrack(d, f, m, After(DecoderGraph(d), f, c, k), j, r + 1)
            else OnTrack(d, f, m, After(DecoderGraph(d), f, c, k), j + 1, 0)
  {
    hide PartitionsOk, Finished, Prior, Tokens, MarksTokens, Verdict, ExecutedAt, AttentionNode, TailNode,
      FeedForwardNode;
    NextPrior(d, f, m, j, r);
    ExecutedNext(d, j, r);
    NodeLinks(d);
    FirstPrior(d, f, m, j + 1);
    if r < 2 * d.layers && r % 2 == 1 {
      PriorStep(d, f, m, j, r);
      BranchStored(d, f, Prior(d, f, m, j, r));
      LayerBoundary(j, r / 2, d.layers);
    }
  }

  lemma {:induction false} TraceOnTrack(d: Setup, f: Arithmetic, m: Memory, j: nat, r: nat)
    requires d.Valid() && HasControl(m) && m[StepCount] == 0 && MarksTokens(f, d.layers) && r <= 2 * d.layers
    requires Trace(DecoderGraph(d), f, m, Index(d, j, r)).status == StillRunning
    ensures OnTrack(d, f, m, Trace(DecoderGraph(d), f, m, Index(d, j, r)), j, r)
    decreases j, r
  {
    hide PartitionsOk, Finished, Prior, Tokens, MarksTokens, Trace, DecoderGraph, GraphOk, After, OnTrack, HasControl;
    var k := Index(d, j, r);
    if k == 0 {
      AtStart(d, f, m, j, r);
    } else {
      RunningStep(d, f, m, k);
      RunningStep(d, f, m, k - 1);
      TraceStep(DecoderGraph(d), f, m, k - 1);
      if r > 0 {
        TraceOnTrack(d, f, m, j, r - 1);
        StaysOnTrack(d, f, m, j, r - 1, Trace(DecoderGraph(d), f, m, k - 1), k - 1);
      } else {
        IndexBefore(d, j);
        TraceOnTrack(d, f, m, j - 1, 2 * d.layers);
        StaysOnTrack(d, f, m, j - 1, 2 * d.layers, Trace(DecoderGraph(d), f, m, k - 1), k - 1);
      }
    }
  }

  lemma AtStart(d: Setup, f: Arithmetic, m: Memory, j: nat, r: nat)
    requires d.Valid() && Index(d, j, r) == 0
    ensures OnTrack(d, f, m, Trace(DecoderGraph(d), f, m, 0), j, r)
  {
    hide PartitionsOk, GraphOk, DecoderGraph, Prior, Tokens;
    assert j == 0;
    GraphBounds(d);
    FirstPrior(d, f, m, 0);
  }

  lemma IndexBefore(d: Setup, j: nat)
    requires d.layers > 0 && Index(d, j, 0) > 0
    ensures j > 0 && Index(d, j, 0) - 1 == Index(d, j - 1, 2 * d.layers)
  {
  }

  // ------------------------------------------------------------- the end

  /** The predicate first holds after `k` tokens of the host. */
  ghost predicate StopsAt(d: Setup, f: Arithmetic, m: Memory, k: nat)
    requires d.Valid()
  {
    && k > 0 && Word(Tokens(d, f, m, k), PredicateValue) >= d.stop
    && forall j :: 0 < j < k ==> Word(Tokens(d, f, m, j), PredicateValue) < d.stop
  }

  /** What the owner of program `r` of token `j` finds. */
  lemma VerdictAt(d: Setup, f: Arithmetic, m: Memory, j: nat, r: nat, c: Config, k: nat)
    requires d.Valid() && HasControl(m) && m[StepCount] == 0 && r <= 2 * d.layers && OnTrack(d, f, m, c, j, r)
    requires DecoderGraph(d).nodes[c.program].program.shape.Valid()
    ensures var next := After(DecoderGraph(d), f, c, k);
            && (next.status == Completed <==>
                  r == 2 * d.layers && Word(Tokens(d, f, m, j + 1), PredicateValue) >= d.stop)
            && (next.status == MaxSteps ==> j * d.layers + (r + 1) / 2 >= d.maxSteps)
            && (next.status == InvalidProgram ==> k + 1 >= d.phases)
            && (r == 2 * d.layers ==> next.memory == Tokens(d, f, m, j + 1) && next.executed == ExecutedAt(d, j + 1, 0))
  {
    hide PartitionsOk, Finished, Prior, Tokens, ExecutedAt, AttentionNode, TailNode, FeedForwardNode;
    NextPrior(d, f, m, j, r);
    ExecutedNext(d, j, r);
    NodeLinks(d);
    PriorStep(d, f, m, j, r);
    StepOfNode(d, ProgramAt(d, r), f, Prior(d, f, m, j, r));
  }

  /** The state before the program that index `k` belongs to. */
  lemma Located(d: Setup, k: nat) returns (j: nat, r: nat)
    requires d.layers > 0
    ensures r <= 2 * d.layers && k == Index(d, j, r)
  {
    j, r := k / d.Cycle(), k % d.Cycle();
  }

  lemma Multiples(a: nat, b: nat, c: nat)
    requires a <= b
    ensures a * c <= b * c && (a + 1) * c == a * c + c && (a < b ==> a * c + c <= b * c)
  {
    assert (b - a) * c >= 0;
    if a < b { assert (b - (a + 1)) * c >= 0; }
  }

  lemma Blocks(c: nat, j: nat, r: nat, k: nat)
    requires r < c && j * c + r + 1 <= k * c
    ensures j + 1 <= k
    ensures j * c + r + 1 == k * c ==> j + 1 == k && r == c - 1
  {
    if k <= j {
      Multiples(k, j, c);
    } else {
      Multiples(j, k, c);
      Multiples(j + 1, k, c);
    }
  }

  lemma CycleOrder(d: Setup, j: nat, r: nat, k: nat)
    requires r <= 2 * d.layers && Index(d, j, r) + 1 <= k * d.Cycle()
    ensures j + 1 <= k && j * d.layers + (r + 1) / 2 <= k * d.layers
    ensures Index(d, j, r) + 1 == k * d.Cycle() ==> j + 1 == k && r == 2 * d.layers
  {
    Blocks(d.Cycle(), j, r, k);
    Multiples(j, k, d.layers);
  }

  lemma IndexOf(d: Setup, k: nat)
    ensures Index(d, k, 0) == k * d.Cycle() && (k > 0 ==> Index(d, k, 0) > 0)
  {
    if k > 0 { Multiples(1, k, d.Cycle()); }
  }

  /** A tail that leaves the predicate true does not publish another generation. */
  lemma LastTail(d: Setup, f: Arithmetic, m: Memory, j: nat)
    requires d.Valid() && HasControl(m) && m[StepCount] == 0 && MarksTokens(f, d.layers)
    requires Word(Tokens(d, f, m, j + 1), PredicateValue) >= d.stop
    ensures Trace(DecoderGraph(d), f, m, Index(d, j, 2 * d.layers) + 1).status != StillRunning
  {
    hide PartitionsOk, Tokens, MarksTokens, Trace, DecoderGraph, GraphOk, After, OnTrack, HasControl, Index;
    var g, last := DecoderGraph(d), Index(d, j, 2 * d.layers);
    if Trace(g, f, m, last).status == StillRunning {
      TraceOnTrack(d, f, m, j, 2 * d.layers);
      TraceStep(g, f, m, last);
      VerdictAt(d, f, m, j, 2 * d.layers, Trace(g, f, m, last), last);
    } else {
      StaysEnded(g, f, m, last);
    }
  }

  lemma StaysEnded(g: Graph, f: Arithmetic, m: Memory, k: nat)
    requires GraphOk(g) && Trace(g, f, m, k).status != StillRunning
    ensures Trace(g, f, m, k + 1).status != StillRunning
  {
    hide GraphOk;
  }

  /** No run goes past the token at which the predicate holds. */
  lemma NotBeyond(d: Setup, f: Arithmetic, m: Memory, k: nat)
    requires d.Valid() && HasControl(m) && m[StepCount] == 0 && MarksTokens(f, d.layers)
    requires StopsAt(d, f, m, k)
    ensures Trace(DecoderGraph(d), f, m, Index(d, k, 0)).status != StillRunning
  {
    hide PartitionsOk, Tokens, MarksTokens, Trace, DecoderGraph, GraphOk, HasControl, Index;
    IndexOf(d, k);
    IndexBefore(d, k);
    LastTail(d, f, m, k - 1);
  }

  /** A run that ended: its last program, and what its owner found. */
  lemma LastProgram(d: Setup, f: Arithmetic, m: Memory, end: nat) returns (j: nat, r: nat)
    requires d.Valid() && HasControl(m) && m[StepCount] == 0 && MarksTokens(f, d.layers)
    requires end > 0 && EndsAt(DecoderGraph(d), f, m, end)
    ensures r <= 2 * d.layers && end == Index(d, j, r) + 1
    ensures j * d.layers + r / 2 < d.maxSteps
    ensures var c := Trace(DecoderGraph(d), f, m, end);
            && (c.status == Completed <==> r == 2 * d.layers && Word(Tokens(d, f, m, j + 1), PredicateValue) >= d.stop)
            && (c.status == MaxSteps ==> j * d.layers + (r + 1) / 2 >= d.maxSteps)
            && (c.status == InvalidProgram ==> end >= d.phases)
            && (r == 2 * d.layers ==> c.memory == Tokens(d, f, m, j + 1) && c.executed == ExecutedAt(d, j + 1, 0))
  {
    hide PartitionsOk, Tokens, MarksTokens, Trace, DecoderGraph, GraphOk, After, Prior, ExecutedAt;
    var g := DecoderGraph(d);
    j, r := Located(d, end - 1);
    TraceOnTrack(d, f, m, j, r);
    TraceStep(g, f, m, end - 1);
    VerdictAt(d, f, m, j, r, Trace(g, f, m, end - 1), end - 1);
    RunningStep(d, f, m, end - 1);
    PriorStep(d, f, m, j, r);
  }

  /** Every run of the resident graph that ended, with any number of workers and in any
      interleaving: if the host's loops first meet the predicate after `k` tokens, the run
      is complete exactly if the step bound and the phase states suffice for `k` tokens, and
      it then leaves the buffers of the host's `k` tokens. */
  lemma DecodesLikeHost(d: Setup, f: Arithmetic, m: Memory, w: World, k: nat)
    requires d.Valid() && HasControl(m) && m[StepCount] == 0 && MarksTokens(f, d.layers) && StopsAt(d, f, m, k)
    requires Reachable(DecoderGraph(d), f, m, w) && w.status != StillRunning
    ensures w.status == Completed <==> k * d.layers < d.maxSteps && k * d.Cycle() <= d.phases
    ensures w.status == Completed ==>
      w.memory == Tokens(d, f, m, k) && w.executed == k * PerToken(d) && |w.gens| == k * d.Cycle()
  {
    hide PartitionsOk, Tokens, MarksTokens, Trace, DecoderGraph, GraphOk, HasControl, Reachable, PerToken;
    var g, end := DecoderGraph(d), |w.gens|;
    EndsAsReference(g, f, m, w);
    SomePhase(d, f, m, w);
    NotBeyond(d, f, m, k);
    IndexOf(d, k);
    assert end <= k * d.Cycle();
    var j, r := LastProgram(d, f, m, end);
    CycleOrder(d, j, r, k);
    if w.status == Completed {
      assert j + 1 == k;
    }
  }

  lemma SomePhase(d: Setup, f: Arithmetic, m: Memory, w: World)
    requires d.Valid() && Reachable(DecoderGraph(d), f, m, w)
    ensures 0 < |w.gens| <= d.phases
  {
    hide GraphOk, Reachable, CurrentOk, Trace, Closed;
    ReachableInv(DecoderGraph(d), f, m, w);
  }

  /** The benchmark's bounds are large enough for every token it may ask for. */
  lemma BenchmarkCompletes(d: Setup, f: Arithmetic, m: Memory, w: World, k: nat, steps: nat)
    requires d.Valid() && HasControl(m) && m[StepCount] == 0 && MarksTokens(f, d.layers) && StopsAt(d, f, m, k)
    requires k <= steps && d.maxSteps == 2 * (steps * d.layers) && d.phases == 2 * (steps * d.Cycle()) + 1
    requires Reachable(DecoderGraph(d), f, m, w) && w.status != StillRunning
    ensures w.status == Completed && w.memory == Tokens(d, f, m, k) && w.executed == k * PerToken(d)
  {
    hide PartitionsOk, Tokens, MarksTokens, DecoderGraph, Reachable, HasControl, PerToken;
    Multiples(k, steps, d.layers);
    Multiples(k, steps, d.Cycle());
    Multiples(1, k, d.layers);
    DecodesLikeHost(d, f, m, w, k);
  }
}
