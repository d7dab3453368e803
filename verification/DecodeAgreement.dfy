/** Resident and host decode side by side with different numbers of LM-head partitions, as
    the benchmark runs them: everything but the partial maxima is the same. */
module DecodeAgreement {
  import opened TaskMasks
  import opened QwenTasks
  import opened TaskGraph
  import opened QwenPrograms
  import opened HostDecode
  import opened TokenAgreement
  import opened Top1
  import opened R = ResidentGraph
  import opened ResidentDecode

  /** The cells that depend on how the vocabulary is cut. */
  predicate Scratch(c: Cell) {
    c.PartialValue? || c.PartialIndex? || c.SampledLogit?
  }

  predicate Agree(m: Memory, m': Memory) {
    m.Keys == m'.Keys && forall c :: c in m && !Scratch(c) ==> m[c] == m'[c]
  }

  /** The arithmetic does not look at the dependency mask. */
  ghost predicate MaskBlind(f: Arithmetic) {
    forall t: Task, c: Cell, x: Memory :: f(t, c, x) == f(Unmasked(t), c, x)
  }

  function Unmasked(t: Task): Task {
    t.(dependencies := Words(0, 0))
  }

  // ------------------------------------------------------------- one task

  lemma AgreeInputs(s: Shape, t: Task, c: Cell, m: Memory, m': Memory)
    requires s.Valid() && Agree(m, m') && !t.opcode.Top1Reduce? && Writes(s, t, c) && !Scratch(c)
    ensures Inputs(s, t, c, m) == Inputs(s, t, c, m')
  {
    forall i | Reads(s, t, c, i) ensures !Scratch(i) { PlainReads(s, t, c, i); }
    hide Reads, Writes;
    assert Inputs(s, t, c, m).Keys == Inputs(s, t, c, m').Keys;
  }

  lemma PlainReads(s: Shape, t: Task, c: Cell, i: Cell)
    requires s.Valid() && !t.opcode.Top1Reduce? && Writes(s, t, c) && !Scratch(c) && Reads(s, t, c, i)
    ensures !Scratch(i)
  {
  }

  lemma AgreeTask(s: Shape, f: Arithmetic, m: Memory, m': Memory, t: Task)
    requires s.Valid() && Agree(m, m') && !t.opcode.Top1Reduce?
    ensures Agree(Execute(s, f, m, t), Execute(s, f, m', t))
  {
    hide Reads, Writes, Inputs;
    forall c | c in m && !Scratch(c) && Writes(s, t, c) ensures Inputs(s, t, c, m) == Inputs(s, t, c, m') {
      AgreeInputs(s, t, c, m, m');
    }
  }

  lemma {:induction false} AgreeTasks(s: Shape, f: Arithmetic, m: Memory, m': Memory, tasks: seq<Task>)
    requires s.Valid() && Agree(m, m') && forall i :: 0 <= i < |tasks| ==> !tasks[i].opcode.Top1Reduce?
    ensures Agree(HostTasks(s, f, m, tasks), HostTasks(s, f, m', tasks))
    decreases |tasks|
  {
    hide Execute;
    if tasks != [] {
      var n := |tasks| - 1;
      AgreeTasks(s, f, m, m', tasks[..n]);
      AgreeTask(s, f, HostTasks(s, f, m, tasks[..n]), HostTasks(s, f, m', tasks[..n]), tasks[n]);
    }
  }

  lemma MaskIrrelevant(s: Shape, f: Arithmetic, m: Memory, t: Task)
    requires s.Valid() && MaskBlind(f)
    ensures Execute(s, f, m, t) == Execute(s, f, m, Unmasked(t))
  {
    forall c ensures Writes(s, t, c) == Writes(s, Unmasked(t), c) {}
    forall c ensures Inputs(s, t, c, m) == Inputs(s, Unmasked(t), c, m) {}
    hide Writes, Reads, Inputs;
  }

  // ------------------------------------------------------------- layers

  predicate SameButHead(n: Partitions, n': Partitions) {
    n' == n.(lmHead := n'.lmHead)
  }

  lemma DecoderTasksPlain(s: Shape, n: Partitions, i: nat)
    requires s.Valid() && PartitionsOk(n) && i < |DecoderTasks(s, n)|
    ensures !DecoderTasks(s, n)[i].opcode.Top1Reduce?
  {
    hide Tasks, First;
    SpecsValid(s, n);
    var a := |Tasks(AttentionSpecs(s, n), 5)|;
    if i < a {
      var k := OpcodeOf(s, AttentionSpecs(s, n), i);
    } else {
      var k := OpcodeOf(s, FeedForwardSpecs(s, n), i - a);
    }
  }

  lemma {:induction false} AgreeLayers(s: Shape, n: Partitions, n': Partitions, f: Arithmetic, m: Memory, m': Memory,
                                       l: nat)
    requires s.Valid() && PartitionsOk(n) && PartitionsOk(n') && SameButHead(n, n') && Agree(m, m')
    ensures Agree(HostLayers(s, n, f, m, l), HostLayers(s, n', f, m', l))
  {
    hide HostTasks, PartitionsOk, DecoderTasks, Agree;
    if l > 0 {
      AgreeLayers(s, n, n', f, m, m', l - 1);
      SameDecoderTasks(s, n, n');
      forall i | 0 <= i < |DecoderTasks(s, n)| ensures !DecoderTasks(s, n)[i].opcode.Top1Reduce? {
        DecoderTasksPlain(s, n, i);
      }
      AgreeTasks(s, f, HostLayers(s, n, f, m, l - 1), HostLayers(s, n', f, m', l - 1), DecoderTasks(s, n));
    }
  }

  lemma SameDecoderTasks(s: Shape, n: Partitions, n': Partitions)
    requires PartitionsOk(n) && PartitionsOk(n') && SameButHead(n, n')
    ensures DecoderTasks(s, n) == DecoderTasks(s, n')
  {
    hide Tasks;
    assert AttentionSpecs(s, n) == AttentionSpecs(s, n') && FeedForwardSpecs(s, n) == FeedForwardSpecs(s, n');
  }

  // ------------------------------------------------------------- the tail

  lemma PartitionTouches(s: Shape, f: Arithmetic, m: Memory, t: Task)
    requires s.Valid() && t.opcode.LmHeadTop1Partition?
    ensures Agree(Execute(s, f, m, t), m)
  {
  }

  lemma {:induction false} PartitionsTouch(s: Shape, f: Arithmetic, m: Memory, n: Partitions, q: nat)
    requires TailOk(s, n) && q <= n.lmHead
    ensures 1 + q <= |Tail(s, n).tasks|
    ensures Agree(Sequential(s, f, m, Tail(s, n).tasks, 1 + q), Normalized(s, f, m))
  {
    hide Execute, PartitionsOk, Tail, Normalized;
    SomePartition(n);
    TailFirsts(s, n);
    AfterNorm(s, f, m, n);
    if q > 0 {
      PartitionsTouch(s, f, m, n, q - 1);
      PartitionTask(s, n, q - 1);
      PartitionTouches(s, f, Sequential(s, f, m, Tail(s, n).tasks, q), Tail(s, n).tasks[q]);
    }
  }

  lemma AgreeNorm(s: Shape, f: Arithmetic, m: Memory, m': Memory)
    requires s.Valid() && Agree(m, m')
    ensures Agree(Normalized(s, f, m), Normalized(s, f, m'))
    ensures Norm(s, Normalized(s, f, m)) == Norm(s, Normalized(s, f, m'))
  {
    hide Execute, Bound, Split;
    AgreeTask(s, f, m, m', Task(FinalRmsnorm, Split(0), Bound(s.hidden, 1, 0), Bound(s.hidden, 1, 1), EPSILON, 0));
    assert Norm(s, Normalized(s, f, m)).Keys == Norm(s, Normalized(s, f, m')).Keys;
  }

  /** The reduction stores the sampled token and a scratch cell. */
  lemma ReduceTouches(s: Shape, f: Arithmetic, m: Memory, t: Task, c: Cell)
    requires s.Valid() && t.opcode.Top1Reduce? && c in m && !Scratch(c) && c != SampledToken
    ensures Execute(s, f, m, t)[c] == m[c]
  {
  }

  /** Both partitionings sample the same token. */
  lemma {:induction false} SameToken(s: Shape, f: Arithmetic, decode: Decode, logits: Logits, m: Memory, n: Partitions,
                                     m': Memory, n': Partitions)
    requires TailOk(s, n) && TailOk(s, n') && HasCells(m, n) && HasCells(m', n') && Samples(s, f, decode, logits)
    requires Agree(m, m')
    ensures Sequential(s, f, m, Tail(s, n).tasks, |Tail(s, n).tasks|)[SampledToken]
            == Sequential(s, f, m', Tail(s, n').tasks, |Tail(s, n').tasks|)[SampledToken]
  {
    hide Sequential, Normalized, IsTop, Range, Tail, Norm, Samples, PartitionsOk, Agree;
    SomePartition(n);
    SomePartition(n');
    AgreeNorm(s, f, m, m');
    TailSamples(s, f, decode, logits, m, n);
    TailSamples(s, f, decode, logits, m', n');
    var end := Sequential(s, f, m, Tail(s, n).tasks, |Tail(s, n).tasks|);
    var end' := Sequential(s, f, m', Tail(s, n').tasks, |Tail(s, n').tasks|);
    TopUnique(logits(Norm(s, Normalized(s, f, m))), Range(0, s.vocabulary),
              Candidate(decode(end[SampledLogit]), end[SampledToken]),
                Candidate(decode(end'[SampledLogit]), end'[SampledToken]));
  }

  /** The memory when the feedback task starts. */
  function BeforeFeedback(s: Shape, f: Arithmetic, m: Memory, n: Partitions): Memory
    requires TailOk(s, n)
  {
    TailFirsts(s, n);
    Sequential(s, f, m, Tail(s, n).tasks, 2 + n.lmHead)
  }

  lemma BeforeFeedbackCell(s: Shape, f: Arithmetic, m: Memory, n: Partitions, c: Cell)
    requires TailOk(s, n) && c in m && !Scratch(c) && c != SampledToken
    ensures c in Normalized(s, f, m) && BeforeFeedback(s, f, m, n)[c] == Normalized(s, f, m)[c]
  {
    hide Execute, PartitionsOk, Tail, Normalized, Sequential;
    SomePartition(n);
    TailFirsts(s, n);
    TailShape(s, n);
    PartitionsTouch(s, f, m, n, n.lmHead);
    ReduceTask(s, n);
    SequentialStep(Tail(s, n), f, m, 2 + n.lmHead);
    ReduceTouches(s, f, Sequential(s, f, m, Tail(s, n).tasks, 1 + n.lmHead), Tail(s, n).tasks[1 + n.lmHead], c);
  }

  lemma FeedbackLast(s: Shape, f: Arithmetic, m: Memory, n: Partitions)
    requires TailOk(s, n)
    ensures 2 + n.lmHead < |Tail(s, n).tasks|
    ensures Sequential(s, f, m, Tail(s, n).tasks, |Tail(s, n).tasks|)
            == Execute(s, f, BeforeFeedback(s, f, m, n), Tail(s, n).tasks[2 + n.lmHead])
    ensures SampledToken in m ==>
      Sequential(s, f, m, Tail(s, n).tasks, |Tail(s, n).tasks|)[SampledToken]
        == BeforeFeedback(s, f, m, n)[SampledToken]
  {
    hide Execute, PartitionsOk, Tail, Sequential;
    SomePartition(n);
    TailFirsts(s, n);
    TailShape(s, n);
    FeedbackTask(s, n);
    SequentialStep(Tail(s, n), f, m, 3 + n.lmHead);
    if SampledToken in m {
      ReduceTask(s, n);
      SampledOnce(s, Tail(s, n).tasks[1 + n.lmHead], Tail(s, n).tasks[2 + n.lmHead], SampledToken);
      ExecuteCell(s, f, BeforeFeedback(s, f, m, n), Tail(s, n).tasks[2 + n.lmHead], SampledToken);
    }
  }

  lemma AgreeBeforeFeedback(s: Shape, f: Arithmetic, decode: Decode, logits: Logits, m: Memory, n: Partitions,
                     m': Memory, n': Partitions)
    requires TailOk(s, n) && TailOk(s, n') && HasCells(m, n) && HasCells(m', n') && Samples(s, f, decode, logits)
    requires Agree(m, m')
    ensures Agree(BeforeFeedback(s, f, m, n), BeforeFeedback(s, f, m', n'))
  {
    hide Sequential, Normalized, Tail, Norm, Samples, PartitionsOk, Execute;
    SameToken(s, f, decode, logits, m, n, m', n');
    FeedbackLast(s, f, m, n);
    FeedbackLast(s, f, m', n');
    AgreeNorm(s, f, m, m');
    forall c | c in m && !Scratch(c) ensures BeforeFeedback(s, f, m, n)[c] == BeforeFeedback(s, f, m', n')[c] {
      if c != SampledToken {
        BeforeFeedbackCell(s, f, m, n, c);
        BeforeFeedbackCell(s, f, m', n', c);
      }
    }
  }

  lemma FeedbackTasks(s: Shape, n: Partitions, n': Partitions)
    requires TailOk(s, n) && TailOk(s, n')
    ensures 2 + n.lmHead < |Tail(s, n).tasks| && 2 + n'.lmHead < |Tail(s, n').tasks|
    ensures Unmasked(Tail(s, n).tasks[2 + n.lmHead]) == Unmasked(Tail(s, n').tasks[2 + n'.lmHead])
    ensures Tail(s, n).tasks[2 + n.lmHead].opcode.EmbeddingFeedback?
  {
    hide First, PartitionsOk, Split, Before, Bound;
    FirstOfFour(TailSpecs(s, n));
    FirstOfFour(TailSpecs(s, n'));
    TailTask(s, n, 3, 2 + n.lmHead);
    TailTask(s, n', 3, 2 + n'.lmHead);
  }

  lemma AgreeTail(s: Shape, f: Arithmetic, decode: Decode, logits: Logits, m: Memory, n: Partitions,
                  m': Memory, n': Partitions)
    requires TailOk(s, n) && TailOk(s, n') && HasCells(m, n) && HasCells(m', n') && Samples(s, f, decode, logits)
    requires MaskBlind(f) && Agree(m, m')
    ensures Agree(HostTasks(s, f, m, TailTasks(s, n)), HostTasks(s, f, m', TailTasks(s, n')))
  {
    hide Sequential, Tail, Samples, PartitionsOk, Execute, HostTasks, MaskBlind, Agree, BeforeFeedback, HasCells;
    SomePartition(n);
    SomePartition(n');
    TailOnHost(s, f, m, n);
    TailOnHost(s, f, m', n');
    AgreeBeforeFeedback(s, f, decode, logits, m, n, m', n');
    FeedbackLast(s, f, m, n);
    FeedbackLast(s, f, m', n');
    FeedbackTasks(s, n, n');
    var t, t' := Tail(s, n).tasks[2 + n.lmHead], Tail(s, n').tasks[2 + n'.lmHead];
    MaskIrrelevant(s, f, BeforeFeedback(s, f, m, n), t);
    MaskIrrelevant(s, f, BeforeFeedback(s, f, m', n'), t');
    AgreeTask(s, f, BeforeFeedback(s, f, m, n), BeforeFeedback(s, f, m', n'), Unmasked(t));
  }

  lemma TailOnHost(s: Shape, f: Arithmetic, m: Memory, n: Partitions)
    requires TailOk(s, n)
    ensures HostTasks(s, f, m, TailTasks(s, n)) == Sequential(s, f, m, Tail(s, n).tasks, |Tail(s, n).tasks|)
  {
    hide Sequential, HostTasks, Tasks;
    SpecsValid(s, n);
    PlainPrograms(s, n, f, m);
  }

  // ------------------------------------------------------------- tokens

  lemma AgreesWithItself(m: Memory)
    ensures Agree(m, m)
  {
  }

  lemma CellsKept(m: Memory, x: Memory, n: Partitions)
    requires x.Keys == m.Keys && HasCells(m, n)
    ensures HasCells(x, n)
  {
  }

  lemma {:induction false} AgreeTokens(s: Shape, layers: nat, f: Arithmetic, decode: Decode, logits: Logits, m: Memory,
                                       n: Partitions, n': Partitions, k: nat)
    requires TailOk(s, n) && TailOk(s, n') && SameButHead(n, n') && HasCells(m, n) && HasCells(m, n')
    requires Samples(s, f, decode, logits) && MaskBlind(f)
    ensures Agree(HostTokens(s, n, f, layers, m, k), HostTokens(s, n', f, layers, m, k))
  {
    hide HostTasks, PartitionsOk, HostLayers, TailTasks, Samples, MaskBlind, Agree, HasCells;
    if k == 0 {
      AgreesWithItself(m);
    } else {
      AgreeTokens(s, layers, f, decode, logits, m, n, n', k - 1);
      var x, x' := HostTokens(s, n, f, layers, m, k - 1), HostTokens(s, n', f, layers, m, k - 1);
      AgreeLayers(s, n, n', f, x, x', layers);
      CellsKept(m, HostLayers(s, n, f, x, layers), n);
      CellsKept(m, HostLayers(s, n', f, x', layers), n');
      AgreeTail(s, f, decode, logits, HostLayers(s, n, f, x, layers), n, HostLayers(s, n', f, x', layers), n');
    }
  }

  /** A resident run with one partitioning and the host's loops with another: the run is
      complete exactly if its bounds suffice for the host's tokens, and then output tokens,
      caches, hidden state, counters and stop reason are the host's, all cells but the
      partial maxima and the sampled logit. */
  lemma ResidentAgreesWithHost(d: Setup, n': Partitions, f: Arithmetic, decode: Decode, logits: Logits, m: Memory,
                               w: World, k: nat)
    requires d.Valid() && TailOk(d.shape, d.parts) && TailOk(d.shape, n') && SameButHead(d.parts, n')
    requires HasCells(m, d.parts) && HasCells(m, n') && HasControl(m) && m[StepCount] == 0
    requires Samples(d.shape, f, decode, logits) && MaskBlind(f) && MarksTokens(f, d.layers)
    requires StopsAt(d.(parts := n'), f, m, k)
    requires Reachable(DecoderGraph(d), f, m, w) && w.status != StillRunning
    ensures w.status == Completed <==> k * d.layers < d.maxSteps && k * d.Cycle() <= d.phases
    ensures w.status == Completed ==> Agree(w.memory, HostTokens(d.shape, n', f, d.layers, m, k))
  {
    hide PartitionsOk, HostTokens, Samples, MaskBlind, MarksTokens, Reachable, DecoderGraph;
    forall j: nat
      ensures Word(Tokens(d, f, m, j), PredicateValue) == Word(Tokens(d.(parts := n'), f, m, j), PredicateValue)
      ensures Agree(HostTokens(d.shape, d.parts, f, d.layers, m, j), HostTokens(d.shape, n', f, d.layers, m, j))
    {
      AgreeTokens(d.shape, d.layers, f, decode, logits, m, d.parts, n', j);
    }
    DecodesLikeHost(d, f, m, w, k);
  }
}
