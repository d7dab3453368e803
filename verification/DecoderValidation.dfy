/** The scheduler's validation of a whole program table, and the decoder's table against it. */
module DecoderValidation {
  import opened Bits
  import opened TaskMasks
  import opened QwenTasks
  import opened TaskGraph
  import opened QwenPrograms
  import opened ProgramValidation

  /** Both words of a mask have 32 bits. */
  predicate Fits(w: Words) {
    w.low < WORD_SIZE && w.high < WORD_SIZE
  }

  lemma JoinFits(w: Words)
    requires Fits(w)
    ensures Join(w) < Pow2(MAXIMUM_TASKS)
  {
    hide Or, Pow2;
    WordSize();
    PowSum(WORD, WORD);
    PowLess(WORD, MAXIMUM_TASKS);
    OrBound(w.low, w.high * WORD_SIZE, MAXIMUM_TASKS);
  }

  lemma SplitFits(mask: nat)
    requires mask < Pow2(MAXIMUM_TASKS)
    ensures Fits(Split(mask))
  {
    hide Pow2;
    WordSize();
    PowSum(WORD, WORD);
    assert mask == WORD_SIZE * (mask / WORD_SIZE) + mask % WORD_SIZE;
  }

  /** The 64-bit masks as the scheduler puts them together. */
  function Masks(tasks: seq<Task>): (r: seq<nat>)
    ensures |r| == |tasks| && forall t :: 0 <= t < |tasks| ==> r[t] == Join(tasks[t].dependencies)
  {
    seq(|tasks|, t requires 0 <= t < |tasks| => Join(tasks[t].dependencies))
  }

  // ------------------------------------------------------------- one table

  predicate Bounded(t: Table, e: Entry) {
    && 0 < e.taskCount <= MAXIMUM_TASKS && e.taskOffset <= |t.tasks| && e.taskCount <= |t.tasks| - e.taskOffset
    && e.nextProgram < |t.programs| && (e.branchesOnState ==> e.branchProgram < |t.programs|)
  }

  /** The entry lies in the table, its masks name other tasks of the same program, and its
      tasks can be put in an order that respects them. */
  ghost predicate EntryOk(t: Table, i: nat)
    requires i < |t.programs|
  {
    Bounded(t, t.programs[i]) && MasksInRange(Masks(ProgramTasks(t, i))) && CanBeOrdered(Masks(ProgramTasks(t, i)))
  }

  /** The validation loop over the programs accepts if and only if every entry is sound. */
  method ValidateTable(t: Table) returns (ok: bool)
    requires forall k :: 0 <= k < |t.tasks| ==> Fits(t.tasks[k].dependencies)
    ensures ok <==> forall i :: 0 <= i < |t.programs| ==> EntryOk(t, i)
  {
    hide MasksInRange, CanBeOrdered, Pow2, Join, Masks, Fits;
    for i := 0 to |t.programs|
      invariant forall k :: 0 <= k < i ==> EntryOk(t, k)
    {
      if !Bounded(t, t.programs[i]) {
        assert !EntryOk(t, i);
        return false;
      }
      var masks := Masks(ProgramTasks(t, i));
      forall k | 0 <= k < |masks| ensures masks[k] < Pow2(MAXIMUM_TASKS) {
        JoinFits(ProgramTasks(t, i)[k].dependencies);
      }
      ok := Validate(masks);
      if !ok {
        assert !EntryOk(t, i);
        return;
      }
    }
    ok := true;
  }

  // ------------------------------------------------------------- staged programs pass

  lemma {:induction false} DependsEarlier(p: Program, t: nat, d: nat)
    requires WellFormed(p) && t < |p.tasks| && Bit(Join(p.tasks[t].dependencies), d)
    ensures d < t
  {
    hide Bit, Join, Has, Narrow, StagesQuiet;
    JoinBit(p.tasks[t].dependencies, d);
    var s := StageOf(p, t, 0);
    DependsOn(p, s, t, d);
  }

  function Indices(n: nat): (r: seq<nat>)
    ensures |r| == n && forall t :: 0 <= t < n ==> r[t] == t
  {
    seq(n, t requires 0 <= t => t)
  }

  /** The masks of a well-formed staged program are in range, and index order respects them. */
  lemma StagedValidates(p: Program)
    requires WellFormed(p)
    ensures MasksInRange(Masks(p.tasks)) && CanBeOrdered(Masks(p.tasks))
  {
    hide Bit, Join, WellFormed, Masks, Indices;
    var masks, order := Masks(p.tasks), Indices(|p.tasks|);
    forall t: nat, d: nat | t < |masks| && Bit(masks[t], d) ensures d < t {
      DependsEarlier(p, t, d);
    }
    forall k, d: nat | 0 <= k < |order| && Bit(masks[order[k]], d) ensures d in order[..k] {
      assert order[..k][d] == d;
    }
    forall t: nat | t < |masks| ensures t in order {
      assert order[t] == t;
    }
    assert Ordered(masks, order);
  }

  lemma {:induction false} TasksFit(shape: Shape, specs: seq<StageSpec>, t: nat)
    requires shape.Valid() && SpecsOk(specs) && First(specs, |specs|) <= MAXIMUM_TASKS && t < |Tasks(specs, |specs|)|
    ensures Fits(Tasks(specs, |specs|)[t].dependencies)
  {
    hide Fits, Split, Before;
    AssembledStages(shape, specs);
    var p := Assemble(shape, specs);
    var s := StageOf(p, t, 0);
    AssembledTask(shape, specs, s, t);
    MasksFit(specs, s);
    SplitFits(Before(specs, s));
  }

  lemma {:induction false} EntryPasses(shape: Shape, specs: seq<StageSpec>, t: Table, i: nat)
    requires shape.Valid() && SpecsOk(specs) && First(specs, |specs|) <= MAXIMUM_TASKS
    requires WellFormed(Assemble(shape, specs))
    requires Linked(t) && i < 3 && ProgramTasks(t, i) == Tasks(specs, |specs|)
    ensures EntryOk(t, i)
  {
    hide WellFormed, MasksInRange, CanBeOrdered, Tasks, Masks;
    StagedValidates(Assemble(shape, specs));
    FirstGrows(specs, 0, |specs|);
  }

  lemma Counts(s: Shape, n: Partitions)
    requires PartitionsOk(n)
    ensures First(AttentionSpecs(s, n), 5) <= MAXIMUM_TASKS
    ensures First(FeedForwardSpecs(s, n), 4) <= MAXIMUM_TASKS
    ensures First(TailSpecs(s, n), 4) <= MAXIMUM_TASKS
  {
    hide First;
    FirstOfFive(AttentionSpecs(s, n));
    FirstOfFour(FeedForwardSpecs(s, n));
    FirstOfFour(TailSpecs(s, n));
  }

  /** Whatever the sizes and partition counts, the scheduler accepts the table the builder
      makes: no decoder is refused before its first step. */
  method BuildAndValidate(s: Shape, n: Partitions) returns (ok: bool)
    requires s.Valid() && PartitionsOk(n)
    ensures ok <==> n.lmHead <= MAXIMUM_LM_HEAD_PARTITIONS && n.lmHead <= s.vocabulary
  {
    hide WellFormed, Tasks, First, EntryOk, Fits, SpecsOk, AttentionSpecs, FeedForwardSpecs, TailSpecs, ProgramTasks;
    var built := MakePrograms(s, n);
    if built.InvalidPartitioning? { return false; }
    var a, f, t := AttentionSpecs(s, n), FeedForwardSpecs(s, n), TailSpecs(s, n);
    SpecsValid(s, n);
    Counts(s, n);
    DecoderWellFormed(s, n);
    forall k | 0 <= k < |built.table.tasks| ensures Fits(built.table.tasks[k].dependencies) {
      if k < |Tasks(a, 5)| {
        TasksFit(s, a, k);
      } else if k < |Tasks(a, 5)| + |Tasks(f, 4)| {
        TasksFit(s, f, k - |Tasks(a, 5)|);
      } else {
        TasksFit(s, t, k - |Tasks(a, 5)| - |Tasks(f, 4)|);
      }
    }
    EntryPasses(s, a, built.table, 0);
    EntryPasses(s, f, built.table, 1);
    EntryPasses(s, t, built.table, 2);
    ok := ValidateTable(built.table);
  }
}
