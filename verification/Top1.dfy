/** Greedy sampling: waves scan strided rows, a worker reduces its waves, and the last task
    reduces the partitions. Logits are ordered as floats without NaN. */
module Top1 {
  import opened QwenPrograms
  import opened Strides

  /** A float that is not NaN. */
  datatype Float = NegativeInfinity | Finite(value: real) | PositiveInfinity

  predicate Less(a: Float, b: Float) {
    match a
    case NegativeInfinity => !b.NegativeInfinity?
    case Finite(x) => b.PositiveInfinity? || (b.Finite? && x < b.value)
    case PositiveInfinity => false
  }

  datatype Candidate = Candidate(value: Float, index: nat)

  const NO_INDEX: nat := 0xFFFF_FFFF
  const NOBODY: Candidate := Candidate(NegativeInfinity, NO_INDEX)

  /** `better_top1`. */
  predicate Better(a: Candidate, b: Candidate) {
    Less(b.value, a.value) || (a.value == b.value && a.index < b.index)
  }

  /** Row indices are 32-bit and never the sentinel. */
  predicate Rows(logits: seq<Float>) {
    |logits| <= NO_INDEX
  }

  /** `c` is the best of the rows in `rows`: nobody's value is higher, and nobody with the
      same value has a lower index. Over no rows at all it is the starting value. */
  predicate IsTop(logits: seq<Float>, rows: set<nat>, c: Candidate) {
    && (forall r :: r in rows ==> r < |logits|)
    && if rows == {} then c == NOBODY
       else c.index in rows && c.value == logits[c.index] &&
            forall r :: r in rows && r != c.index ==> Better(c, Candidate(logits[r], r))
  }

  function Pick(best: Candidate, next: Candidate): Candidate {
    if Better(next, best) then next else best
  }

  lemma BetterTransitive(a: Candidate, b: Candidate, c: Candidate)
    requires Better(a, b) && Better(b, c)
    ensures Better(a, c)
  {
  }

  lemma BetterTotal(a: Candidate, b: Candidate)
    ensures Better(a, b) || Better(b, a) || a == b
    ensures !(Better(a, b) && Better(b, a))
  {
  }

  lemma BeatsRest(logits: seq<Float>, rows: set<nat>, c: Candidate, a: Candidate)
    requires IsTop(logits, rows, c) && Better(a, c)
    ensures forall r :: r in rows ==> Better(a, Candidate(logits[r], r))
  {
    hide Better;
    forall r | r in rows ensures Better(a, Candidate(logits[r], r)) {
      if r != c.index {
        BetterTransitive(a, c, Candidate(logits[r], r));
      }
    }
  }

  lemma AnyoneBeatsNobody(logits: seq<Float>, r: nat)
    requires Rows(logits) && r < |logits|
    ensures Better(Candidate(logits[r], r), NOBODY)
  {
  }

  /** Picking the better of two bests gives the best of both. */
  lemma PickMerges(logits: seq<Float>, s: set<nat>, t: set<nat>, a: Candidate, b: Candidate)
    requires Rows(logits) && IsTop(logits, s, a) && IsTop(logits, t, b)
    ensures IsTop(logits, s + t, Pick(a, b))
  {
    hide Better;
    if s == {} {
      assert s + t == t;
      if t == {} { BetterTotal(a, b); } else { AnyoneBeatsNobody(logits, b.index); }
    } else if t == {} {
      assert s + t == s;
      AnyoneBeatsNobody(logits, a.index);
      BetterTotal(a, b);
    } else {
      BetterTotal(a, b);
      if Better(b, a) { BeatsRest(logits, s, a, b); }
      if Better(a, b) { BeatsRest(logits, t, b, a); }
    }
  }

  lemma SingleTop(logits: seq<Float>, r: nat)
    requires r < |logits|
    ensures IsTop(logits, {r}, Candidate(logits[r], r))
  {
  }

  /** The best is one candidate only. */
  lemma TopUnique(logits: seq<Float>, rows: set<nat>, a: Candidate, b: Candidate)
    requires IsTop(logits, rows, a) && IsTop(logits, rows, b)
    ensures a == b
  {
    BetterTotal(a, b);
  }

  // ------------------------------------------------------------- one wave

  predicate Between(lo: nat, hi: nat, r: nat) {
    lo <= r < hi
  }

  function Range(lo: nat, hi: nat): set<nat> {
    set r: nat | r < hi && Between(lo, hi, r)
  }

  /** The wave that scans row `r` of a partition that starts at `begin`. */
  function WaveOf(begin: nat, waves: nat, r: nat): (w: nat)
    requires waves > 0 && begin <= r
    ensures w < waves
  {
    Owner(r - begin, waves)
  }

  predicate OfWave(begin: nat, end: nat, wave: nat, waves: nat, r: nat)
    requires waves > 0
  {
    begin <= r < end && WaveOf(begin, waves, r) == wave
  }

  /** Rows of the partition that belong to `wave`, below `upto`. */
  function WaveRows(begin: nat, end: nat, wave: nat, waves: nat, upto: nat): set<nat>
    requires waves > 0
  {
    set r: nat | r < upto && OfWave(begin, end, wave, waves, r)
  }

  lemma WaveNext(begin: nat, end: nat, wave: nat, waves: nat, row: nat)
    requires waves > 0 && OfWave(begin, end, wave, waves, row)
    ensures WaveRows(begin, end, wave, waves, row + waves) == WaveRows(begin, end, wave, waves, row) + {row}
    ensures WaveOf(begin, waves, row + waves) == wave
  {
    hide Owner;
    OwnerNext(row - begin, waves);
    assert row + waves - begin == row - begin + waves;
    forall r: nat | OfWave(begin, end, wave, waves, r) && row <= r < row + waves ensures r == row {
      OwnerOnce(row - begin, r - begin, waves);
    }
  }

  method WaveScan(logits: seq<Float>, begin: nat, end: nat, wave: nat, waves: nat) returns (best: Candidate)
    requires Rows(logits) && end <= |logits| && wave < waves
    ensures IsTop(logits, WaveRows(begin, end, wave, waves, end), best)
  {
    best := NOBODY;
    var row := begin + wave;
    WaveStart(begin, end, wave, waves);
    while row < end
      invariant begin <= row && WaveOf(begin, waves, row) == wave
      invariant IsTop(logits, WaveRows(begin, end, wave, waves, row), best)
      decreases end - row
    {
      hide IsTop, Better, Pick, WaveRows;
      SingleTop(logits, row);
      PickMerges(logits, WaveRows(begin, end, wave, waves, row), {row}, best, Candidate(logits[row], row));
      WaveNext(begin, end, wave, waves, row);
      best := Choose(best, Candidate(logits[row], row));
      row := row + waves;
    }
    assert WaveRows(begin, end, wave, waves, row) == WaveRows(begin, end, wave, waves, end);
  }

  method Choose(best: Candidate, next: Candidate) returns (r: Candidate)
    ensures r == Pick(best, next)
  {
    r := best;
    if Better(next, best) {
      r := next;
    }
  }

  lemma WaveStart(begin: nat, end: nat, wave: nat, waves: nat)
    requires wave < waves
    ensures WaveRows(begin, end, wave, waves, begin + wave) == {}
    ensures WaveOf(begin, waves, begin + wave) == wave
  {
    hide Owner;
    forall r: nat | r < begin + wave ensures !OfWave(begin, end, wave, waves, r) {
      if begin <= r { OwnerNext(r - begin, waves); }
    }
    OwnerNext(wave, waves);
  }

  // ------------------------------------------------------------- one worker

  predicate BelowWave(begin: nat, end: nat, waves: nat, n: nat, r: nat)
    requires waves > 0
  {
    begin <= r < end && WaveOf(begin, waves, r) < n
  }

  /** Rows of the waves below `n`. */
  function WavesBelow(begin: nat, end: nat, waves: nat, n: nat): set<nat>
    requires waves > 0
  {
    set r: nat | r < end && BelowWave(begin, end, waves, n, r)
  }

  lemma WavesGrow(begin: nat, end: nat, waves: nat, n: nat)
    requires waves > 0
    ensures WavesBelow(begin, end, waves, n + 1)
      == WavesBelow(begin, end, waves, n) + WaveRows(begin, end, n, waves, end)
    ensures WavesBelow(begin, end, waves, 0) == {}
    ensures WavesBelow(begin, end, waves, waves) == Range(begin, end)
  {
    hide Owner;
    assert forall r: nat :: BelowWave(begin, end, waves, n + 1, r) <==>
      BelowWave(begin, end, waves, n, r) || OfWave(begin, end, n, waves, r);
    assert forall r: nat :: BelowWave(begin, end, waves, waves, r) <==> Between(begin, end, r);
  }

  /** The partition task: the best row of the range, for any number of waves. */
  method PartitionTop(logits: seq<Float>, begin: nat, end: nat, waves: nat) returns (best: Candidate)
    requires Rows(logits) && end <= |logits| && waves > 0
    ensures IsTop(logits, Range(begin, end), best)
  {
    hide IsTop, Better, Pick, WaveRows, WavesBelow, Range;
    var reduction: seq<Candidate> := [];
    while |reduction| < waves
      invariant |reduction| <= waves
      invariant forall w :: 0 <= w < |reduction| ==> IsTop(logits, WaveRows(begin, end, w, waves, end), reduction[w])
    {
      var best := WaveScan(logits, begin, end, |reduction|, waves);
      reduction := reduction + [best];
    }
    best := reduction[0];
    WavesGrow(begin, end, waves, 0);
    assert WavesBelow(begin, end, waves, 1) == WaveRows(begin, end, 0, waves, end);
    var candidate := 1;
    while candidate < waves
      invariant 1 <= candidate <= waves
      invariant IsTop(logits, WavesBelow(begin, end, waves, candidate), best)
    {
      PickMerges(logits, WavesBelow(begin, end, waves, candidate), WaveRows(begin, end, candidate, waves, end), best,
                 reduction[candidate]);
      WavesGrow(begin, end, waves, candidate);
      best := Choose(best, reduction[candidate]);
      candidate := candidate + 1;
    }
  }

  // ------------------------------------------------------------- all partitions

  /** `top1_reduce`. */
  method ReduceTop(logits: seq<Float>, parts: nat, partials: seq<Candidate>) returns (best: Candidate)
    requires Rows(logits) && |partials| == parts > 0
    requires forall q :: 0 <= q < parts ==> PartialOk(logits, parts, q, partials[q])
    ensures IsTop(logits, Range(0, |logits|), best)
  {
    hide IsTop, Better, Pick, Bound;
    LastBound(|logits|, parts);
    best := partials[0];
    assert PartialOk(logits, parts, 0, partials[0]);
    var candidate := 1;
    while candidate < parts
      invariant 1 <= candidate <= parts
      invariant IsTop(logits, Range(0, Bound(|logits|, parts, candidate)), best)
    {
      assert PartialOk(logits, parts, candidate, partials[candidate]);
      MergeRanges(logits, parts, candidate, best, partials[candidate]);
      best := Choose(best, partials[candidate]);
      candidate := candidate + 1;
    }
  }

  lemma MergeRanges(logits: seq<Float>, parts: nat, n: nat, best: Candidate, next: Candidate)
    requires Rows(logits) && n < parts && PartialOk(logits, parts, n, next)
    requires IsTop(logits, Range(0, Bound(|logits|, parts, n)), best)
    ensures IsTop(logits, Range(0, Bound(|logits|, parts, n + 1)), Pick(best, next))
  {
    hide IsTop, Better, Pick, Bound;
    var lo, hi := Bound(|logits|, parts, n), Bound(|logits|, parts, n + 1);
    BoundsMonotone(|logits|, parts, n, n + 1);
    PickMerges(logits, Range(0, lo), Range(lo, hi), best, next);
    assert forall r: nat :: Between(0, hi, r) <==> Between(0, lo, r) || Between(lo, hi, r);
    assert Range(0, hi) == Range(0, lo) + Range(lo, hi);
  }

  /** The partition tasks and the reduction: the global best, for every partition count. */
  method SampleToken(logits: seq<Float>, parts: nat, waves: nat) returns (best: Candidate)
    requires Rows(logits) && parts > 0 && waves > 0
    ensures IsTop(logits, Range(0, |logits|), best)
  {
    hide IsTop, Bound, Range;
    LastBound(|logits|, parts);
    var partials: seq<Candidate> := [];
    while |partials| < parts
      invariant |partials| <= parts
      invariant forall q :: 0 <= q < |partials| ==> PartialOk(logits, parts, q, partials[q])
    {
      var p := |partials|;
      BoundsMonotone(|logits|, parts, p + 1, parts);
      var top := PartitionTop(logits, Bound(|logits|, parts, p), Bound(|logits|, parts, p + 1), waves);
      partials := partials + [top];
    }
    best := ReduceTop(logits, parts, partials);
  }

  predicate PartialOk(logits: seq<Float>, parts: nat, p: nat, c: Candidate)
    requires parts > 0
  {
    IsTop(logits, Range(Bound(|logits|, parts, p), Bound(|logits|, parts, p + 1)), c)
  }

  /** Resident and host partitionings pick the same token, the lowest index among the
      maxima of a non-empty vocabulary. */
  lemma SameToken(logits: seq<Float>, a: Candidate, b: Candidate)
    requires |logits| > 0 && IsTop(logits, Range(0, |logits|), a) && IsTop(logits, Range(0, |logits|), b)
    ensures a == b && a.index < |logits| && a.value == logits[a.index]
    ensures forall r :: 0 <= r < |logits| ==> !Less(a.value, logits[r])
    ensures forall r :: 0 <= r < a.index ==> Less(logits[r], a.value)
  {
    assert 0 in Range(0, |logits|);
    TopUnique(logits, Range(0, |logits|), a, b);
    forall r | 0 <= r < |logits|
      ensures !Less(a.value, logits[r]) && (r < a.index ==> Less(logits[r], a.value))
    {
      assert r in Range(0, |logits|);
    }
  }
}
