/** Bit masks of the stateful-graph scheduler: 64-bit dependency masks stored as two
    32-bit words, and the claimed and completed masks that workers update word by word. */
module TaskMasks {
  import opened Bits

  const MAXIMUM_TASKS: nat := 64
  const WORD: nat := 32
  const WORD_SIZE: nat := 0x1_0000_0000

  // ------------------------------------------------------------- two words

  lemma WordSize()
    ensures Pow2(WORD) == WORD_SIZE
  {
    assert Pow2(8) == 256;
    PowSum(8, 8);
    PowSum(16, 16);
  }

  datatype Words = Words(low: nat, high: nat)

  /** As stored in a task descriptor. */
  function Split(m: nat): Words {
    Words(m % WORD_SIZE, m / WORD_SIZE)
  }

  /** As put together again by the scheduler. */
  function Join(w: Words): nat {
    Or(w.low, w.high * WORD_SIZE)
  }

  predicate Has(w: Words, t: nat) {
    if t < WORD then Bit(w.low, t) else Bit(w.high, t - WORD)
  }

  /** `atomicOr` on the word that holds the bit. */
  function Set(w: Words, t: nat): Words {
    if t < WORD then w.(low := Or(w.low, Pow2(t))) else w.(high := Or(w.high, Pow2(t - WORD)))
  }

  lemma SetHas(w: Words, t: nat, u: nat)
    ensures Has(Set(w, t), u) <==> Has(w, u) || u == t
  {
    if t < WORD && u < WORD {
      OrBit(w.low, Pow2(t), u);
      PowBit(t, u);
    } else if t >= WORD && u >= WORD {
      OrBit(w.high, Pow2(t - WORD), u - WORD);
      PowBit(t - WORD, u - WORD);
    }
  }

  /** Only the low 32 bits of the first word are in use. */
  predicate Narrow(w: Words) {
    w.low < WORD_SIZE
  }

  lemma {:induction false} JoinBit(w: Words, t: nat)
    requires Narrow(w)
    ensures Bit(Join(w), t) <==> Has(w, t)
  {
    hide Pow2;
    WordSize();
    OrBit(w.low, w.high * WORD_SIZE, t);
    ShiftBit(w.high, WORD, t);
    if t >= WORD { HighBit(w.low, WORD, t); }
  }

  /** No dependency is lost between the builder and the scheduler. */
  lemma {:induction false} JoinSplit(m: nat)
    ensures Narrow(Split(m)) && Join(Split(m)) == m
    ensures forall t: nat :: Has(Split(m), t) <==> Bit(m, t)
  {
    hide Pow2, Or;
    WordSize();
    ShiftRightDivides(m, WORD);
    forall t: nat ensures Has(Split(m), t) <==> Bit(m, t) {
      ModBit(m, WORD, t);
      if t >= WORD { ShiftRightBit(m, WORD, t - WORD); }
    }
    forall t: nat ensures Bit(Join(Split(m)), t) <==> Bit(m, t) {
      JoinBit(Split(m), t);
    }
    SameBits(Join(Split(m)), m);
  }

  lemma SetNarrow(w: Words, t: nat)
    requires Narrow(w)
    ensures Narrow(Set(w, t))
  {
    if t < WORD {
      hide Pow2, Or;
      WordSize();
      PowLess(t, WORD);
      OrBound(w.low, Pow2(t), WORD);
    }
  }

  ghost predicate Within(d: Words, c: Words) {
    forall t: nat :: Has(d, t) ==> Has(c, t)
  }

  /** The scheduler's test on the words it loaded. */
  lemma ReadyIff(d: Words, seen: Words)
    requires Narrow(d) && Narrow(seen)
    ensures And(Join(d), Join(seen)) == Join(d) <==> Within(d, seen)
  {
    hide And, Join, Has;
    SubsetIff(Join(d), Join(seen));
    forall t: nat ensures (Bit(Join(d), t) <==> Has(d, t)) && (Bit(Join(seen), t) <==> Has(seen, t)) {
      JoinBit(d, t);
      JoinBit(seen, t);
    }
    assert BitsWithin(Join(d), Join(seen)) ==> Within(d, seen);
    assert Within(d, seen) ==> BitsWithin(Join(d), Join(seen));
  }

  // ------------------------------------------------------------- masks of a stage

  /** The mask of the tasks from `lo` on, below `hi`. */
  function RangeMask(lo: nat, hi: nat): nat
    requires lo <= hi
  {
    if lo == hi then 0 else Or(RangeMask(lo, hi - 1), Pow2(hi - 1))
  }

  lemma {:induction false} RangeMaskBit(lo: nat, hi: nat, i: nat)
    requires lo <= hi
    ensures Bit(RangeMask(lo, hi), i) <==> lo <= i < hi
    decreases hi
  {
    if lo == hi {
      ZeroBit(i);
    } else {
      RangeMaskBit(lo, hi - 1, i);
      OrBit(RangeMask(lo, hi - 1), Pow2(hi - 1), i);
      PowBit(hi - 1, i);
    }
  }

  /** A program of at most 64 tasks has masks of at most 64 bits. */
  lemma {:induction false} RangeMaskFits(lo: nat, hi: nat)
    requires lo <= hi <= 2 * WORD
    ensures RangeMask(lo, hi) < Pow2(2 * WORD)
    decreases hi
  {
    if lo < hi {
      RangeMaskFits(lo, hi - 1);
      PowLess(hi - 1, 2 * WORD);
      OrBound(RangeMask(lo, hi - 1), Pow2(hi - 1), 2 * WORD);
    }
  }
}
