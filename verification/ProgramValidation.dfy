/** The scheduler's check of a program's dependency masks before it runs: a bounded
    fixpoint that accepts exactly the programs that can be put in order. */
module ProgramValidation {
  import opened Bits
  import opened TaskMasks

  /** The low `n` bits. */
  function AllTasks(n: nat): nat {
    Pow2(n) - 1
  }

  /** Bitwise complement of a number of `k` bits. */
  function Complement(m: nat, k: nat): nat
    requires m < Pow2(k)
  {
    Pow2(k) - 1 - m
  }

  lemma {:induction false} ComplementBit(m: nat, k: nat, i: nat)
    requires m < Pow2(k)
    ensures Bit(Complement(m, k), i) <==> i < k && !Bit(m, i)
    decreases k
  {
    if k == 0 {
      ZeroBit(i);
    } else {
      var a, r := m / 2, m % 2;
      assert Complement(m, k) == 2 * Complement(a, k - 1) + (1 - r);
      ConsBit(Complement(a, k - 1), 1 - r, i);
      if i > 0 { ComplementBit(a, k - 1, i - 1); }
    }
  }

  lemma {:induction false} AllTasksBit(n: nat, i: nat)
    ensures Bit(AllTasks(n), i) <==> i < n
  {
    ComplementBit(0, n, i);
    ZeroBit(i);
  }

  /** No dependency outside a program of `n` tasks, and none of task `t` on itself. */
  ghost predicate InRange(mask: nat, n: nat, t: nat) {
    forall d: nat :: Bit(mask, d) ==> d < n && d != t
  }

  ghost predicate MasksInRange(masks: seq<nat>) {
    forall t: nat :: t < |masks| ==> InRange(masks[t], |masks|, t)
  }

  /** Tasks at most once, each after all its dependencies. */
  ghost predicate Ordered(masks: seq<nat>, order: seq<nat>) {
    && (forall k :: 0 <= k < |order| ==> order[k] < |masks|)
    && (forall j, k :: 0 <= j < k < |order| ==> order[j] != order[k])
    && (forall k, d: nat :: 0 <= k < |order| && Bit(masks[order[k]], d) ==> d in order[..k])
  }

  ghost predicate CanBeOrdered(masks: seq<nat>) {
    exists order: seq<nat> :: Ordered(masks, order) && forall t: nat :: t < |masks| ==> t in order
  }

  /** The reachable mask holds exactly the tasks put in order so far. */
  ghost predicate Reached(reachable: nat, order: seq<nat>) {
    forall t: nat :: Bit(reachable, t) <==> t in order
  }

  /** The first `n` tasks of a given order have been reached. */
  ghost predicate Behind(goal: seq<nat>, n: nat, order: seq<nat>) {
    forall k :: 0 <= k < n && k < |goal| ==> goal[k] in order
  }

  lemma {:induction false} MoreReached(reachable: nat, order: seq<nat>, t: nat)
    requires Reached(reachable, order)
    ensures Reached(Or(reachable, Pow2(t)), order + [t])
  {
    forall u: nat ensures Bit(Or(reachable, Pow2(t)), u) <==> u in order + [t] {
      OrBit(reachable, Pow2(t), u);
      PowBit(t, u);
    }
  }

  lemma MoreOrdered(masks: seq<nat>, order: seq<nat>, t: nat)
    requires Ordered(masks, order) && t < |masks| && t !in order && forall d: nat :: Bit(masks[t], d) ==> d in order
    ensures Ordered(masks, order + [t])
  {
    var more := order + [t];
    forall k, d: nat | 0 <= k < |more| && Bit(masks[more[k]], d) ensures d in more[..k] {
      if k < |order| { assert more[..k] == order[..k]; } else { assert more[..k] == order; }
    }
  }

  /** One look at one task. */
  method Visit(masks: seq<nat>, t: nat, reachable: nat, ghost order: seq<nat>)
    returns (more: nat, ghost longer: seq<nat>)
    requires t < |masks| && Reached(reachable, order) && Ordered(masks, order)
    ensures Reached(more, longer) && Ordered(masks, longer) && order <= longer
    ensures (forall d: nat :: Bit(masks[t], d) ==> d in order) ==> t in longer
  {
    more, longer := reachable, order;
    TestIff(reachable, t);
    SubsetIff(masks[t], reachable);
    if And(reachable, Pow2(t)) == 0 && And(masks[t], reachable) == masks[t] {
      MoreReached(reachable, order, t);
      MoreOrdered(masks, order, t);
      more, longer := Or(reachable, Pow2(t)), order + [t];
    }
  }

  /** One pass over the tasks brings the next task of any order within reach. */
  method Pass(masks: seq<nat>, reachable: nat, ghost order: seq<nat>, ghost goal: seq<nat>, ghost n: nat)
    returns (more: nat, ghost longer: seq<nat>)
    requires Reached(reachable, order) && Ordered(masks, order)
    requires Ordered(masks, goal) && Behind(goal, n, order)
    ensures Reached(more, longer) && Ordered(masks, longer) && order <= longer && Behind(goal, n + 1, longer)
  {
    more, longer := reachable, order;
    var t := 0;
    while t < |masks|
      invariant t <= |masks| && Reached(more, longer) && Ordered(masks, longer) && order <= longer
      invariant n < |goal| && goal[n] < t ==> goal[n] in longer
    {
      ghost var before := longer;
      more, longer := Visit(masks, t, more, longer);
      if n < |goal| && goal[n] == t { NextInReach(masks, goal, n, order, before); }
      t := t + 1;
    }
    forall k | 0 <= k < n + 1 && k < |goal| ensures goal[k] in longer {
      if k < n { assert goal[k] in order; }
    }
  }

  lemma NextInReach(masks: seq<nat>, goal: seq<nat>, n: nat, order: seq<nat>, longer: seq<nat>)
    requires Ordered(masks, goal) && Behind(goal, n, order) && order <= longer && n < |goal| && goal[n] < |masks|
    ensures forall d: nat :: Bit(masks[goal[n]], d) ==> d in longer
  {
    forall d: nat | Bit(masks[goal[n]], d) ensures d in longer {
      assert d in goal[..n];
      var k :| 0 <= k < n && goal[k] == d;
      assert goal[k] in order;
    }
  }

  /** As many passes as there are tasks reach everything any order reaches. */
  method Walk(masks: seq<nat>, ghost goal: seq<nat>) returns (reachable: nat, ghost order: seq<nat>)
    requires Ordered(masks, goal)
    ensures Reached(reachable, order) && Ordered(masks, order) && Behind(goal, |masks|, order)
  {
    reachable, order := 0, [];
    forall t: nat ensures !Bit(0, t) { ZeroBit(t); }
    var pass := 0;
    while pass < |masks|
      invariant pass <= |masks| && Reached(reachable, order) && Ordered(masks, order) && Behind(goal, pass, order)
    {
      reachable, order := Pass(masks, reachable, order, goal, pass);
      pass := pass + 1;
    }
  }

  method CheckRanges(masks: seq<nat>) returns (ok: bool)
    requires |masks| <= MAXIMUM_TASKS && forall t :: 0 <= t < |masks| ==> masks[t] < Pow2(MAXIMUM_TASKS)
    ensures ok <==> MasksInRange(masks)
  {
    hide Pow2, And, Complement;
    AllTasksFits(|masks|);
    var t := 0;
    while t < |masks|
      invariant t <= |masks| && forall u: nat :: u < t ==> InRange(masks[u], |masks|, u)
    {
      MaskInRange(masks, t);
      if And(masks[t], Complement(AllTasks(|masks|), MAXIMUM_TASKS)) != 0 || And(masks[t], Pow2(t)) != 0 {
        return false;
      }
      t := t + 1;
    }
    return true;
  }

  lemma AllTasksFits(n: nat)
    requires n <= MAXIMUM_TASKS
    ensures AllTasks(n) < Pow2(MAXIMUM_TASKS)
  {
    hide Pow2;
    if n < MAXIMUM_TASKS { PowLess(n, MAXIMUM_TASKS); }
  }

  lemma {:induction false} MaskInRange(masks: seq<nat>, t: nat)
    requires t < |masks| <= MAXIMUM_TASKS && masks[t] < Pow2(MAXIMUM_TASKS) && AllTasks(|masks|) < Pow2(MAXIMUM_TASKS)
    ensures And(masks[t], Complement(AllTasks(|masks|), MAXIMUM_TASKS)) == 0 && And(masks[t], Pow2(t)) == 0 <==>
            InRange(masks[t], |masks|, t)
  {
    hide Pow2, And, Complement, AllTasks;
    var m, outside := masks[t], Complement(AllTasks(|masks|), MAXIMUM_TASKS);
    TestIff(m, t);
    forall d: nat ensures Bit(And(m, outside), d) <==> Bit(m, d) && d >= |masks| {
      AndBit(m, outside, d);
      ComplementBit(AllTasks(|masks|), MAXIMUM_TASKS, d);
      AllTasksBit(|masks|, d);
      if d >= MAXIMUM_TASKS { HighBit(m, MAXIMUM_TASKS, d); }
    }
    forall d: nat ensures !Bit(0, d) { ZeroBit(d); }
    if InRange(m, |masks|, t) {
      SameBits(And(m, outside), 0);
    }
    if And(m, outside) == 0 && And(m, Pow2(t)) == 0 {
      forall d: nat | Bit(m, d) ensures d < |masks| && d != t {
        assert Bit(And(m, outside), d) <==> d >= |masks|;
      }
    }
  }

  /** The validation of one program's masks: it accepts if and only if every mask is in
      range and the tasks can be put in an order that respects all masks, so no cycle ever
      reaches the workers and no program without one is refused. */
  method Validate(masks: seq<nat>) returns (ok: bool)
    requires 0 < |masks| <= MAXIMUM_TASKS && forall t :: 0 <= t < |masks| ==> masks[t] < Pow2(MAXIMUM_TASKS)
    ensures ok <==> MasksInRange(masks) && CanBeOrdered(masks)
  {
    hide Pow2, Ordered;
    ok := CheckRanges(masks);
    if !ok {
      return;
    }
    ghost var goal := Shortest(masks);
    var reachable, order := Walk(masks, goal);
    Complete(masks, reachable, order, goal);
    ok := reachable == AllTasks(|masks|);
  }

  /** An order to aim for, if there is one: at most one entry per task. */
  ghost function Shortest(masks: seq<nat>): (r: seq<nat>)
    ensures Ordered(masks, r)
    ensures CanBeOrdered(masks) ==> forall t: nat :: t < |masks| ==> t in r
  {
    if CanBeOrdered(masks) then
      var order: seq<nat> :| Ordered(masks, order) && forall t: nat :: t < |masks| ==> t in order;
      order
    else []
  }

  /** Numbers below `n`, all different, are at most `n`. */
  lemma {:induction false} AtMost(s: seq<nat>, n: nat)
    requires (forall k :: 0 <= k < |s| ==> s[k] < n) && (forall j, k :: 0 <= j < k < |s| ==> s[j] != s[k])
    ensures |s| <= n
    decreases n
  {
    if s != [] {
      assert s[0] < n;
      if n - 1 in s {
        var k :| 0 <= k < |s| && s[k] == n - 1;
        AtMost(s[..k] + s[k + 1..], n - 1);
      } else {
        AtMost(s, n - 1);
      }
    }
  }

  lemma Complete(masks: seq<nat>, reachable: nat, order: seq<nat>, goal: seq<nat>)
    requires Reached(reachable, order) && Ordered(masks, order) && Ordered(masks, goal) && Behind(goal, |masks|, order)
    requires CanBeOrdered(masks) ==> forall t: nat :: t < |masks| ==> t in goal
    ensures reachable == AllTasks(|masks|) <==> CanBeOrdered(masks)
  {
    hide AllTasks;
    AtMost(goal, |masks|);
    forall t: nat ensures Bit(AllTasks(|masks|), t) <==> t < |masks| {
      AllTasksBit(|masks|, t);
    }
    if CanBeOrdered(masks) {
      forall t: nat ensures Bit(reachable, t) <==> Bit(AllTasks(|masks|), t) {
        if t < |masks| {
          assert t in goal;
          var k :| 0 <= k < |goal| && goal[k] == t;
          assert goal[k] in order;
        } else {
          assert t !in order;
        }
      }
      SameBits(reachable, AllTasks(|masks|));
    }
    if reachable == AllTasks(|masks|) {
      forall t: nat | t < |masks| ensures t in order {
        assert Bit(reachable, t) <==> t in order;
        assert Bit(AllTasks(|masks|), t);
      }
    }
  }
}
