/** Shared by the backends. */
module Common {

  datatype Option<+T> = None | Some(value: T)

  /** Replace an entry by the last one: how the runtime takes entries off its pending lists. */
  function SwapRemove<T>(s: seq<T>, i: nat): (r: seq<T>)
    requires i < |s|
    ensures |r| == |s| - 1
    ensures forall x :: x in r ==> x in s
    ensures forall k :: 0 <= k < |r| ==> r[k] == if k == i then s[|s| - 1] else s[k]
  {
    if i + 1 == |s| then s[..i] else s[i := s[|s| - 1]][..|s| - 1]
  }

  predicate Distinct(s: seq<nat>) {
    forall i, j :: 0 <= i < j < |s| ==> s[i] != s[j]
  }

  function IndexOf(s: seq<nat>, e: nat): (i: nat)
    requires e in s
    ensures i < |s| && s[i] == e
  {
    if s[0] == e then 0 else 1 + IndexOf(s[1..], e)
  }

  /** Take an event off a pending list: find it, replace it by the last one. */
  function DropEvent(events: seq<nat>, e: nat): seq<nat> {
    if e in events then
      var i := IndexOf(events, e);
      SwapRemove(events, i)
    else events
  }

  lemma Dropped(pe: seq<nat>, e: nat)
    requires Distinct(pe)
    ensures Distinct(DropEvent(pe, e))
    ensures forall x :: x in DropEvent(pe, e) <==> x in pe && x != e
  {
  }
}
