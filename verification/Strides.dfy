/** Strided loops: which of several loops visits an offset. */
module Strides {

  lemma Multiple(d: int, n: int)
    requires n > 0
    ensures d > 0 ==> d * n >= n
    ensures d < 0 ==> d * n <= -n
  {
  }

  /** Quotient and remainder are unique. */
  lemma Divide(a: nat, n: nat, r: nat, q: nat)
    requires r < n
    ensures a == r + q * n <==> q == a / n && r == a % n
  {
    assert a == n * (a / n) + a % n;
    if a == r + q * n {
      var d := q - a / n;
      assert d * n == a % n - r;
      Multiple(d, n);
    }
  }

  /** The work item whose turn an offset is. */
  function Owner(offset: nat, stride: nat): (r: nat)
    requires stride > 0
    ensures r < stride
  {
    offset % stride
  }

  lemma OwnerNext(offset: nat, stride: nat)
    requires stride > 0
    ensures Owner(offset + stride, stride) == Owner(offset, stride)
    ensures offset < stride ==> Owner(offset, stride) == offset
  {
    Divide(offset + stride, stride, offset % stride, offset / stride + 1);
  }

  lemma OwnerOnce(a: nat, b: nat, stride: nat)
    requires stride > 0 && Owner(a, stride) == Owner(b, stride)
    requires a <= b < a + stride
    ensures a == b
  {
    var d: int := b / stride - a / stride;
    assert b - a == d * stride;
    Multiple(d, stride);
  }
}
