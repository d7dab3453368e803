/** What a caller of the manifest parser may rely on: where kernel arguments lie in the
    kernarg block, and where the wrapping range check lets one through. */
module ManifestArguments {
  import opened ManifestText
  import opened ManifestParser
  import opened ManifestWriter
  import opened ManifestRoundTrip

  /** Half the range of a 64-bit size. */
  const HALF: nat := 0x8000_0000_0000_0000

  predicate Inside(a: Argument, kernargSize: nat) {
    a.offset + a.size <= kernargSize
  }

  /** An accepted argument ends inside the block if and only if its end does not wrap. */
  lemma InsideIff(args: seq<Argument>, i: nat, kernargSize: nat)
    requires i < |args| && ArgumentOk(args, i, kernargSize) && kernargSize < SIZE_LIMIT
    ensures Inside(args[i], kernargSize) <==> args[i].offset + args[i].size < SIZE_LIMIT
  {
  }

  function Overrun(): Argument {
    Argument("a", "u8", HALF, HALF, false)
  }

  ghost predicate AllInside(kernargSize: nat) {
    forall args: seq<Argument>, i: nat :: i < |args| && ArgumentOk(args, i, kernargSize) ==>
      Inside(args[i], kernargSize)
  }

  /** The check keeps all arguments inside the block if and only if the block has at most
      2^63 bytes. */
  lemma AllInsideIff(kernargSize: nat)
    requires 0 < kernargSize < SIZE_LIMIT
    ensures AllInside(kernargSize) <==> kernargSize <= HALF
  {
    if kernargSize > HALF {
      assert ArgumentOk([Overrun()], 0, kernargSize) && !Inside([Overrun()][0], kernargSize);
    }
  }

  // ---------------------------------------------------------- through the parser

  /** Kernels of a parsed manifest. */
  ghost predicate Sound(k: Kernel) {
    KernelOk(k) && k.kernargSize < SIZE_LIMIT
  }

  lemma ParsedKernel(text: string, begin: nat, end: nat)
    requires end <= |text| && ParseKernel(text, begin, end).Ok?
    ensures Sound(ParseKernel(text, begin, end).value)
  {
    hide KernelOk, ReadString, ReadOptionalSize, ReadU32Array, ReadGridString, ParseGrid, ReadArgs, FindField;
  }

  lemma {:induction false} ParsedFrom(text: string, p: nat, before: seq<Kernel>)
    requires p <= |text| && KernelsFrom(text, p, before).Ok? && (forall k :: k in before ==> Sound(k))
    ensures forall k :: k in KernelsFrom(text, p, before).value ==> Sound(k)
    decreases |text| - p
  {
    hide ParseKernel, MatchingBrace, NextElement, FreshName, Sound;
    if text[p] != ']' {
      var end := MatchingBrace(text, p).value;
      var k := ParseKernel(text, p, end).value;
      ParsedKernel(text, p, end);
      ParsedFrom(text, NextElement(text, end, |text|).value, before + [k]);
    }
  }

  /** Whatever the text, the arguments of an accepted kernel have distinct names and start
      in increasing order inside the block; they also end inside it unless their end wraps,
      which needs a block of more than 2^63 bytes. */
  lemma ParsedArguments(text: string, k: Kernel, i: nat)
    requires Parse(text).Ok? && k in Parse(text).value.kernels && i < |k.args|
    ensures k.args[i].offset < k.kernargSize && k.args[i].size > 0
    ensures forall j :: 0 <= j < i ==> k.args[j].offset < k.args[i].offset && k.args[j].name != k.args[i].name
    ensures Inside(k.args[i], k.kernargSize) <==> k.args[i].offset + k.args[i].size < SIZE_LIMIT
    ensures k.kernargSize <= HALF ==> Inside(k.args[i], k.kernargSize)
  {
    hide FindField, KernelsFrom, MatchingBrace, ReadString, ReadVersion, PathOk;
    var begin := SkipSpace(text, 0, |text|);
    var end := MatchingBrace(text, begin).value;
    ParsedFrom(text, SkipSpace(text, FieldAt(text, "kernels", begin, end).value + 1, end), []);
    assert ArgumentOk(k.args, i, k.kernargSize);
    forall j | 0 <= j < i ensures k.args[j].offset < k.args[i].offset { Increasing(k.args, k.kernargSize, j, i); }
    InsideIff(k.args, i, k.kernargSize);
  }

  lemma {:induction false} Increasing(args: seq<Argument>, kernargSize: nat, j: nat, i: nat)
    requires ArgumentsOk(args, kernargSize) && j < i < |args|
    ensures args[j].offset < args[i].offset
    decreases i
  {
    assert ArgumentOk(args, i, kernargSize);
    if j < i - 1 { Increasing(args, kernargSize, j, i - 1); }
  }

  function OverrunKernel(kernargSize: nat): Kernel {
    Kernel("k", "k", "k.co", kernargSize, 0, 0, [1, 1, 1], 1, 1, [Overrun()])
  }

  /** Every block size above 2^63 occurs: a manifest the parser accepts, with an argument
      that ends outside its block. */
  lemma OverrunParses(kernargSize: nat)
    requires HALF < kernargSize < SIZE_LIMIT
    ensures AllPrintable([Entry(OverrunKernel(kernargSize), Str(""))])
    ensures Parse(WriteManifest("gfx", [Entry(OverrunKernel(kernargSize), Str(""))]))
         == Ok(Manifest(1, "gfx", [OverrunKernel(kernargSize)]))
    ensures !Inside(OverrunKernel(kernargSize).args[0], kernargSize)
  {
    hide Parse, WriteManifest;
    var k := OverrunKernel(kernargSize);
    var e := Entry(k, Str(""));
    assert KernelOk(k) by { OverrunOk(kernargSize); }
    assert PrintableArguments([Overrun()]) by { assert [Overrun()][1..] == []; }
    assert Printable(e) && [e][1..] == [];
    RoundTrip("gfx", [e]);
    assert Kernels([e]) == [k];
  }

  lemma OverrunOk(kernargSize: nat)
    requires HALF < kernargSize < SIZE_LIMIT
    ensures KernelOk(OverrunKernel(kernargSize))
  {
    assert Find("k.co", '/', 0).None?;
    assert ArgumentOk([Overrun()], 0, kernargSize);
  }
}
