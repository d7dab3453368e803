/** Which kernels the manifest parser lets through, said about the parsed values alone: a code
    object stays inside its bundle, and nothing the loader needs is missing. */
module ManifestPaths {
  import opened Common
  import opened ManifestText
  import opened ManifestParser

  // ------------------------------------------------------------- parent components

  /** The characters from i to j are a whole component of the path, and it is `..`. */
  predicate ParentAt(path: string, i: nat, j: nat) {
    && i <= j <= |path| && path[i..j] == ".."
    && (i == 0 || path[i - 1] == '/')
    && (j == |path| || path[j] == '/')
  }

  ghost predicate HasParentComponent(path: string) {
    exists i: nat, j: nat :: ParentAt(path, i, j)
  }

  lemma {:induction false} FirstSlash(s: string, i: nat)
    requires i <= |s|
    ensures var r := Find(s, '/', i);
            && (r.Some? ==> s[r.value] == '/' && forall k :: i <= k < r.value ==> s[k] != '/')
            && (r.None? ==> forall k :: i <= k < |s| ==> s[k] != '/')
    decreases |s| - i
  {
    if i < |s| && s[i] != '/' { FirstSlash(s, i + 1); }
  }

  lemma ParentShifted(path: string, k: nat, i: nat, j: nat)
    requires k < |path| && path[k] == '/'
    ensures ParentAt(path[k + 1..], i, j) <==> ParentAt(path, k + 1 + i, k + 1 + j)
  {
    if i <= j <= |path[k + 1..]| {
      assert path[k + 1..][i..j] == path[k + 1 + i..k + 1 + j];
    }
  }

  /** A parent component before the first slash is everything before it. */
  lemma ParentFirst(path: string, k: nat)
    requires k < |path| && path[k] == '/' && forall x :: 0 <= x < k ==> path[x] != '/'
    ensures path[..k] == ".." <==> exists j: nat :: ParentAt(path, 0, j)
  {
    if path[..k] == ".." {
      assert path[0..k] == path[..k];
      assert ParentAt(path, 0, k);
    }
    if j: nat :| ParentAt(path, 0, j) {
      assert path[0..j][0] == '.' && path[0..j][1] == '.';
      assert k >= 2 by { assert path[0] == '.' && path[1] == '.'; }
      assert j == 2 && path[..k] == path[0..2];
    }
  }

  /** The loop finds a parent component if and only if the path has one. */
  lemma {:induction false} HasParentIff(path: string)
    ensures HasParent(path) <==> HasParentComponent(path)
    decreases |path|
  {
    FirstSlash(path, 0);
    var slash := Find(path, '/', 0);
    if slash.None? {
      NoSlash(path);
    } else {
      var k := slash.value;
      var rest := path[k + 1..];
      HasParentIff(rest);
      ParentFirst(path, k);
      if HasParentComponent(rest) {
        var i: nat, j: nat :| ParentAt(rest, i, j);
        ParentShifted(path, k, i, j);
      }
      if i: nat, j: nat :| ParentAt(path, i, j) && i > 0 {
        assert i - 1 >= k;
        ParentShifted(path, k, i - k - 1, j - k - 1);
      }
    }
  }

  lemma NoSlash(path: string)
    requires forall x :: 0 <= x < |path| ==> path[x] != '/'
    ensures path == ".." <==> HasParentComponent(path)
  {
    if path == ".." {
      assert path[0..2] == path;
      assert ParentAt(path, 0, 2);
    }
    if i: nat, j: nat :| ParentAt(path, i, j) {
      assert i == 0 && j == |path|;
      assert path[0..|path|] == path;
    }
  }

  // ------------------------------------------------------------- accepted kernels

  /** A code object that stays in the bundle. */
  ghost predicate InBundle(path: string) {
    path != "" && path[0] != '/' && !HasParentComponent(path)
  }

  /** The argument is named and typed and has its bytes in the block; the end is taken modulo
      2^64, as the loader adds sizes. */
  ghost predicate Placed(a: Argument, size: nat) {
    && a.name != "" && a.kind != "" && 0 < a.size <= size && a.offset < size
    && (a.offset + a.size) % 0x1_0000_0000_0000_0000 <= size
  }

  /** The arguments come in the order of their offsets, and no two share a name. */
  ghost predicate Laid(args: seq<Argument>, size: nat) {
    && (forall i :: 0 <= i < |args| ==> Placed(args[i], size))
    && forall i, j :: 0 <= i < j < |args| ==> args[i].offset < args[j].offset && args[i].name != args[j].name
  }

  lemma {:induction false} Increasing(args: seq<Argument>, size: nat, i: nat, j: nat)
    requires ArgumentsOk(args, size) && i < j < |args|
    ensures args[i].offset < args[j].offset
    decreases j
  {
    assert ArgumentOk(args, j, size);
    if i < j - 1 { Increasing(args, size, i, j - 1); }
  }

  lemma LaidIff(args: seq<Argument>, size: nat)
    ensures ArgumentsOk(args, size) <==> Laid(args, size)
  {
    if ArgumentsOk(args, size) { ArgumentsLaid(args, size); }
    if Laid(args, size) {
      forall i | 0 <= i < |args| ensures ArgumentOk(args, i, size) { LaidArgument(args, size, i); }
    }
  }

  lemma ArgumentsLaid(args: seq<Argument>, size: nat)
    requires ArgumentsOk(args, size)
    ensures Laid(args, size)
  {
    forall i, j | 0 <= i < j < |args| ensures args[i].offset < args[j].offset && args[i].name != args[j].name {
      Increasing(args, size, i, j);
      assert ArgumentOk(args, j, size);
    }
    forall i | 0 <= i < |args| ensures Placed(args[i], size) { assert ArgumentOk(args, i, size); }
  }

  lemma LaidArgument(args: seq<Argument>, size: nat, i: nat)
    requires Laid(args, size) && i < |args|
    ensures ArgumentOk(args, i, size)
  {
  }

  /** What makes a kernel usable, without the parser's own words. */
  ghost predicate Usable(k: Kernel) {
    && InBundle(k.codeObject)
    && k.name != "" && k.symbol != "" && k.kernargSize > 0 && k.sharedMemory <= 0xFFFF_FFFF
    && |k.block| == 3 && (forall i :: 0 <= i < 3 ==> k.block[i] > 0)
    && k.gridDivisor > 0 && k.gridMultiplier > 0
    && Laid(k.args, k.kernargSize)
  }

  /** A kernel is accepted if and only if it is usable. */
  lemma AcceptedIff(k: Kernel)
    ensures KernelOk(k) <==> Usable(k)
  {
    hide HasParent, HasParentComponent, ArgumentsOk, Laid;
    HasParentIff(k.codeObject);
    LaidIff(k.args, k.kernargSize);
  }

  /** A kernel object without the optional fields needs no shared memory and no workspace. */
  lemma OptionalFields(text: string, begin: nat, end: nat)
    requires end <= |text| && ParseKernel(text, begin, end).Ok?
    ensures FindField(text, "shared_memory_bytes", begin, end) == Ok(None) ==>
      ParseKernel(text, begin, end).value.sharedMemory == 0
    ensures FindField(text, "workspace_bytes", begin, end) == Ok(None) ==>
      ParseKernel(text, begin, end).value.workspace == 0
  {
    hide FindField, ReadString, ReadSize, ReadU32Array, ReadGridString, ParseGrid, ReadArgs, KernelOk, ReadSizeAt;
  }

  predicate DistinctNames(ks: seq<Kernel>) {
    forall i, j :: 0 <= i < j < |ks| ==> ks[i].name != ks[j].name
  }

  lemma {:induction false} UsableFrom(text: string, p: nat, before: seq<Kernel>)
    requires p <= |text| && KernelsFrom(text, p, before).Ok?
    requires (forall k :: k in before ==> Usable(k)) && DistinctNames(before)
    ensures var r := KernelsFrom(text, p, before).value;
            r != [] && (forall k :: k in r ==> Usable(k)) && DistinctNames(r)
    decreases |text| - p
  {
    hide ParseKernel, MatchingBrace, NextElement, KernelOk, Usable, ArgumentsOk;
    if text[p] != ']' {
      var end := MatchingBrace(text, p).value;
      var k := ParseKernel(text, p, end).value;
      AcceptedIff(k);
      UsableFrom(text, NextElement(text, end, |text|).value, before + [k]);
    }
  }

  /** Whatever the text: an accepted manifest has version one, a target and at least one
      kernel, all kernels have different names, and each is usable; in particular its code
      object is a relative path that never leaves the bundle. */
  lemma ParsedKernels(text: string)
    requires Parse(text).Ok?
    ensures var m := Parse(text).value;
            && m.version == 1 && m.target != "" && m.kernels != [] && DistinctNames(m.kernels)
            && forall k :: k in m.kernels ==> Usable(k) && InBundle(k.codeObject)
  {
    hide FindField, KernelsFrom, MatchingBrace, ReadString, ReadVersion, Usable;
    var begin := SkipSpace(text, 0, |text|);
    var end := MatchingBrace(text, begin).value;
    UsableFrom(text, SkipSpace(text, FieldAt(text, "kernels", begin, end).value + 1, end), []);
    forall k | k in Parse(text).value.kernels ensures InBundle(k.codeObject) { UsableInside(k); }
  }

  lemma UsableInside(k: Kernel)
    requires Usable(k)
    ensures InBundle(k.codeObject)
  {
  }
}
