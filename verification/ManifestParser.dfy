/** The bundle manifest parser, function by function. */
module ManifestParser {
  import opened Common
  import opened ManifestText

  const UINT32_MAX: nat := 0xFFFF_FFFF
  const SIZE_LIMIT: nat := 0x1_0000_0000_0000_0000

  datatype Argument = Argument(name: string, kind: string, offset: nat, size: nat, optional: bool)

  datatype Kernel = Kernel(
    name: string, symbol: string, codeObject: string, kernargSize: nat, sharedMemory: nat, workspace: nat,
    block: seq<nat>, gridDivisor: nat, gridMultiplier: nat, args: seq<Argument>)

  datatype Manifest = Manifest(version: nat, target: string, kernels: seq<Kernel>)

  // ------------------------------------------------------------- fields

  function FieldAt(text: string, field: string, begin: nat, end: nat): (r: Result<nat>)
    requires end <= |text|
    ensures r.Ok? ==> r.value <= end
  {
    var found :- FindField(text, field, begin, end);
    if found.None? then Error else Ok(found.value)
  }

  /** The closing quote of a string without escapes. */
  function PlainEnd(text: string, i: nat, limit: nat): (r: Result<nat>)
    requires i <= limit <= |text|
    ensures r.Ok? ==> i <= r.value < limit
    decreases limit - i
  {
    if i == limit then Error
    else if text[i] == '"' then Ok(i)
    else if text[i] == '\\' then Error
    else PlainEnd(text, i + 1, limit)
  }

  function ReadString(text: string, field: string, from: nat, limit: nat): Result<string>
    requires limit <= |text|
  {
    var q :- FieldAt(text, field, from, limit);
    if q >= limit || text[q] != '"' then Error
    else
      var end :- PlainEnd(text, q + 1, limit);
      Ok(text[q + 1..end])
  }

  predicate IsDigit(c: char) {
    '0' <= c <= '9'
  }

  function DigitsEnd(text: string, i: nat, limit: nat): (r: nat)
    requires i <= limit <= |text|
    ensures i <= r <= limit
    ensures forall k :: i <= k < r ==> IsDigit(text[k])
    decreases limit - i
  {
    if i < limit && IsDigit(text[i]) then DigitsEnd(text, i + 1, limit) else i
  }

  function DigitValue(c: char): (r: nat)
    requires IsDigit(c)
    ensures r < 10
  {
    c as int - '0' as int
  }

  function Decimal(s: string): nat
    requires forall i :: 0 <= i < |s| ==> IsDigit(s[i])
  {
    if s == "" then 0 else 10 * Decimal(s[..|s| - 1]) + DigitValue(s[|s| - 1])
  }

  predicate EndsInteger(c: char) {
    IsSpace(c) || c == ',' || c == ']' || c == '}'
  }

  function ReadSizeAt(text: string, p: nat, limit: nat): (r: Result<nat>)
    requires p <= limit <= |text|
    ensures r.Ok? ==> r.value < SIZE_LIMIT
  {
    var end := DigitsEnd(text, p, limit);
    if end == p || (end < limit && !EndsInteger(text[end])) then Error
    else
      var value := Decimal(text[p..end]);
      if value < SIZE_LIMIT then Ok(value) else Error
  }

  function ReadSize(text: string, field: string, from: nat, limit: nat): (r: Result<nat>)
    requires limit <= |text|
    ensures r.Ok? ==> r.value < SIZE_LIMIT
  {
    var q :- FieldAt(text, field, from, limit);
    ReadSizeAt(text, q, limit)
  }

  function ReadOptionalSize(text: string, field: string, from: nat, limit: nat, default: nat): Result<nat>
    requires limit <= |text|
  {
    var found :- FindField(text, field, from, limit);
    if found.None? then Ok(default) else ReadSizeAt(text, found.value, limit)
  }

  function Prefix(text: string, p: nat, n: nat): string
    requires p <= |text|
  {
    if p + n <= |text| then text[p..p + n] else text[p..]
  }

  function ReadOptionalBool(text: string, field: string, from: nat, limit: nat): Result<bool>
    requires limit <= |text|
  {
    var found :- FindField(text, field, from, limit);
    if found.None? then Ok(false)
    else if Prefix(text, found.value, 4) == "true" then Ok(true)
    else if Prefix(text, found.value, 5) == "false" then Ok(false)
    else Error
  }

  function ReadU32At(text: string, p: nat, limit: nat): Result<nat>
    requires p <= limit <= |text|
  {
    var value :- ReadSizeAt(text, p, limit);
    if value > UINT32_MAX then Error else Ok(value)
  }

  /** The character at the cursor, if it is before the limit. */
  predicate Sees(text: string, p: nat, limit: nat, c: char)
    requires limit <= |text|
  {
    p < limit && text[p] == c
  }

  /** An element of an integer array, with the space around it. */
  function ReadElement(text: string, p: nat, limit: nat): (r: Result<(nat, nat)>)
    requires p <= limit <= |text|
    ensures r.Ok? ==> r.value.1 <= limit
  {
    var q := SkipSpace(text, p, limit);
    var value :- ReadU32At(text, q, limit);
    Ok((value, SkipSpace(text, DigitsEnd(text, q, limit), limit)))
  }

  /** The three elements from the opening bracket on. */
  function ReadThree(text: string, q: nat, limit: nat): Result<seq<nat>>
    requires limit <= |text|
  {
    if !Sees(text, q, limit, '[') then Error
    else
      var x :- ReadElement(text, q + 1, limit);
      if !Sees(text, x.1, limit, ',') then Error
      else
        var y :- ReadElement(text, x.1 + 1, limit);
        if !Sees(text, y.1, limit, ',') then Error
        else
          var z :- ReadElement(text, y.1 + 1, limit);
          if !Sees(text, z.1, limit, ']') then Error else Ok([x.0, y.0, z.0])
  }

  function ReadU32Array(text: string, field: string, from: nat, limit: nat): Result<seq<nat>>
    requires limit <= |text|
  {
    var q :- FieldAt(text, field, from, limit);
    ReadThree(text, q, limit)
  }

  // ------------------------------------------------------------- the grid expression

  function Find(s: string, c: char, i: nat): (r: Option<nat>)
    requires i <= |s|
    ensures r.Some? ==> i <= r.value < |s|
    decreases |s| - i
  {
    if i == |s| then None else if s[i] == c then Some(i) else Find(s, c, i + 1)
  }

  /** The y and z dimensions after the expression: both must be 1. */
  predicate OnesFollow(text: string, comma: nat, limit: nat)
    requires limit <= |text|
  {
    && Sees(text, comma, limit, ',')
    && var y := ReadElement(text, comma + 1, limit);
    && y.Ok? && y.value.0 == 1 && Sees(text, y.value.1, limit, ',')
    && var z := ReadElement(text, y.value.1 + 1, limit);
    && z.Ok? && z.value.0 == 1 && Sees(text, z.value.1, limit, ']')
  }

  function ReadGridString(text: string, from: nat, limit: nat): Result<string>
    requires limit <= |text|
  {
    var q :- FieldAt(text, "grid", from, limit);
    if !Sees(text, q, limit, '[') then Error
    else
      var open := SkipSpace(text, q + 1, limit);
      if !Sees(text, open, limit, '"') then Error
      else
        var close := Find(text, '"', open + 1);
        if close.None? || close.value >= limit then Error
        else if OnesFollow(text, SkipSpace(text, close.value + 1, limit), limit) then Ok(text[open + 1..close.value])
        else Error
  }

  function SkipBlanks(s: string, i: nat): (r: nat)
    requires i <= |s|
    ensures i <= r <= |s|
    decreases |s| - i
  {
    if i < |s| && s[i] == ' ' then SkipBlanks(s, i + 1) else i
  }

  function DropBlanks(s: string): (r: string)
    ensures |r| <= |s|
  {
    if |s| > 0 && s[|s| - 1] == ' ' then DropBlanks(s[..|s| - 1]) else s
  }

  function ParseGridInteger(s: string): Result<nat> {
    var t := DropBlanks(s[SkipBlanks(s, 0)..]);
    if t == "" || exists i :: 0 <= i < |t| && !IsDigit(t[i]) then Error
    else if Decimal(t) > UINT32_MAX then Error
    else Ok(Decimal(t))
  }

  const GRID_PREFIX: string := "ceil_div(n, "

  function ParseGrid(expr: string): Result<(nat, nat)> {
    if |expr| < |GRID_PREFIX| || expr[..|GRID_PREFIX|] != GRID_PREFIX then Error
    else
      var close := Find(expr, ')', |GRID_PREFIX|);
      if close.None? then Error
      else
        var star := SkipBlanks(expr, close.value + 1);
        if star >= |expr| || expr[star] != '*' then Error
        else
          var divisor :- ParseGridInteger(expr[|GRID_PREFIX|..close.value]);
          var multiplier :- ParseGridInteger(expr[SkipBlanks(expr, star + 1)..]);
          Ok((divisor, multiplier))
  }

  // ------------------------------------------------------------- arguments

  function ReadArgument(text: string, begin: nat, end: nat): Result<Argument>
    requires end <= |text|
  {
    var name :- ReadString(text, "name", begin, end);
    var kind :- ReadString(text, "type", begin, end);
    var offset :- ReadSize(text, "offset", begin, end);
    var size :- ReadSize(text, "size", begin, end);
    var optional :- ReadOptionalBool(text, "optional", begin, end);
    Ok(Argument(name, kind, offset, size, optional))
  }

  /** From the cursor after an array element to the next one, or to the closing bracket. */
  function NextElement(text: string, p: nat, limit: nat): (r: Result<nat>)
    requires p <= limit <= |text|
    ensures r.Ok? ==> p <= r.value < limit
  {
    var q := SkipSpace(text, p, limit);
    if Sees(text, q, limit, ',') then
      var next := SkipSpace(text, q + 1, limit);
      if next >= limit || text[next] == ']' then Error else Ok(next)
    else if Sees(text, q, limit, ']') then Ok(q)
    else Error
  }

  /** The loop over the objects of an argument array. The brace scan is not limited by the
      enclosing object. */
  function ReadArgsFrom(text: string, p: nat, limit: nat): Result<seq<Argument>>
    requires p <= limit <= |text|
    decreases limit - p
  {
    if p >= limit || text[p] == ']' then Ok([])
    else if text[p] != '{' then Error
    else
      var end :- MatchingBrace(text, p);
      var arg :- ReadArgument(text, p, end);
      if end > limit then Error
      else
        var next :- NextElement(text, end, limit);
        var rest :- ReadArgsFrom(text, next, limit);
        Ok([arg] + rest)
  }

  function ReadArgs(text: string, from: nat, limit: nat): Result<seq<Argument>>
    requires limit <= |text|
  {
    var q :- FieldAt(text, "args", from, limit);
    if !Sees(text, q, limit, '[') then Error
    else
      var args :- ReadArgsFrom(text, SkipSpace(text, q + 1, limit), limit);
      if args == [] then Error else Ok(args)
  }

  /** One argument against the kernarg size and the arguments before it; the sum wraps as a
      64-bit size does. */
  predicate ArgumentOk(args: seq<Argument>, i: nat, kernargSize: nat)
    requires i < |args|
  {
    var a := args[i];
    && a.name != "" && a.kind != "" && a.size != 0
    && a.offset < kernargSize && a.size <= kernargSize && (a.offset + a.size) % SIZE_LIMIT <= kernargSize
    && (i > 0 ==> args[i - 1].offset < a.offset)
    && forall j :: 0 <= j < i ==> args[j].name != a.name
  }

  predicate ArgumentsOk(args: seq<Argument>, kernargSize: nat) {
    forall i :: 0 <= i < |args| ==> ArgumentOk(args, i, kernargSize)
  }

  // ------------------------------------------------------------- kernels

  predicate HasParent(path: string)
    decreases |path|
  {
    var slash := Find(path, '/', 0);
    if slash.None? then path == ".."
    else path[..slash.value] == ".." || HasParent(path[slash.value + 1..])
  }

  /** A code object stays in the bundle. */
  predicate PathOk(path: string) {
    path != "" && path[0] != '/' && !HasParent(path)
  }

  predicate KernelOk(k: Kernel) {
    && PathOk(k.codeObject) && k.sharedMemory <= UINT32_MAX && ArgumentsOk(k.args, k.kernargSize)
    && k.name != "" && k.symbol != "" && k.kernargSize != 0
    && |k.block| == 3 && k.block[0] != 0 && k.block[1] != 0 && k.block[2] != 0
    && k.gridDivisor != 0 && k.gridMultiplier != 0
  }

  function ParseKernel(text: string, begin: nat, end: nat): (r: Result<Kernel>)
    requires end <= |text|
    ensures r.Ok? ==> KernelOk(r.value)
  {
    var name :- ReadString(text, "name", begin, end);
    var symbol :- ReadString(text, "symbol", begin, end);
    var codeObject :- ReadString(text, "code_object", begin, end);
    var kernargSize :- ReadSize(text, "kernarg_size", begin, end);
    var shared :- ReadOptionalSize(text, "shared_memory_bytes", begin, end, 0);
    var workspace :- ReadOptionalSize(text, "workspace_bytes", begin, end, 0);
    var block :- ReadU32Array(text, "block", begin, end);
    var expr :- ReadGridString(text, begin, end);
    var grid :- ParseGrid(expr);
    var args :- ReadArgs(text, begin, end);
    var k := Kernel(name, symbol, codeObject, kernargSize, shared, workspace, block, grid.0, grid.1, args);
    if KernelOk(k) then Ok(k) else Error
  }

  predicate FreshName(kernels: seq<Kernel>, name: string) {
    forall i :: 0 <= i < |kernels| ==> kernels[i].name != name
  }

  /** The loop over the kernel objects; it is limited by the text, not by the root object. */
  function KernelsFrom(text: string, p: nat, before: seq<Kernel>): Result<seq<Kernel>>
    requires p <= |text|
    decreases |text| - p
  {
    if p == |text| then Error
    else if text[p] == ']' then if before == [] then Error else Ok(before)
    else if text[p] != '{' then Error
    else
      var end :- MatchingBrace(text, p);
      var k :- ParseKernel(text, p, end);
      if !FreshName(before, k.name) then Error
      else
        var next :- NextElement(text, end, |text|);
        KernelsFrom(text, next, before + [k])
  }

  /** The kernel list of the root object; its first element is looked for inside the root. */
  function ReadKernels(text: string, begin: nat, end: nat): Result<seq<Kernel>>
    requires end <= |text|
  {
    var list :- FieldAt(text, "kernels", begin, end);
    if !Sees(text, list, end, '[') then Error else KernelsFrom(text, SkipSpace(text, list + 1, end), [])
  }

  function ReadVersion(text: string, begin: nat, end: nat): Result<nat>
    requires end <= |text|
  {
    var at :- FieldAt(text, "manifest_version", begin, end);
    ReadU32At(text, at, end)
  }

  function ParseRoot(text: string, begin: nat, end: nat): Result<Manifest>
    requires end <= |text|
  {
    var version :- ReadVersion(text, begin, end);
    if version != 1 then Error
    else
      var target :- ReadString(text, "target", begin, end);
      if target == "" then Error
      else
        var kernels :- ReadKernels(text, begin, end);
        Ok(Manifest(version, target, kernels))
  }

  function Parse(text: string): Result<Manifest> {
    var begin := SkipSpace(text, 0, |text|);
    if begin >= |text| || text[begin] != '{' then Error
    else
      var end :- MatchingBrace(text, begin);
      ParseRoot(text, begin, end)
  }
}
