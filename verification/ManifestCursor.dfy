/** The parser's loops, cursor by cursor, against the functions that say what they find. */
module ManifestCursor {
  import opened Common
  import opened ManifestText
  import opened ManifestParser
  import ManifestPaths

  method ScanSpace(text: string, position: nat, limit: nat) returns (r: nat)
    requires limit <= |text|
    ensures r == SkipSpace(text, position, limit)
  {
    r := position;
    while r < limit && IsSpace(text[r])
      invariant r >= position && SkipSpace(text, r, limit) == SkipSpace(text, position, limit)
      decreases limit - r
    {
      r := r + 1;
    }
  }

  method ScanBrace(text: string, begin: nat) returns (r: Result<nat>)
    requires begin < |text| && text[begin] == '{'
    ensures r == MatchingBrace(text, begin)
  {
    var depth, inString, escaped := 0, false, false;
    var i := begin;
    while i < |text|
      invariant begin <= i <= |text|
      invariant i == begin ==> depth == 0 && !inString && !escaped
      invariant i > begin ==> depth > 0 && BraceEnd(text, i, depth, inString, escaped) == MatchingBrace(text, begin)
      invariant escaped ==> inString
    {
      var value := text[i];
      if inString {
        if escaped {
          escaped := false;
        } else if value == '\\' {
          escaped := true;
        } else if value == '"' {
          inString := false;
        }
      } else if value == '"' {
        inString := true;
      } else if value == '{' {
        depth := depth + 1;
      } else if value == '}' {
        depth := depth - 1;
        if depth == 0 {
          return Ok(i + 1);
        }
      }
      i := i + 1;
    }
    return Error;
  }

  /** The inner loop of the field search. */
  method ScanQuoted(text: string, begin: nat, end: nat) returns (r: nat)
    requires begin <= end <= |text|
    ensures r == StringEnd(text, begin, end, false)
  {
    r := begin;
    var escaped := false;
    while r < end
      invariant begin <= r <= end && StringEnd(text, r, end, escaped) == StringEnd(text, begin, end, false)
    {
      if escaped {
        escaped := false;
      } else if text[r] == '\\' {
        escaped := true;
      } else if text[r] == '"' {
        break;
      }
      r := r + 1;
    }
  }

  method ScanField(text: string, field: string, begin: nat, end: nat) returns (r: Result<Option<nat>>)
    requires end <= |text|
    ensures r == FindField(text, field, begin, end)
  {
    hide SkipSpace, StringEnd;
    if begin >= end || text[begin] != '{' {
      return Error;
    }
    var depth := 0;
    var position := begin + 1;
    while position < end
      invariant begin < position <= end
      invariant FieldFrom(text, field, position, end, depth) == FindField(text, field, begin, end)
    {
      var value := text[position];
      if value == '"' {
        var close := ScanQuoted(text, position + 1, end);
        if close >= end {
          return Error;
        }
        if depth == 0 && text[position + 1..close] == field {
          var colon := ScanSpace(text, close + 1, end);
          if colon < end && text[colon] == ':' {
            var at := ScanSpace(text, colon + 1, end);
            return Ok(Some(at));
          }
        }
        position := close + 1;
        continue;
      }
      if value == '{' || value == '[' {
        depth := depth + 1;
      } else if value == '}' || value == ']' {
        if depth == 0 {
          break;
        }
        depth := depth - 1;
      }
      position := position + 1;
    }
    return Ok(None);
  }

  method ScanString(text: string, field: string, from: nat, limit: nat) returns (r: Result<string>)
    requires limit <= |text|
    ensures r == ReadString(text, field, from, limit)
  {
    var found := ScanField(text, field, from, limit);
    if found.Error? || found.value.None? {
      return Error;
    }
    var position := found.value.value;
    if position >= limit || text[position] != '"' {
      return Error;
    }
    position := position + 1;
    var end := position;
    while end < limit && text[end] != '"'
      invariant position <= end <= limit && PlainEnd(text, end, limit) == PlainEnd(text, position, limit)
    {
      if text[end] == '\\' {
        return Error;
      }
      end := end + 1;
    }
    if end >= limit {
      return Error;
    }
    return Ok(text[position..end]);
  }

  method ScanSize(text: string, position: nat, limit: nat) returns (r: Result<nat>, end: nat)
    requires position <= limit <= |text|
    ensures r == ReadSizeAt(text, position, limit) && end == DigitsEnd(text, position, limit)
  {
    end := position;
    while end < limit && IsDigit(text[end])
      invariant position <= end <= limit && DigitsEnd(text, end, limit) == DigitsEnd(text, position, limit)
    {
      end := end + 1;
    }
    if end == position || (end < limit && !EndsInteger(text[end])) {
      return Error, end;
    }
    var value := Decimal(text[position..end]);
    return if value < SIZE_LIMIT then Ok(value) else Error, end;
  }

  method Trim(s: string) returns (t: string)
    ensures t == DropBlanks(s[SkipBlanks(s, 0)..])
  {
    var begin := 0;
    while begin < |s| && s[begin] == ' '
      invariant begin <= |s| && SkipBlanks(s, begin) == SkipBlanks(s, 0)
    {
      begin := begin + 1;
    }
    var end := |s|;
    assert s[begin..end] == s[begin..];
    while end > begin && s[end - 1] == ' '
      invariant begin <= end <= |s| && DropBlanks(s[begin..end]) == DropBlanks(s[begin..])
    {
      assert s[begin..end][..end - begin - 1] == s[begin..end - 1];
      end := end - 1;
    }
    t := s[begin..end];
  }

  /** The grid integer between its blanks, accumulated digit by digit and refused as soon as
      it passes 32 bits. */
  method ScanGridInteger(s: string) returns (r: Result<nat>)
    ensures r == ParseGridInteger(s)
  {
    hide DropBlanks, SkipBlanks, Decimal;
    var t := Trim(s);
    if t == "" {
      return Error;
    }
    var value, i := 0, 0;
    DecimalStep(t, 0);
    while i < |t|
      invariant i <= |t| && (forall k :: 0 <= k < i ==> IsDigit(t[k])) && value == Decimal(t[..i]) <= UINT32_MAX
    {
      if !IsDigit(t[i]) {
        return Error;
      }
      DecimalStep(t, i);
      value := 10 * value + DigitValue(t[i]);
      if value > UINT32_MAX {
        Grows(t, i + 1);
        return Error;
      }
      i := i + 1;
    }
    assert t[..|t|] == t;
    return Ok(value);
  }

  lemma DecimalStep(t: string, i: nat)
    requires i < |t| && forall k :: 0 <= k < i ==> IsDigit(t[k])
    ensures Decimal(t[..0]) == 0
    ensures IsDigit(t[i]) ==> Decimal(t[..i + 1]) == 10 * Decimal(t[..i]) + DigitValue(t[i])
  {
    assert t[..i + 1][..i] == t[..i];
  }

  /** A longer numeral is no smaller: stopping at the first overflow is safe. */
  lemma {:induction false} Grows(t: string, n: nat)
    requires n <= |t| && forall k :: 0 <= k < n ==> IsDigit(t[k])
    ensures (forall k :: 0 <= k < |t| ==> IsDigit(t[k])) ==> Decimal(t) >= Decimal(t[..n])
    decreases |t|
  {
    if n == |t| {
      assert t[..n] == t;
    } else if forall k :: 0 <= k < |t| ==> IsDigit(t[k]) {
      var u := t[..|t| - 1];
      assert u[..n] == t[..n];
      Grows(u, n);
    }
  }

  method ScanArgs(text: string, from: nat, limit: nat) returns (r: Result<seq<Argument>>)
    requires limit <= |text|
    ensures r == ReadArgs(text, from, limit)
  {
    hide FindField, ReadArgument, MatchingBrace, SkipSpace;
    var found := ScanField(text, "args", from, limit);
    if found.Error? || found.value.None? || found.value.value >= limit || text[found.value.value] != '[' {
      return Error;
    }
    var position := ScanSpace(text, found.value.value + 1, limit);
    ghost var first := position;
    var args: seq<Argument> := [];
    PrependNone(ReadArgsFrom(text, first, limit));
    while position < limit && text[position] != ']'
      invariant first <= position <= limit
      invariant ReadArgsFrom(text, first, limit) == Prepend(args, ReadArgsFrom(text, position, limit))
      decreases limit - position
    {
      if text[position] != '{' {
        return Error;
      }
      var end := ScanBrace(text, position);
      if end.Error? {
        return Error;
      }
      var arg := ReadArgument(text, position, end.value);
      if arg.Error? {
        return Error;
      }
      var q := ScanSpace(text, end.value, limit);
      var next := q;
      if q < limit && text[q] == ',' {
        next := ScanSpace(text, q + 1, limit);
        if next >= limit || text[next] == ']' {
          return Error;
        }
      } else if q >= limit || text[q] != ']' {
        return Error;
      }
      PrependMore(args, arg.value, ReadArgsFrom(text, next, limit));
      args := args + [arg.value];
      position := next;
    }
    assert ReadArgsFrom(text, position, limit) == Ok([]) && args + [] == args;
    if args == [] {
      return Error;
    }
    return Ok(args);
  }

  function Prepend(args: seq<Argument>, rest: Result<seq<Argument>>): Result<seq<Argument>> {
    if rest.Error? then Error else Ok(args + rest.value)
  }

  lemma PrependNone(rest: Result<seq<Argument>>)
    ensures Prepend([], rest) == rest
  {
    if rest.Ok? {
      assert [] + rest.value == rest.value;
    }
  }

  lemma PrependMore(args: seq<Argument>, arg: Argument, rest: Result<seq<Argument>>)
    ensures Prepend(args + [arg], rest) == if rest.Error? then Error else Prepend(args, Ok([arg] + rest.value))
  {
    if rest.Ok? {
      assert args + [arg] + rest.value == args + ([arg] + rest.value);
    }
  }

  method CheckArgs(args: seq<Argument>, kernargSize: nat) returns (ok: bool)
    ensures ok == ArgumentsOk(args, kernargSize)
  {
    var previous, i := 0, 0;
    while i < |args|
      invariant i <= |args| && (i > 0 ==> previous == args[i - 1].offset)
      invariant forall k :: 0 <= k < i ==> ArgumentOk(args, k, kernargSize)
    {
      var arg := args[i];
      if arg.name == "" || arg.kind == "" || arg.size == 0 {
        assert !ArgumentOk(args, i, kernargSize);
        return false;
      }
      if arg.offset >= kernargSize || arg.size > kernargSize || (arg.offset + arg.size) % SIZE_LIMIT > kernargSize {
        assert !ArgumentOk(args, i, kernargSize);
        return false;
      }
      if i > 0 && arg.offset <= previous {
        assert !ArgumentOk(args, i, kernargSize);
        return false;
      }
      var j := 0;
      while j < i
        invariant j <= i && forall k :: 0 <= k < j ==> args[k].name != arg.name
      {
        if args[j].name == arg.name {
          assert !ArgumentOk(args, i, kernargSize);
          return false;
        }
        j := j + 1;
      }
      previous := arg.offset;
      i := i + 1;
    }
    return true;
  }

  method CheckParent(path: string) returns (found: bool)
    ensures found == HasParent(path)
    ensures found <==> exists i: nat, j: nat :: ManifestPaths.ParentAt(path, i, j)
  {
    ManifestPaths.HasParentIff(path);
    var begin := 0;
    assert path[0..] == path;
    while begin <= |path|
      invariant begin <= |path| && HasParent(path[begin..]) == HasParent(path)
      decreases |path| - begin
    {
      var rest := path[begin..];
      var end := Find(rest, '/', 0);
      if end.None? {
        return rest == "..";
      }
      if rest[..end.value] == ".." {
        return true;
      }
      assert path[begin + end.value + 1..] == rest[end.value + 1..];
      begin := begin + end.value + 1;
    }
    return false;
  }

  method ScanKernels(text: string, first: nat) returns (r: Result<seq<Kernel>>)
    requires first <= |text|
    ensures r == KernelsFrom(text, first, [])
  {
    hide ParseKernel, MatchingBrace, SkipSpace;
    var kernels: seq<Kernel> := [];
    var position := first;
    while position < |text| && text[position] != ']'
      invariant first <= position <= |text|
      invariant KernelsFrom(text, first, []) == KernelsFrom(text, position, kernels)
      decreases |text| - position
    {
      if text[position] != '{' {
        return Error;
      }
      var end := ScanBrace(text, position);
      if end.Error? {
        return Error;
      }
      var k := ParseKernel(text, position, end.value);
      if k.Error? {
        return Error;
      }
      var unused := CheckName(kernels, k.value.name);
      if !unused {
        return Error;
      }
      var q := ScanSpace(text, end.value, |text|);
      var next := q;
      if q < |text| && text[q] == ',' {
        next := ScanSpace(text, q + 1, |text|);
        if next >= |text| || text[next] == ']' {
          return Error;
        }
      } else if q >= |text| || text[q] != ']' {
        return Error;
      }
      kernels := kernels + [k.value];
      position := next;
    }
    if position >= |text| || kernels == [] {
      return Error;
    }
    return Ok(kernels);
  }

  method CheckName(kernels: seq<Kernel>, name: string) returns (unused: bool)
    ensures unused == FreshName(kernels, name)
  {
    var i := 0;
    while i < |kernels|
      invariant i <= |kernels| && forall k :: 0 <= k < i ==> kernels[k].name != name
    {
      if kernels[i].name == name {
        return false;
      }
      i := i + 1;
    }
    return true;
  }
}
