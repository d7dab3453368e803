/** What the generator prints for a list of kernels, and that the parser reads it back. */
module ManifestWriter {
  import opened Common
  import opened ManifestText
  import opened ManifestParser

  // ------------------------------------------------------------- the writer

  function Digit(d: nat): (c: char)
    requires d < 10
    ensures IsDigit(c) && DigitValue(c) == d && TokenChar(c)
  {
    ('0' as int + d) as char
  }

  function Digits(n: nat): (r: string)
    ensures |r| > 0 && forall i :: 0 <= i < |r| ==> IsDigit(r[i])
  {
    if n < 10 then [Digit(n)] else Digits(n / 10) + [Digit(n % 10)]
  }

  function Number(n: nat): Json {
    Token(Digits(n))
  }

  function Three(a: Json, b: Json, c: Json): Json {
    Arr(Item(a, Item(b, Item(c, NoItems))))
  }

  function FieldList(keys: seq<string>, values: seq<Json>): (r: Fields)
    requires |keys| == |values|
    ensures |keys| > 0 ==> r.Field?
  {
    if keys == [] then NoFields else Field(keys[0], values[0], FieldList(keys[1..], values[1..]))
  }

  const ARGUMENT_KEYS: seq<string> := ["name", "type", "offset", "size"]

  function ArgumentValues(a: Argument): seq<Json> {
    [Str(a.name), Str(a.kind), Number(a.offset), Number(a.size)]
  }

  /** The key `optional` is written for optional pointers only. */
  function ArgumentFields(a: Argument): Fields {
    if a.optional then FieldList(ARGUMENT_KEYS + ["optional"], ArgumentValues(a) + [Token("true")])
    else FieldList(ARGUMENT_KEYS, ArgumentValues(a))
  }

  function ArgumentItems(args: seq<Argument>): Items {
    if args == [] then NoItems else Item(Obj(ArgumentFields(args[0])), ArgumentItems(args[1..]))
  }

  function GridText(divisor: nat, multiplier: nat): string {
    GRID_PREFIX + (Digits(divisor) + (") * " + Digits(multiplier)))
  }

  /** A kernel and the generator's own notes about it, which the parser never reads. */
  datatype Entry = Entry(kernel: Kernel, notes: Json)

  const KERNEL_KEYS: seq<string> :=
    ["name", "symbol", "code_object", "args", "kernarg_size", "block", "grid", "shared_memory_bytes", "triton",
     "workspace_bytes"]

  function KernelValues(e: Entry): (r: seq<Json>)
    requires |e.kernel.block| == 3
    ensures |r| == 10
  {
    var k := e.kernel;
    [Str(k.name), Str(k.symbol), Str(k.codeObject), Arr(ArgumentItems(k.args)), Number(k.kernargSize),
     Three(Number(k.block[0]), Number(k.block[1]), Number(k.block[2])),
     Three(Str(GridText(k.gridDivisor, k.gridMultiplier)), Number(1), Number(1)),
     Number(k.sharedMemory), e.notes, Number(k.workspace)]
  }

  function KernelFields(e: Entry): Fields
    requires |e.kernel.block| == 3
  {
    FieldList(KERNEL_KEYS, KernelValues(e))
  }

  predicate Printable(e: Entry) {
    && KernelOk(e.kernel) && e.kernel.args != [] && Plain(e.notes)
    && PlainString(e.kernel.name) && PlainString(e.kernel.symbol) && PlainString(e.kernel.codeObject)
    && e.kernel.kernargSize < SIZE_LIMIT && e.kernel.workspace < SIZE_LIMIT
    && e.kernel.block[0] <= UINT32_MAX && e.kernel.block[1] <= UINT32_MAX && e.kernel.block[2] <= UINT32_MAX
    && e.kernel.gridDivisor <= UINT32_MAX && e.kernel.gridMultiplier <= UINT32_MAX
    && PrintableArguments(e.kernel.args)
  }

  predicate PrintableArguments(args: seq<Argument>) {
    args != [] ==> PrintableArgument(args[0]) && PrintableArguments(args[1..])
  }

  predicate PrintableArgument(a: Argument) {
    PlainString(a.name) && PlainString(a.kind) && a.offset < SIZE_LIMIT && a.size < SIZE_LIMIT
  }

  predicate AllPrintable(entries: seq<Entry>) {
    entries != [] ==> Printable(entries[0]) && AllPrintable(entries[1..])
  }

  function KernelItems(entries: seq<Entry>): Items
    requires AllPrintable(entries)
  {
    if entries == [] then NoItems
    else
      assert KernelOk(entries[0].kernel);
      Item(Obj(KernelFields(entries[0])), KernelItems(entries[1..]))
  }

  const MANIFEST_KEYS: seq<string> := ["manifest_version", "target", "kernels"]

  function ManifestFields(target: string, entries: seq<Entry>): Fields
    requires AllPrintable(entries)
  {
    FieldList(MANIFEST_KEYS, [Number(1), Str(target), Arr(KernelItems(entries))])
  }

  function WriteManifest(target: string, entries: seq<Entry>): string
    requires AllPrintable(entries)
  {
    Print(Obj(ManifestFields(target, entries)), 0) + ['\n']
  }

  // ------------------------------------------------------------- numbers

  lemma {:induction false} DecimalDigits(n: nat)
    ensures Decimal(Digits(n)) == n
  {
    var s := Digits(n);
    if n < 10 {
      assert s[..|s| - 1] == "";
    } else {
      DecimalDigits(n / 10);
      assert s[..|s| - 1] == Digits(n / 10);
    }
  }

  lemma DigitsPlain(n: nat)
    ensures Plain(Number(n))
  {
  }

  lemma {:induction false} DigitsScan(text: string, p: nat, s: string, limit: nat)
    requires At(text, p, s) && p + |s| <= limit <= |text| && forall i :: 0 <= i < |s| ==> IsDigit(s[i])
    requires p + |s| == limit || !IsDigit(text[p + |s|])
    ensures DigitsEnd(text, p, limit) == p + |s|
    decreases |s|
  {
    if s != "" {
      AtChar(text, p, s, 0);
      assert s == [s[0]] + s[1..];
      AtSplit(text, p, [s[0]], s[1..]);
      DigitsScan(text, p + 1, s[1..], limit);
    }
  }

  /** A printed number is read back from its position. */
  lemma {:induction false} NumberRead(text: string, p: nat, n: nat, limit: nat)
    requires At(text, p, Digits(n)) && p + |Digits(n)| < limit <= |text| && n < SIZE_LIMIT
    requires EndsInteger(text[p + |Digits(n)|])
    ensures DigitsEnd(text, p, limit) == p + |Digits(n)| && ReadSizeAt(text, p, limit) == Ok(n)
  {
    DigitsScan(text, p, Digits(n), limit);
    DecimalDigits(n);
  }

  // ------------------------------------------------------------- one field

  /** The text holds a printed object from `p` on, up to `end`. */
  predicate HoldsObject(text: string, p: nat, fields: Fields, indent: nat, end: nat) {
    && fields.Field? && PlainFields(fields)
    && At(text, p, Print(Obj(fields), indent)) && end == p + |Print(Obj(fields), indent)| <= |text|
  }

  lemma {:induction false} PlainScan(text: string, p: nat, s: string, limit: nat)
    requires At(text, p, s + ['"']) && p + |s| < limit <= |text| && PlainString(s)
    ensures PlainEnd(text, p, limit) == Ok(p + |s|)
    decreases |s|
  {
    AtChar(text, p, s + ['"'], 0);
    if s != "" {
      assert s + ['"'] == [s[0]] + (s[1..] + ['"']);
      AtSplit(text, p, [s[0]], s[1..] + ['"']);
      PlainScan(text, p + 1, s[1..], limit);
    }
  }

  /** The position of a field's value in a printed object. */
  lemma FieldPosition(text: string, p: nat, fields: Fields, indent: nat, end: nat, field: string) returns (q: nat)
    requires HoldsObject(text, p, fields, indent, end)
    ensures end <= |text|
    ensures Lookup(fields, field).None? ==> FindField(text, field, p, end) == Ok(None)
    ensures Lookup(fields, field).Some? ==>
      && FindField(text, field, p, end) == Ok(Some(q)) && FieldAt(text, field, p, end) == Ok(q)
      && At(text, q, Print(Lookup(fields, field).value, indent + 2))
      && q + |Print(Lookup(fields, field).value, indent + 2)| < end
      && Ended(text, q + |Print(Lookup(fields, field).value, indent + 2)|)
  {
    hide FindField, PlainFields, At, Print, Ended;
    q := ObjectField(text, field, p, fields, indent);
  }

  lemma {:induction false} StringField(text: string, p: nat, fields: Fields, indent: nat, end: nat, field: string,
                                       s: string)
    requires HoldsObject(text, p, fields, indent, end) && Lookup(fields, field) == Some(Str(s)) && PlainString(s)
    requires end <= |text|
    ensures ReadString(text, field, p, end) == Ok(s)
  {
    hide FindField, FieldAt, PlainEnd, HoldsObject, PlainString;
    var q := FieldPosition(text, p, fields, indent, end, field);
    AtChar(text, q, Quoted(s), 0);
    AtSplit(text, q, ['"'], s + ['"']);
    PlainScan(text, q + 1, s, end);
    AtSplit(text, q + 1, s, ['"']);
  }

  lemma {:induction false} NumberField(text: string, p: nat, fields: Fields, indent: nat, end: nat, field: string,
                                       n: nat, default: nat)
    requires HoldsObject(text, p, fields, indent, end) && Lookup(fields, field) == Some(Number(n))
    requires n < SIZE_LIMIT && end <= |text|
    ensures ReadSize(text, field, p, end) == Ok(n) && ReadOptionalSize(text, field, p, end, default) == Ok(n)
  {
    hide FindField, FieldAt, HoldsObject, ReadSizeAt, Digits;
    var q := FieldPosition(text, p, fields, indent, end, field);
    NumberRead(text, q, n, end);
  }

  lemma {:induction false} FlagField(text: string, p: nat, fields: Fields, indent: nat, end: nat, field: string,
                                     flag: bool)
    requires HoldsObject(text, p, fields, indent, end) && end <= |text|
    requires Lookup(fields, field) == if flag then Some(Token("true")) else None
    ensures ReadOptionalBool(text, field, p, end) == Ok(flag)
  {
    hide FindField, FieldAt, HoldsObject;
    var q := FieldPosition(text, p, fields, indent, end, field);
  }

  // ------------------------------------------------------------- arrays

  /** An array is over: the closing bracket on its own line. */
  predicate Closes(text: string, p: nat, outer: nat) {
    At(text, p, Line(outer) + [']'])
  }

  lemma {:induction false} SkipToBracket(text: string, p: nat, outer: nat, limit: nat)
    requires Closes(text, p, outer) && p + |Line(outer)| < limit <= |text|
    ensures SkipSpace(text, p, limit) == p + |Line(outer)| && Sees(text, p + |Line(outer)|, limit, ']')
    ensures text[p] == '\n'
  {
    AtChar(text, p, Line(outer) + [']'], 0);
    AtSplit(text, p, Line(outer), [']']);
    AtChar(text, p + |Line(outer)|, [']'], 0);
    SkipLine(text, p, outer, limit);
  }

  lemma {:induction false} CommaSeen(text: string, p: nat, limit: nat)
    requires At(text, p, [',']) && p < limit <= |text|
    ensures SkipSpace(text, p, limit) == p && Sees(text, p, limit, ',') && text[p] == ','
  {
  }

  /** The pieces of a printed array of three. */
  lemma ThreeAt(text: string, q: nat, a: Json, b: Json, c: Json, indent: nat)
    requires At(text, q, Print(Three(a, b, c), indent))
    ensures var line := |Line(indent + 2)|;
            var x := q + 1 + line + |Print(a, indent + 2)|;
            var y := x + 1 + line + |Print(b, indent + 2)|;
            var z := y + 1 + line + |Print(c, indent + 2)|;
            && At(text, q, ['[']) && At(text, q + 1, Line(indent + 2)) && At(text, q + 1 + line, Print(a, indent + 2))
            && At(text, x, [',']) && At(text, x + 1, Line(indent + 2)) && At(text, x + 1 + line, Print(b, indent + 2))
            && At(text, y, [',']) && At(text, y + 1, Line(indent + 2)) && At(text, y + 1 + line, Print(c, indent + 2))
            && Closes(text, z, indent) && z + |Line(indent)| + 1 == q + |Print(Three(a, b, c), indent)|
  {
    hide At, Line, PrintItems;
    var i := indent + 2;
    var items := Item(a, Item(b, Item(c, NoItems)));
    AtSplit(text, q, ['['], PrintItems(items, i) + (Line(indent) + [']']));
    AtSplit(text, q + 1, PrintItems(items, i), Line(indent) + [']']);
    ItemsAt(text, q + 1, items, i);
    ItemsAt(text, q + 2 + |Line(i)| + |Print(a, i)|, items.rest, i);
    ItemsAt(text, q + 3 + 2 * |Line(i)| + |Print(a, i)| + |Print(b, i)|, items.rest.rest, i);
  }

  /** A printed number in an array, up to the character after it. */
  lemma {:induction false} ElementRead(text: string, p: nat, n: nat, indent: nat, limit: nat)
    requires At(text, p, Line(indent)) && At(text, p + |Line(indent)|, Digits(n)) && n <= UINT32_MAX
    requires p + |Line(indent)| + |Digits(n)| < limit <= |text| && EndsInteger(text[p + |Line(indent)| + |Digits(n)|])
    ensures ReadElement(text, p, limit) == Ok((n, SkipSpace(text, p + |Line(indent)| + |Digits(n)|, limit)))
  {
    hide SkipSpace, ReadSizeAt, Digits, Line;
    AtChar(text, p + |Line(indent)|, Digits(n), 0);
    SkipLine(text, p, indent, limit);
    NumberRead(text, p + |Line(indent)|, n, limit);
  }

  lemma {:induction false} PrintNumber(n: nat, indent: nat)
    ensures Print(Number(n), indent) == Digits(n)
  {
  }

  lemma {:induction false} ElementsRead(text: string, q: nat, a: nat, b: nat, c: nat, indent: nat, limit: nat)
    requires var line := |Line(indent + 2)|;
             var x := q + 1 + line + |Digits(a)|;
             var y := x + 1 + line + |Digits(b)|;
             var z := y + 1 + line + |Digits(c)|;
             && At(text, q, ['[']) && At(text, q + 1, Line(indent + 2)) && At(text, q + 1 + line, Digits(a))
             && At(text, x, [',']) && At(text, x + 1, Line(indent + 2)) && At(text, x + 1 + line, Digits(b))
             && At(text, y, [',']) && At(text, y + 1, Line(indent + 2)) && At(text, y + 1 + line, Digits(c))
             && Closes(text, z, indent) && z + |Line(indent)| < limit <= |text|
    requires a <= UINT32_MAX && b <= UINT32_MAX && c <= UINT32_MAX
    ensures ReadThree(text, q, limit) == Ok([a, b, c])
  {
    hide ReadElement, Digits, Line, At, Closes, SkipSpace;
    AtChar(text, q, ['['], 0);
    var i := indent + 2;
    var x := q + 1 + |Line(i)| + |Digits(a)|;
    var y := x + 1 + |Line(i)| + |Digits(b)|;
    var z := y + 1 + |Line(i)| + |Digits(c)|;
    CommaSeen(text, x, limit);
    CommaSeen(text, y, limit);
    SkipToBracket(text, z, indent, limit);
    ElementRead(text, q + 1, a, i, limit);
    ElementRead(text, x + 1, b, i, limit);
    ElementRead(text, y + 1, c, i, limit);
  }

  lemma {:induction false} ThreeRead(text: string, q: nat, a: nat, b: nat, c: nat, indent: nat, limit: nat)
    requires At(text, q, Print(Three(Number(a), Number(b), Number(c)), indent))
    requires q + |Print(Three(Number(a), Number(b), Number(c)), indent)| <= limit <= |text|
    requires a <= UINT32_MAX && b <= UINT32_MAX && c <= UINT32_MAX
    ensures ReadThree(text, q, limit) == Ok([a, b, c])
  {
    hide *;
    ThreeAt(text, q, Number(a), Number(b), Number(c), indent);
    PrintNumber(a, indent + 2);
    PrintNumber(b, indent + 2);
    PrintNumber(c, indent + 2);
    ElementsRead(text, q, a, b, c, indent, limit);
  }

  lemma {:induction false} BlockField(text: string, p: nat, fields: Fields, indent: nat, end: nat, field: string,
                                      a: nat, b: nat, c: nat)
    requires HoldsObject(text, p, fields, indent, end) && end <= |text|
    requires Lookup(fields, field) == Some(Three(Number(a), Number(b), Number(c)))
    requires a <= UINT32_MAX && b <= UINT32_MAX && c <= UINT32_MAX
    ensures ReadU32Array(text, field, p, end) == Ok([a, b, c])
  {
    hide FindField, FieldAt, HoldsObject, Three, Number, Print, At, ReadThree, Ended;
    var q := FieldPosition(text, p, fields, indent, end, field);
    ThreeRead(text, q, a, b, c, indent + 2, end);
  }

  lemma {:induction false} FindQuote(text: string, p: nat, s: string)
    requires At(text, p, s + ['"']) && PlainString(s)
    ensures Find(text, '"', p) == Some(p + |s|)
    decreases |s|
  {
    AtChar(text, p, s + ['"'], 0);
    if s != "" {
      assert s + ['"'] == [s[0]] + (s[1..] + ['"']);
      AtSplit(text, p, [s[0]], s[1..] + ['"']);
      FindQuote(text, p + 1, s[1..]);
    }
  }

  /** A printed string at the cursor. */
  lemma {:induction false} QuotedAt(text: string, p: nat, s: string)
    requires At(text, p, Quoted(s)) && PlainString(s)
    ensures p + |s| + 2 <= |text| && text[p] == '"' && Find(text, '"', p + 1) == Some(p + 1 + |s|)
    ensures text[p + 1..p + 1 + |s|] == s
  {
    AtChar(text, p, Quoted(s), 0);
    AtSplit(text, p, ['"'], s + ['"']);
    FindQuote(text, p + 1, s);
    AtSplit(text, p + 1, s, ['"']);
  }

  lemma OnesRead(text: string, x: nat, indent: nat, limit: nat)
    requires var line := |Line(indent + 2)|;
             var y := x + 1 + line + |Digits(1)|;
             var z := y + 1 + line + |Digits(1)|;
             && At(text, x, [',']) && At(text, x + 1, Line(indent + 2)) && At(text, x + 1 + line, Digits(1))
             && At(text, y, [',']) && At(text, y + 1, Line(indent + 2)) && At(text, y + 1 + line, Digits(1))
             && Closes(text, z, indent) && z + |Line(indent)| < limit <= |text|
    ensures OnesFollow(text, x, limit)
  {
    hide ReadElement, Digits, Line, At, Closes, SkipSpace;
    var line := |Line(indent + 2)|;
    var y := x + 1 + line + |Digits(1)|;
    var z := y + 1 + line + |Digits(1)|;
    CommaSeen(text, x, limit);
    CommaSeen(text, y, limit);
    SkipToBracket(text, z, indent, limit);
    ElementRead(text, x + 1, 1, indent + 2, limit);
    ElementRead(text, y + 1, 1, indent + 2, limit);
  }

  /** The grid array from its opening bracket on. */
  lemma {:induction false} GridArray(text: string, q: nat, expr: string, indent: nat, limit: nat)
    requires At(text, q, Print(Three(Str(expr), Number(1), Number(1)), indent)) && PlainString(expr)
    requires q + |Print(Three(Str(expr), Number(1), Number(1)), indent)| <= limit <= |text|
    ensures var open := q + 1 + |Line(indent + 2)|;
            && Sees(text, q, limit, '[') && SkipSpace(text, q + 1, limit) == open
            && Sees(text, open, limit, '"') && Find(text, '"', open + 1) == Some(open + 1 + |expr|)
            && open + 1 + |expr| < limit && text[open + 1..open + 1 + |expr|] == expr
            && SkipSpace(text, open + 2 + |expr|, limit) == open + 2 + |expr|
              && OnesFollow(text, open + 2 + |expr|, limit)
  {
    hide Print, PrintItems, Digits, Line, At, Closes, SkipSpace, Find, PlainString, OnesFollow;
    ThreeAt(text, q, Str(expr), Number(1), Number(1), indent);
    PrintNumber(1, indent + 2);
    PrintString(expr, indent + 2);
    AtChar(text, q, ['['], 0);
    var open := q + 1 + |Line(indent + 2)|;
    QuotedAt(text, open, expr);
    SkipLine(text, q + 1, indent + 2, limit);
    CommaSeen(text, open + |Quoted(expr)|, limit);
    OnesRead(text, open + |Quoted(expr)|, indent, limit);
  }

  lemma {:induction false} PrintString(s: string, indent: nat)
    ensures Print(Str(s), indent) == Quoted(s)
  {
  }

  lemma {:induction false} GridField(text: string, p: nat, fields: Fields, indent: nat, end: nat, expr: string)
    requires HoldsObject(text, p, fields, indent, end) && end <= |text| && PlainString(expr)
    requires Lookup(fields, "grid") == Some(Three(Str(expr), Number(1), Number(1)))
    ensures ReadGridString(text, p, end) == Ok(expr)
  {
    hide FindField, FieldAt, HoldsObject, Three, Number, Print, At, SkipSpace, Find, PlainString, OnesFollow, Ended,
      Line;
    var q := FieldPosition(text, p, fields, indent, end, "grid");
    GridArray(text, q, expr, indent + 2, end);
  }

  // ------------------------------------------------------------- the grid expression

  lemma {:induction false} GridIntegerRead(n: nat)
    requires n <= UINT32_MAX
    ensures ParseGridInteger(Digits(n)) == Ok(n)
  {
    DecimalDigits(n);
    var s := Digits(n);
    assert s[0..] == s;
  }

  lemma {:induction false} FindAfterDigits(s: string, p: nat, d: string)
    requires At(s, p, d + [')']) && forall i :: 0 <= i < |d| ==> IsDigit(d[i])
    ensures Find(s, ')', p) == Some(p + |d|)
    decreases |d|
  {
    AtChar(s, p, d + [')'], 0);
    if d != "" {
      assert d + [')'] == [d[0]] + (d[1..] + [')']);
      AtSplit(s, p, [d[0]], d[1..] + [')']);
      FindAfterDigits(s, p + 1, d[1..]);
    }
  }

  /** Where the pieces of a grid expression are. */
  lemma {:induction false} GridPieces(prefix: string, d: string, m: string)
    requires |d| > 0 && |m| > 0 && (forall i :: 0 <= i < |d| ==> IsDigit(d[i]))
      && (forall i :: 0 <= i < |m| ==> IsDigit(m[i]))
    ensures var expr := prefix + (d + (") * " + m));
            var close := |prefix| + |d|;
            && |expr| == close + 4 + |m| && expr[..|prefix|] == prefix && expr[|prefix|..close] == d
            && Find(expr, ')', |prefix|) == Some(close)
            && expr[close + 1] == ' ' && expr[close + 2] == '*' && expr[close + 3] == ' ' && expr[close + 4..] == m
  {
    hide Find;
    var expr := prefix + (d + (") * " + m));
    assert At(expr, 0, expr);
    AtSplit(expr, 0, prefix, d + (") * " + m));
    assert d + (") * " + m) == (d + [')']) + (" * " + m);
    AtSplit(expr, |prefix|, d + [')'], " * " + m);
    FindAfterDigits(expr, |prefix|, d);
  }

  lemma StarFound(s: string, p: nat)
    requires p + 1 < |s| && s[p] == ' ' && s[p + 1] != ' '
    ensures SkipBlanks(s, p) == p + 1
  {
  }

  lemma GridRead(divisor: nat, multiplier: nat)
    requires divisor <= UINT32_MAX && multiplier <= UINT32_MAX
    ensures ParseGrid(GridText(divisor, multiplier)) == Ok((divisor, multiplier))
  {
    hide Digits, ParseGridInteger, Find, SkipBlanks;
    var d, m := Digits(divisor), Digits(multiplier);
    var close := |GRID_PREFIX| + |d|;
    GridPieces(GRID_PREFIX, d, m);
    var expr := GRID_PREFIX + (d + (") * " + m));
    assert expr[close + 4] == m[0] by { assert expr[close + 4..][0] == expr[close + 4]; }
    StarFound(expr, close + 1);
    StarFound(expr, close + 3);
    GridIntegerRead(divisor);
    GridIntegerRead(multiplier);
  }

  lemma GridPlain(divisor: nat, multiplier: nat)
    ensures PlainString(GridText(divisor, multiplier))
  {
  }
}
