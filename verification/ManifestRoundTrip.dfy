/** Parsing what the generator prints gives back the same kernels. */
module ManifestRoundTrip {
  import opened Common
  import opened ManifestText
  import opened ManifestParser
  import opened ManifestWriter

  // ------------------------------------------------------------- lists of objects

  /** A printed list of objects in an array that closes after it. */
  predicate HoldsItems(text: string, p: nat, items: Items, indent: nat, outer: nat, limit: nat) {
    && At(text, p, PrintItems(items, indent)) && Closes(text, p + |PrintItems(items, indent)|, outer)
    && p + |PrintItems(items, indent)| + |Line(outer)| < limit <= |text|
  }

  /** At the first object of such a list, the cursor finds the object, its end, and either
      the next object or the closing bracket. */
  lemma {:induction false} FirstObject(text: string, p: nat, items: Items, indent: nat, outer: nat, limit: nat)
    requires HoldsItems(text, p, items, indent, outer, limit) && items.Item? && items.head.Obj?
    requires items.head.fields.Field?
    requires Plain(items.head)
    ensures var at := p + |Line(indent)|;
            var end := at + |Print(items.head, indent)|;
            && SkipSpace(text, p, limit) == at < end < limit && text[at] == '{'
            && HoldsObject(text, at, items.head.fields, indent, end)
            && MatchingBrace(text, at) == Ok(end)
  {
    hide At, Line, PrintItems, Closes, SkipSpace, MatchingBrace, Print, PlainFields;
    ItemsAt(text, p, items, indent);
    var at := p + |Line(indent)|;
    ObjectEnd(text, at, items.head.fields, indent);
    SkipLine(text, p, indent, limit);
  }

  lemma {:induction false} AfterLast(text: string, p: nat, items: Items, indent: nat, outer: nat, limit: nat)
    requires HoldsItems(text, p, items, indent, outer, limit) && items.Item? && items.rest.NoItems?
    ensures var end := p + |Line(indent)| + |Print(items.head, indent)|;
            && end + |Line(outer)| < limit && NextElement(text, end, limit) == Ok(end + |Line(outer)|)
            && text[end + |Line(outer)|] == ']'
  {
    hide At, Line, PrintItems, Closes, SkipSpace, Print;
    ItemsAt(text, p, items, indent);
    SkipToBracket(text, p + |Line(indent)| + |Print(items.head, indent)|, outer, limit);
  }

  lemma {:induction false} AfterComma(text: string, p: nat, items: Items, indent: nat, outer: nat, limit: nat)
    requires HoldsItems(text, p, items, indent, outer, limit) && items.Item? && items.rest.Item?
    requires items.rest.head.Obj? && items.rest.head.fields.Field? && Plain(items.rest.head)
    ensures var end := p + |Line(indent)| + |Print(items.head, indent)|;
            && HoldsItems(text, end + 1, items.rest, indent, outer, limit)
            && end + 1 + |Line(indent)| < limit
            && NextElement(text, end, limit) == Ok(end + 1 + |Line(indent)|)
  {
    hide At, Line, PrintItems, Closes, SkipSpace, Print, Plain;
    ItemsAt(text, p, items, indent);
    var end := p + |Line(indent)| + |Print(items.head, indent)|;
    CommaSeen(text, end, limit);
    FirstObject(text, end + 1, items.rest, indent, outer, limit);
  }

  // ------------------------------------------------------------- arguments

  lemma {:induction false} ListLookup(keys: seq<string>, values: seq<Json>, n: nat)
    requires n < |keys| == |values| && forall i :: 0 <= i < n ==> keys[i] != keys[n]
    ensures Lookup(FieldList(keys, values), keys[n]) == Some(values[n])
  {
    if n > 0 { ListLookup(keys[1..], values[1..], n - 1); }
  }

  lemma {:induction false} ListAbsent(keys: seq<string>, values: seq<Json>, field: string)
    requires |keys| == |values| && forall i :: 0 <= i < |keys| ==> keys[i] != field
    ensures Lookup(FieldList(keys, values), field) == None
  {
    if keys != [] { ListAbsent(keys[1..], values[1..], field); }
  }

  lemma {:induction false} ListPlain(keys: seq<string>, values: seq<Json>)
    requires |keys| == |values| && (forall i :: 0 <= i < |keys| ==> PlainString(keys[i]) && Plain(values[i]))
    ensures PlainFields(FieldList(keys, values))
  {
    if keys != [] { ListPlain(keys[1..], values[1..]); }
  }

  lemma ArgumentPlain(a: Argument)
    requires PrintableArgument(a)
    ensures PlainFields(ArgumentFields(a))
  {
    hide Digits, FieldList, PlainFields;
    DigitsPlain(a.offset);
    DigitsPlain(a.size);
    ListPlain(ARGUMENT_KEYS, ArgumentValues(a));
    ListPlain(ARGUMENT_KEYS + ["optional"], ArgumentValues(a) + [Token("true")]);
  }

  lemma ArgumentKeys(i: nat, j: nat)
    requires i < j < 5
    ensures (ARGUMENT_KEYS + ["optional"])[i] != (ARGUMENT_KEYS + ["optional"])[j]
  {
  }

  lemma ArgumentLookup(a: Argument)
    ensures var f := ArgumentFields(a);
            && Lookup(f, "name") == Some(Str(a.name)) && Lookup(f, "type") == Some(Str(a.kind))
            && Lookup(f, "offset") == Some(Number(a.offset)) && Lookup(f, "size") == Some(Number(a.size))
            && Lookup(f, "optional") == if a.optional then Some(Token("true")) else None
  {
    hide Number, FieldList, Lookup;
    var keys := ARGUMENT_KEYS + ["optional"];
    var values := ArgumentValues(a) + [Token("true")];
    forall i, j | 0 <= i < j < 5 ensures keys[i] != keys[j] {
      ArgumentKeys(i, j);
    }
    forall n | 0 <= n < 5 ensures Lookup(FieldList(keys, values), keys[n]) == Some(values[n]) {
      ListLookup(keys, values, n);
    }
    assert forall i :: 0 <= i < 4 ==>
      ARGUMENT_KEYS[i] == keys[i] && keys[i] != keys[4] && ArgumentValues(a)[i] == values[i];
    forall n | 0 <= n < 4 ensures Lookup(FieldList(ARGUMENT_KEYS, ArgumentValues(a)), keys[n]) == Some(values[n]) {
      ListLookup(ARGUMENT_KEYS, ArgumentValues(a), n);
    }
    assert keys[0] == "name" && keys[1] == "type" && keys[2] == "offset" && keys[3] == "size" && keys[4] == "optional";
    ListAbsent(ARGUMENT_KEYS, ArgumentValues(a), "optional");
  }

  lemma ArgumentRead(text: string, p: nat, a: Argument, indent: nat, end: nat)
    requires PrintableArgument(a) && HoldsObject(text, p, ArgumentFields(a), indent, end) && end <= |text|
    ensures ReadArgument(text, p, end) == Ok(a)
  {
    hide ReadString, ReadSize, ReadOptionalBool, HoldsObject, ArgumentFields, PlainString, Number;
    var f := ArgumentFields(a);
    ArgumentLookup(a);
    StringField(text, p, f, indent, end, "name", a.name);
    StringField(text, p, f, indent, end, "type", a.kind);
    NumberField(text, p, f, indent, end, "offset", a.offset, 0);
    NumberField(text, p, f, indent, end, "size", a.size, 0);
    FlagField(text, p, f, indent, end, "optional", a.optional);
  }

  lemma {:induction false} ArgsRead(text: string, p: nat, args: seq<Argument>, indent: nat, outer: nat, limit: nat)
    requires args != [] && PrintableArguments(args)
    requires HoldsItems(text, p, ArgumentItems(args), indent, outer, limit) && limit <= |text|
    ensures SkipSpace(text, p, limit) == p + |Line(indent)| < limit
    ensures ReadArgsFrom(text, p + |Line(indent)|, limit) == Ok(args)
    decreases |args|
  {
    hide Line, HoldsItems, SkipSpace, MatchingBrace, NextElement, ReadArgument, Print, HoldsObject, PrintableArgument;
    var items := ArgumentItems(args);
    ArgumentPlain(args[0]);
    FirstObject(text, p, items, indent, outer, limit);
    var at := p + |Line(indent)|;
    var end := at + |Print(items.head, indent)|;
    ArgumentRead(text, at, args[0], indent, end);
    if |args| == 1 {
      AfterLast(text, p, items, indent, outer, limit);
      assert ReadArgsFrom(text, end + |Line(outer)|, limit) == Ok([]);
      assert [args[0]] + [] == args;
    } else {
      ArgumentPlain(args[1]);
      assert items.rest.head == Obj(ArgumentFields(args[1]));
      AfterComma(text, p, items, indent, outer, limit);
      ArgsRead(text, end + 1, args[1..], indent, outer, limit);
      assert [args[0]] + args[1..] == args;
    }
  }

  /** The list inside a printed array. */
  lemma {:induction false} ArrayItems(text: string, q: nat, items: Items, indent: nat, limit: nat)
    requires items.Item? && At(text, q, Print(Arr(items), indent)) && q + |Print(Arr(items), indent)| <= limit <= |text|
    ensures Sees(text, q, limit, '[') && HoldsItems(text, q + 1, items, indent + 2, indent, limit)
  {
    hide At, PrintItems, Line;
    var body, close := PrintItems(items, indent + 2), Line(indent) + [']'];
    AtSplit(text, q, ['['], body + close);
    AtSplit(text, q + 1, body, close);
    AtChar(text, q, ['['], 0);
  }

  lemma {:induction false} ArgsField(text: string, p: nat, fields: Fields, indent: nat, end: nat, args: seq<Argument>)
    requires HoldsObject(text, p, fields, indent, end) && end <= |text| && args != [] && PrintableArguments(args)
    requires Lookup(fields, "args") == Some(Arr(ArgumentItems(args)))
    ensures ReadArgs(text, p, end) == Ok(args)
  {
    hide FindField, FieldAt, HoldsObject, Print, At, SkipSpace, ReadArgsFrom, Ended, Line, HoldsItems,
      PrintableArguments;
    var q := FieldPosition(text, p, fields, indent, end, "args");
    ArrayItems(text, q, ArgumentItems(args), indent + 2, end);
    ArgsRead(text, q + 1, args, indent + 4, indent + 2, end);
  }

  // ------------------------------------------------------------- kernels

  lemma {:induction false} ArgumentItemsPlain(args: seq<Argument>)
    requires PrintableArguments(args)
    ensures PlainItems(ArgumentItems(args))
  {
    hide PrintableArgument, PlainFields;
    if args != [] {
      ArgumentPlain(args[0]);
      ArgumentItemsPlain(args[1..]);
    }
  }

  lemma NumbersPlain(a: nat, b: nat, c: nat)
    ensures Plain(Number(a)) && Plain(Three(Number(a), Number(b), Number(c)))
  {
    hide Number;
    DigitsPlain(a);
    DigitsPlain(b);
    DigitsPlain(c);
    ThreePlain(Number(a), Number(b), Number(c));
  }

  lemma {:induction false} ThreePlain(a: Json, b: Json, c: Json)
    requires Plain(a) && Plain(b) && Plain(c)
    ensures Plain(Three(a, b, c))
  {
    assert PlainItems(Item(c, NoItems));
    assert PlainItems(Item(b, Item(c, NoItems)));
  }

  lemma KernelKeysPlain(i: nat)
    requires i < 10
    ensures PlainString(KERNEL_KEYS[i])
  {
  }

  lemma KernelValuesPlain(e: Entry, i: nat)
    requires Printable(e) && |e.kernel.block| == 3 && i < 10
    ensures Plain(KernelValues(e)[i])
  {
    hide Number, Three, GridText, PlainString, PlainItems;
    var k := e.kernel;
    ArgumentItemsPlain(k.args);
    NumbersPlain(k.block[0], k.block[1], k.block[2]);
    NumbersPlain(k.kernargSize, 0, 0);
    NumbersPlain(k.sharedMemory, 0, 0);
    NumbersPlain(k.workspace, 0, 0);
    NumbersPlain(1, 0, 0);
    GridPlain(k.gridDivisor, k.gridMultiplier);
    ThreePlain(Str(GridText(k.gridDivisor, k.gridMultiplier)), Number(1), Number(1));
  }

  lemma KernelPlain(e: Entry)
    requires Printable(e) && |e.kernel.block| == 3
    ensures PlainFields(KernelFields(e))
  {
    hide Printable, KernelValues, FieldList, PlainFields, PlainString, Plain;
    forall i | 0 <= i < 10 ensures PlainString(KERNEL_KEYS[i]) && Plain(KernelValues(e)[i]) {
      KernelKeysPlain(i);
      KernelValuesPlain(e, i);
    }
    ListPlain(KERNEL_KEYS, KernelValues(e));
  }

  lemma KernelKeysDiffer(i: nat, j: nat)
    requires i < j < 10
    ensures KERNEL_KEYS[i] != KERNEL_KEYS[j]
  {
  }

  lemma KernelLookup(e: Entry, n: nat)
    requires |e.kernel.block| == 3 && n < 10
    ensures Lookup(KernelFields(e), KERNEL_KEYS[n]) == Some(KernelValues(e)[n])
  {
    hide KernelValues, FieldList, Lookup;
    forall i | 0 <= i < n ensures KERNEL_KEYS[i] != KERNEL_KEYS[n] {
      KernelKeysDiffer(i, n);
    }
    ListLookup(KERNEL_KEYS, KernelValues(e), n);
  }

  /** Every field of the printed object is found under its own name. */
  lemma KernelFound(e: Entry)
    requires |e.kernel.block| == 3
    ensures var f, k := KernelFields(e), e.kernel;
            && Lookup(f, "name") == Some(Str(k.name)) && Lookup(f, "symbol") == Some(Str(k.symbol))
            && Lookup(f, "code_object") == Some(Str(k.codeObject))
            && Lookup(f, "args") == Some(Arr(ArgumentItems(k.args)))
            && Lookup(f, "kernarg_size") == Some(Number(k.kernargSize))
            && Lookup(f, "block") == Some(Three(Number(k.block[0]), Number(k.block[1]), Number(k.block[2])))
            && Lookup(f, "grid") == Some(Three(Str(GridText(k.gridDivisor, k.gridMultiplier)), Number(1), Number(1)))
            && Lookup(f, "shared_memory_bytes") == Some(Number(k.sharedMemory))
            && Lookup(f, "workspace_bytes") == Some(Number(k.workspace))
  {
    hide Number, Three, GridText, KernelFields, Lookup, ArgumentItems;
    KernelLookup(e, 0);
    KernelLookup(e, 1);
    KernelLookup(e, 2);
    KernelLookup(e, 3);
    KernelLookup(e, 4);
    KernelLookup(e, 5);
    KernelLookup(e, 6);
    KernelLookup(e, 7);
    KernelLookup(e, 9);
  }

  lemma KernelRead(text: string, p: nat, e: Entry, indent: nat, end: nat)
    requires Printable(e) && KernelOk(e.kernel) && HoldsObject(text, p, KernelFields(e), indent, end) && end <= |text|
    ensures ParseKernel(text, p, end) == Ok(e.kernel)
  {
    hide ReadString, ReadSize, ReadOptionalSize, ReadU32Array, ReadGridString, ParseGrid, ReadArgs, HoldsObject,
      KernelFields,
      PlainString, Number, Three, GridText, ArgumentItems, PathOk, ArgumentsOk, PrintableArguments, Plain;
    var f, k := KernelFields(e), e.kernel;
    KernelFound(e);
    StringField(text, p, f, indent, end, "name", k.name);
    StringField(text, p, f, indent, end, "symbol", k.symbol);
    StringField(text, p, f, indent, end, "code_object", k.codeObject);
    NumberField(text, p, f, indent, end, "kernarg_size", k.kernargSize, 0);
    NumberField(text, p, f, indent, end, "shared_memory_bytes", k.sharedMemory, 0);
    NumberField(text, p, f, indent, end, "workspace_bytes", k.workspace, 0);
    BlockField(text, p, f, indent, end, "block", k.block[0], k.block[1], k.block[2]);
    GridPlain(k.gridDivisor, k.gridMultiplier);
    GridField(text, p, f, indent, end, GridText(k.gridDivisor, k.gridMultiplier));
    GridRead(k.gridDivisor, k.gridMultiplier);
    ArgsField(text, p, f, indent, end, k.args);
    assert [k.block[0], k.block[1], k.block[2]] == k.block;
  }

  // ------------------------------------------------------------- the manifest

  function Kernels(entries: seq<Entry>): seq<Kernel> {
    if entries == [] then [] else [entries[0].kernel] + Kernels(entries[1..])
  }

  /** No name repeats an earlier one. */
  predicate NamesFresh(before: seq<Kernel>, entries: seq<Entry>)
    decreases |entries|
  {
    entries != [] ==>
      FreshName(before, entries[0].kernel.name) && NamesFresh(before + [entries[0].kernel], entries[1..])
  }

  lemma {:induction false} DistinctNames(before: seq<Kernel>, entries: seq<Entry>)
    requires forall i, j :: 0 <= i < j < |entries| ==> entries[i].kernel.name != entries[j].kernel.name
    requires forall i, j :: 0 <= i < |before| && 0 <= j < |entries| ==> before[i].name != entries[j].kernel.name
    ensures NamesFresh(before, entries)
    decreases |entries|
  {
    if entries != [] {
      DistinctNames(before + [entries[0].kernel], entries[1..]);
    }
  }

  lemma {:induction false} KernelItemsPlain(entries: seq<Entry>)
    requires AllPrintable(entries)
    ensures PlainItems(KernelItems(entries))
  {
    hide PlainFields, KernelFields;
    if entries != [] {
      assert KernelOk(entries[0].kernel);
      hide Printable;
      KernelPlain(entries[0]);
      KernelItemsPlain(entries[1..]);
    }
  }

  lemma {:induction false} KernelHead(entries: seq<Entry>)
    requires entries != [] && AllPrintable(entries)
    ensures var items := KernelItems(entries);
            && items.Item? && |entries[0].kernel.block| == 3 && items.head == Obj(KernelFields(entries[0]))
            && KernelFields(entries[0]).Field? && Plain(items.head) && items.rest == KernelItems(entries[1..])
            && KernelOk(entries[0].kernel)
  {
    hide FieldList, KernelValues, PlainFields;
    assert KernelOk(entries[0].kernel);
    hide Printable;
    KernelPlain(entries[0]);
  }

  lemma {:induction false} FirstKernel(text: string, p: nat, entries: seq<Entry>, indent: nat, outer: nat)
    requires entries != [] && AllPrintable(entries) && HoldsItems(text, p, KernelItems(entries), indent, outer, |text|)
    ensures var at := p + |Line(indent)|;
            var end := at + |Print(KernelItems(entries).head, indent)|;
            && at < end < |text| && text[at] == '{' && MatchingBrace(text, at) == Ok(end)
            && ParseKernel(text, at, end) == Ok(entries[0].kernel)
  {
    hide MatchingBrace, ParseKernel, Print, HoldsItems, HoldsObject, KernelFields, Line, SkipSpace, Printable,
      KernelOk, Plain, KernelItems;
    var items := KernelItems(entries);
    KernelHead(entries);
    FirstObject(text, p, items, indent, outer, |text|);
    var at := p + |Line(indent)|;
    KernelRead(text, at, entries[0], indent, at + |Print(items.head, indent)|);
  }

  /** One turn of the parser's loop over the kernels. */
  lemma {:induction false} KernelStep(text: string, at: nat, end: nat, next: nat, k: Kernel, before: seq<Kernel>)
    requires at < end <= |text|
    requires text[at] == '{' && MatchingBrace(text, at) == Ok(end) && ParseKernel(text, at, end) == Ok(k)
    requires FreshName(before, k.name) && NextElement(text, end, |text|) == Ok(next)
    ensures next < |text| && KernelsFrom(text, at, before) == KernelsFrom(text, next, before + [k])
  {
    hide MatchingBrace, ParseKernel, FreshName, NextElement;
  }

  lemma {:induction false} KernelsRead(text: string, p: nat, entries: seq<Entry>, before: seq<Kernel>, indent: nat,
                                       outer: nat)
    requires entries != [] && AllPrintable(entries) && NamesFresh(before, entries)
    requires HoldsItems(text, p, KernelItems(entries), indent, outer, |text|)
    ensures p + |Line(indent)| < |text|
    ensures KernelsFrom(text, p + |Line(indent)|, before) == Ok(before + Kernels(entries))
    decreases |entries|
  {
    hide MatchingBrace, ParseKernel, Print, HoldsItems, KernelFields, Line, NextElement, Printable, FreshName,
      PlainFields, KernelItems, KernelOk, Plain, KernelsFrom;
    var items := KernelItems(entries);
    KernelHead(entries);
    var at := p + |Line(indent)|;
    var end := at + |Print(items.head, indent)|;
    FirstKernel(text, p, entries, indent, outer);
    var k, rest := entries[0].kernel, entries[1..];
    assert before + [k] + Kernels(rest) == before + Kernels(entries);
    if rest == [] {
      NoKernels(rest);
      AfterLast(text, p, items, indent, outer, |text|);
      KernelStep(text, at, end, end + |Line(outer)|, k, before);
      NoMoreKernels(text, end + |Line(outer)|, before + [k]);
      assert before + [k] + [] == before + [k];
    } else {
      KernelHead(rest);
      AfterComma(text, p, items, indent, outer, |text|);
      KernelStep(text, at, end, end + 1 + |Line(indent)|, k, before);
      KernelsRead(text, end + 1, rest, before + [k], indent, outer);
    }
  }

  lemma {:induction false} NoMoreKernels(text: string, p: nat, before: seq<Kernel>)
    requires p < |text| && text[p] == ']' && before != []
    ensures KernelsFrom(text, p, before) == Ok(before)
  {
  }

  lemma {:induction false} NoKernels(entries: seq<Entry>)
    requires entries == []
    ensures KernelItems(entries) == NoItems && Kernels(entries) == []
  {
  }

  lemma ManifestKeys(i: nat, j: nat)
    requires i < j < 3
    ensures MANIFEST_KEYS[i] != MANIFEST_KEYS[j] && PlainString(MANIFEST_KEYS[i]) && PlainString(MANIFEST_KEYS[j])
  {
  }

  lemma {:induction false} ManifestFound(target: string, entries: seq<Entry>)
    requires AllPrintable(entries) && PlainString(target)
    ensures var f := ManifestFields(target, entries);
            && PlainFields(f) && Lookup(f, "manifest_version") == Some(Number(1))
              && Lookup(f, "target") == Some(Str(target))
            && Lookup(f, "kernels") == Some(Arr(KernelItems(entries)))
  {
    hide Number, FieldList, Lookup, PlainFields, PlainItems, KernelItems, AllPrintable;
    var values := [Number(1), Str(target), Arr(KernelItems(entries))];
    NumbersPlain(1, 0, 0);
    KernelItemsPlain(entries);
    ManifestKeys(0, 1);
    ManifestKeys(0, 2);
    ManifestKeys(1, 2);
    ListPlain(MANIFEST_KEYS, values);
    ListLookup(MANIFEST_KEYS, values, 0);
    ListLookup(MANIFEST_KEYS, values, 1);
    ListLookup(MANIFEST_KEYS, values, 2);
  }

  lemma {:induction false} RootObject(target: string, entries: seq<Entry>)
    requires AllPrintable(entries) && PlainString(target)
    ensures var text := WriteManifest(target, entries);
            && |text| > 1 && text[0] == '{' && SkipSpace(text, 0, |text|) == 0
            && HoldsObject(text, 0, ManifestFields(target, entries), 0, |text| - 1)
            && MatchingBrace(text, 0) == Ok(|text| - 1)
  {
    hide MatchingBrace, PlainFields, ManifestFields;
    ManifestFound(target, entries);
    var f := ManifestFields(target, entries);
    hide Print;
    var text := WriteManifest(target, entries);
    assert text[0..0 + |Print(Obj(f), 0)|] == Print(Obj(f), 0);
    ObjectEnd(text, 0, f, 0);
  }

  /** The round trip, for every manifest the generator can write without escapes: nested
      notes, string values and argument names may repeat any field name or hold braces. */
  lemma {:induction false} RoundTrip(target: string, entries: seq<Entry>)
    requires target != "" && PlainString(target) && entries != [] && AllPrintable(entries)
    requires forall i, j :: 0 <= i < j < |entries| ==> entries[i].kernel.name != entries[j].kernel.name
    ensures Parse(WriteManifest(target, entries)) == Ok(Manifest(1, target, Kernels(entries)))
  {
    hide MatchingBrace, PlainFields, ManifestFields, WriteManifest, HoldsObject, SkipSpace, AllPrintable, ParseRoot;
    var text := WriteManifest(target, entries);
    RootObject(target, entries);
    RootRead(text, target, entries);
  }

  lemma {:induction false} RootRead(text: string, target: string, entries: seq<Entry>)
    requires target != "" && PlainString(target) && entries != [] && AllPrintable(entries) && |text| > 0
    requires forall i, j :: 0 <= i < j < |entries| ==> entries[i].kernel.name != entries[j].kernel.name
    requires HoldsObject(text, 0, ManifestFields(target, entries), 0, |text| - 1)
    ensures ParseRoot(text, 0, |text| - 1) == Ok(Manifest(1, target, Kernels(entries)))
  {
    hide PlainFields, ManifestFields, ReadVersion, ReadString, ReadKernels, HoldsObject, Number, AllPrintable,
      KernelItems;
    var f, end := ManifestFields(target, entries), |text| - 1;
    ManifestFound(target, entries);
    VersionField(text, f, end);
    StringField(text, 0, f, 0, end, "target", target);
    KernelsField(text, f, entries, end);
  }

  lemma {:induction false} VersionField(text: string, f: Fields, end: nat)
    requires HoldsObject(text, 0, f, 0, end) && end <= |text| && Lookup(f, "manifest_version") == Some(Number(1))
    ensures ReadVersion(text, 0, end) == Ok(1)
  {
    hide HoldsObject, FieldAt, ReadSizeAt, Lookup, Number;
    NumberField(text, 0, f, 0, end, "manifest_version", 1, 0);
  }

  lemma {:induction false} KernelsField(text: string, f: Fields, entries: seq<Entry>, end: nat)
    requires entries != [] && AllPrintable(entries)
    requires forall i, j :: 0 <= i < j < |entries| ==> entries[i].kernel.name != entries[j].kernel.name
    requires HoldsObject(text, 0, f, 0, end) && end <= |text| && Lookup(f, "kernels") == Some(Arr(KernelItems(entries)))
    ensures ReadKernels(text, 0, end) == Ok(Kernels(entries))
  {
    hide FindField, FieldAt, KernelsFrom, HoldsObject, Print, At, SkipSpace, Ended, AllPrintable, KernelItems, Lookup;
    var q := FieldPosition(text, 0, f, 0, end, "kernels");
    KernelList(text, q, entries, end);
  }

  lemma {:induction false} KernelList(text: string, q: nat, entries: seq<Entry>, end: nat)
    requires entries != [] && AllPrintable(entries)
    requires forall i, j :: 0 <= i < j < |entries| ==> entries[i].kernel.name != entries[j].kernel.name
    requires At(text, q, Print(Arr(KernelItems(entries)), 2))
    requires q + |Print(Arr(KernelItems(entries)), 2)| < end <= |text|
    ensures Sees(text, q, end, '[') && SkipSpace(text, q + 1, end) <= |text|
    ensures KernelsFrom(text, SkipSpace(text, q + 1, end), []) == Ok(Kernels(entries))
  {
    hide KernelItems, KernelsFrom, Print, At, SkipSpace, Line, AllPrintable, NamesFresh, HoldsItems, Plain,
      KernelFields, MatchingBrace, KernelOk;
    var items := KernelItems(entries);
    DistinctNames([], entries);
    KernelHead(entries);
    ArrayItems(text, q, items, 2, end);
    FirstObject(text, q + 1, items, 4, 2, end);
    WiderLimit(text, q + 1, items, 4, 2, end);
    KernelsRead(text, q + 1, entries, [], 4, 2);
    assert [] + Kernels(entries) == Kernels(entries);
  }

  lemma WiderLimit(text: string, p: nat, items: Items, indent: nat, outer: nat, limit: nat)
    requires HoldsItems(text, p, items, indent, outer, limit)
    ensures HoldsItems(text, p, items, indent, outer, |text|)
  {
  }
}
