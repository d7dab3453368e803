/** Manifest text: the JSON the generator prints, and the cursor scans of the parser. */
module ManifestText {
  import opened Common

  // ------------------------------------------------------------- JSON as printed

  /** `Token` is a number, true, false or null as written. */
  datatype Json = Str(s: string) | Token(t: string) | Arr(items: Items) | Obj(fields: Fields)
  datatype Items = NoItems | Item(head: Json, rest: Items)
  datatype Fields = NoFields | Field(key: string, value: Json, rest: Fields)

  function Spaces(n: nat): (r: string)
    ensures |r| == n && forall i :: 0 <= i < n ==> r[i] == ' '
  {
    seq(n, _ => ' ')
  }

  function Line(indent: nat): (r: string)
    ensures |r| == indent + 1 && forall i :: 0 <= i < |r| ==> IsSpace(r[i])
  {
    ['\n'] + Spaces(indent)
  }

  function Quoted(s: string): string {
    ['"'] + (s + ['"'])
  }

  /** Two more spaces per level, one element per line. */
  function Print(j: Json, indent: nat): (r: string)
    ensures j.Str? || j.Arr? || j.Obj? ==> |r| > 0
    decreases j, 0
  {
    match j
    case Str(s) => Quoted(s)
    case Token(t) => t
    case Arr(items) =>
      if items.NoItems? then "[]" else ['['] + (PrintItems(items, indent + 2) + (Line(indent) + [']']))
    case Obj(fields) =>
      if fields.NoFields? then "{}" else ['{'] + (PrintFields(fields, indent + 2) + (Line(indent) + ['}']))
  }

  function PrintItems(items: Items, indent: nat): string
    decreases items, 0
  {
    match items
    case NoItems => ""
    case Item(head, rest) =>
      Line(indent) + (Print(head, indent) + if rest.NoItems? then "" else [','] + PrintItems(rest, indent))
  }

  function PrintField(key: string, value: Json, indent: nat): string
    decreases value, 1
  {
    Line(indent) + (Quoted(key) + ([':', ' '] + Print(value, indent)))
  }

  function PrintFields(fields: Fields, indent: nat): string
    decreases fields, 0
  {
    match fields
    case NoFields => ""
    case Field(key, value, rest) =>
      PrintField(key, value, indent) + if rest.NoFields? then "" else [','] + PrintFields(rest, indent)
  }

  /** Printed without escapes. */
  predicate PlainChar(c: char) {
    ' ' <= c <= '~' && c != '"' && c != '\\'
  }

  predicate PlainString(s: string) {
    forall i :: 0 <= i < |s| ==> PlainChar(s[i])
  }

  predicate TokenChar(c: char) {
    PlainChar(c) && c != ' ' && c != '{' && c != '}' && c != '[' && c != ']' && c != ',' && c != ':'
  }

  predicate Plain(j: Json)
    decreases j
  {
    match j
    case Str(s) => PlainString(s)
    case Token(t) => |t| > 0 && forall i :: 0 <= i < |t| ==> TokenChar(t[i])
    case Arr(items) => PlainItems(items)
    case Obj(fields) => PlainFields(fields)
  }

  predicate PlainItems(items: Items)
    decreases items
  {
    items.Item? ==> Plain(items.head) && PlainItems(items.rest)
  }

  predicate PlainFields(fields: Fields)
    decreases fields
  {
    fields.Field? ==> PlainString(fields.key) && Plain(fields.value) && PlainFields(fields.rest)
  }

  // ------------------------------------------------------------- text at a position

  predicate At(text: string, p: nat, s: string) {
    p + |s| <= |text| && text[p..p + |s|] == s
  }

  lemma AtSplit(text: string, p: nat, a: string, b: string)
    requires At(text, p, a + b)
    ensures At(text, p, a) && At(text, p + |a|, b) && p + |a| + |b| <= |text|
  {
    var whole := text[p..p + |a + b|];
    assert whole[..|a|] == a && whole[|a|..] == b;
    assert text[p..p + |a|] == whole[..|a|];
    assert text[p + |a|..p + |a| + |b|] == whole[|a|..];
  }

  lemma AtChar(text: string, p: nat, s: string, i: nat)
    requires At(text, p, s) && i < |s|
    ensures p + i < |text| && text[p + i] == s[i]
  {
  }

  // ------------------------------------------------------------- scans

  /** Exceptions carry no message here. */
  datatype Result<T> = Ok(value: T) | Error
  {
    predicate IsFailure() { Error? }

    function PropagateFailure<U>(): Result<U>
      requires IsFailure()
    {
      Error
    }

    function Extract(): T
      requires !IsFailure()
    {
      value
    }
  }

  predicate IsSpace(c: char) {
    c == ' ' || c == '\n' || c == '\r' || c == '\t'
  }

  function SkipSpace(text: string, p: nat, limit: nat): (r: nat)
    requires limit <= |text|
    ensures r >= p && (p <= limit ==> r <= limit)
    decreases limit - p
  {
    if p < limit && IsSpace(text[p]) then SkipSpace(text, p + 1, limit) else p
  }

  /** The scan for the closing brace, from inside an object `depth` levels deep. */
  function BraceEnd(text: string, i: nat, depth: nat, inString: bool, escaped: bool): (r: Result<nat>)
    requires i <= |text| && depth > 0
    ensures r.Ok? ==> i < r.value <= |text|
    decreases |text| - i
  {
    if i == |text| then Error
    else if inString then
      if escaped then BraceEnd(text, i + 1, depth, true, false)
      else if text[i] == '\\' then BraceEnd(text, i + 1, depth, true, true)
      else BraceEnd(text, i + 1, depth, text[i] != '"', false)
    else if text[i] == '"' then BraceEnd(text, i + 1, depth, true, false)
    else if text[i] == '{' then BraceEnd(text, i + 1, depth + 1, false, false)
    else if text[i] == '}' then if depth == 1 then Ok(i + 1) else BraceEnd(text, i + 1, depth - 1, false, false)
    else BraceEnd(text, i + 1, depth, false, false)
  }

  /** The end of the object that opens at `begin`. */
  function MatchingBrace(text: string, begin: nat): (r: Result<nat>)
    requires begin < |text| && text[begin] == '{'
    ensures r.Ok? ==> begin < r.value <= |text|
  {
    BraceEnd(text, begin + 1, 1, false, false)
  }

  /** The closing quote, or `limit`. */
  function StringEnd(text: string, i: nat, limit: nat, escaped: bool): (r: nat)
    requires i <= limit <= |text|
    ensures i <= r <= limit
    decreases limit - i
  {
    if i == limit then i
    else if escaped then StringEnd(text, i + 1, limit, false)
    else if text[i] == '\\' then StringEnd(text, i + 1, limit, true)
    else if text[i] == '"' then i
    else StringEnd(text, i + 1, limit, false)
  }

  /** The search for a field of the object itself: strings are skipped as a whole, nested
      objects and arrays by their depth. */
  function FieldFrom(text: string, field: string, p: nat, end: nat, depth: nat): (r: Result<Option<nat>>)
    requires p <= end <= |text|
    ensures r.Ok? && r.value.Some? ==> r.value.value <= end
    decreases end - p
  {
    if p == end then Ok(None)
    else if text[p] == '"' then
      var close := StringEnd(text, p + 1, end, false);
      if close == end then Error
      else
        var colon := SkipSpace(text, close + 1, end);
        if depth == 0 && text[p + 1..close] == field && colon < end && text[colon] == ':' then
          Ok(Some(SkipSpace(text, colon + 1, end)))
        else FieldFrom(text, field, close + 1, end, depth)
    else if text[p] == '{' || text[p] == '[' then FieldFrom(text, field, p + 1, end, depth + 1)
    else if text[p] == '}' || text[p] == ']' then
      if depth == 0 then Ok(None) else FieldFrom(text, field, p + 1, end, depth - 1)
    else FieldFrom(text, field, p + 1, end, depth)
  }

  function FindField(text: string, field: string, begin: nat, end: nat): (r: Result<Option<nat>>)
    requires end <= |text|
    ensures r.Ok? && r.value.Some? ==> r.value.value <= end
  {
    if begin >= end || text[begin] != '{' then Error else FieldFrom(text, field, begin + 1, end, 0)
  }

  // ------------------------------------------------------------- scanning what was printed

  lemma {:induction false} SkipsSpaces(text: string, p: nat, s: string, limit: nat)
    requires At(text, p, s) && p + |s| <= limit <= |text|
    requires forall i :: 0 <= i < |s| ==> IsSpace(s[i])
    ensures SkipSpace(text, p, limit) == SkipSpace(text, p + |s|, limit)
    decreases |s|
  {
    if s != "" {
      AtChar(text, p, s, 0);
      assert s == [s[0]] + s[1..];
      AtSplit(text, p, [s[0]], s[1..]);
      SkipsSpaces(text, p + 1, s[1..], limit);
    }
  }

  /** Neither quote nor brace. */
  predicate Calm(c: char) {
    c != '"' && c != '{' && c != '}' && c != '[' && c != ']'
  }

  lemma {:induction false} BraceCalm(text: string, p: nat, s: string, depth: nat)
    requires At(text, p, s) && depth > 0 && forall i :: 0 <= i < |s| ==> s[i] != '"' && s[i] != '{' && s[i] != '}'
    ensures BraceEnd(text, p, depth, false, false) == BraceEnd(text, p + |s|, depth, false, false)
    decreases |s|
  {
    if s != "" {
      AtChar(text, p, s, 0);
      assert s == [s[0]] + s[1..];
      AtSplit(text, p, [s[0]], s[1..]);
      BraceCalm(text, p + 1, s[1..], depth);
    }
  }

  lemma {:induction false} BraceInString(text: string, p: nat, s: string, depth: nat)
    requires At(text, p, s) && depth > 0 && PlainString(s)
    ensures BraceEnd(text, p, depth, true, false) == BraceEnd(text, p + |s|, depth, true, false)
    decreases |s|
  {
    if s != "" {
      AtChar(text, p, s, 0);
      assert s == [s[0]] + s[1..];
      AtSplit(text, p, [s[0]], s[1..]);
      BraceInString(text, p + 1, s[1..], depth);
    }
  }

  lemma BraceQuoted(text: string, p: nat, s: string, depth: nat)
    requires At(text, p, Quoted(s)) && depth > 0 && PlainString(s)
    ensures BraceEnd(text, p, depth, false, false) == BraceEnd(text, p + |Quoted(s)|, depth, false, false)
  {
    AtChar(text, p, Quoted(s), 0);
    AtSplit(text, p, ['"'], s + ['"']);
    AtSplit(text, p + 1, s, ['"']);
    BraceInString(text, p + 1, s, depth);
    AtChar(text, p + 1 + |s|, ['"'], 0);
  }

  lemma {:induction false} ItemsAt(text: string, p: nat, items: Items, indent: nat)
    requires items.Item? && At(text, p, PrintItems(items, indent))
    ensures var next := p + |Line(indent)| + |Print(items.head, indent)|;
            && At(text, p, Line(indent))
            && At(text, p + |Line(indent)|, Print(items.head, indent))
            && next <= p + |PrintItems(items, indent)| <= |text|
            && if items.rest.NoItems? then p + |PrintItems(items, indent)| == next
               else At(text, next, [',']) && At(text, next + 1, PrintItems(items.rest, indent))
                    && p + |PrintItems(items, indent)| == next + 1 + |PrintItems(items.rest, indent)|
  {
    hide At, Print, Line;
    var line, head := Line(indent), Print(items.head, indent);
    var tail := if items.rest.NoItems? then "" else [','] + PrintItems(items.rest, indent);
    AtSplit(text, p, line, head + tail);
    AtSplit(text, p + |line|, head, tail);
    if items.rest.Item? {
      AtSplit(text, p + |line| + |head|, [','], PrintItems(items.rest, indent));
    }
  }

  lemma BraceOpen(text: string, p: nat, depth: nat)
    requires At(text, p, ['{']) && depth > 0
    ensures p < |text| && BraceEnd(text, p, depth, false, false) == BraceEnd(text, p + 1, depth + 1, false, false)
  {
  }

  lemma BraceClose(text: string, p: nat, depth: nat)
    requires At(text, p, ['}']) && depth > 0
    ensures p < |text|
    ensures BraceEnd(text, p, depth, false, false) == if depth == 1 then Ok(p + 1)
      else BraceEnd(text, p + 1, depth - 1, false, false)
  {
  }

  lemma BraceLine(text: string, p: nat, indent: nat, depth: nat)
    requires At(text, p, Line(indent)) && depth > 0
    ensures p + |Line(indent)| <= |text|
    ensures BraceEnd(text, p, depth, false, false) == BraceEnd(text, p + |Line(indent)|, depth, false, false)
  {
    BraceCalm(text, p, Line(indent), depth);
  }

  /** A printed value inside an object brings the brace scan back to the same depth. */
  lemma {:induction false} BraceValue(text: string, p: nat, j: Json, indent: nat, depth: nat)
    requires At(text, p, Print(j, indent)) && depth > 0 && Plain(j)
    ensures p + |Print(j, indent)| <= |text|
    ensures BraceEnd(text, p, depth, false, false) == BraceEnd(text, p + |Print(j, indent)|, depth, false, false)
    decreases j, 1
  {
    match j
    case Str(s) => BraceQuoted(text, p, s, depth);
    case Token(t) => BraceCalm(text, p, t, depth);
    case Arr(items) =>
      if items.NoItems? { BraceCalm(text, p, "[]", depth); } else { BraceArray(text, p, items, indent, depth); }
    case Obj(fields) =>
      if fields.NoFields? {
        AtChar(text, p, "{}", 0);
        AtChar(text, p, "{}", 1);
      } else {
        BraceObject(text, p, fields, indent, depth);
      }
  }

  lemma {:induction false} BraceArray(text: string, p: nat, items: Items, indent: nat, depth: nat)
    requires At(text, p, Print(Arr(items), indent)) && depth > 0 && PlainItems(items) && items.Item?
    ensures p + |Print(Arr(items), indent)| <= |text|
    ensures BraceEnd(text, p, depth, false, false)
      == BraceEnd(text, p + |Print(Arr(items), indent)|, depth, false, false)
    decreases items, 1
  {
    hide BraceEnd, At, PrintItems, Line, PlainItems;
    var body, line := PrintItems(items, indent + 2), Line(indent);
    AtSplit(text, p, ['['], body + (line + [']']));
    AtSplit(text, p + 1, body, line + [']']);
    AtSplit(text, p + 1 + |body|, line, [']']);
    BraceCalm(text, p, ['['], depth);
    BraceItems(text, p + 1, items, indent + 2, depth);
    BraceLine(text, p + 1 + |body|, indent, depth);
    BraceCalm(text, p + 1 + |body| + |line|, [']'], depth);
  }

  lemma {:induction false} BraceObject(text: string, p: nat, fields: Fields, indent: nat, depth: nat)
    requires At(text, p, Print(Obj(fields), indent)) && depth > 0 && PlainFields(fields) && fields.Field?
    ensures p + |Print(Obj(fields), indent)| <= |text|
    ensures BraceEnd(text, p, depth, false, false)
      == BraceEnd(text, p + |Print(Obj(fields), indent)|, depth, false, false)
    decreases fields, 1
  {
    hide BraceEnd, At, PrintFields, Line, PlainFields;
    var body, line := PrintFields(fields, indent + 2), Line(indent);
    AtSplit(text, p, ['{'], body + (line + ['}']));
    AtSplit(text, p + 1, body, line + ['}']);
    AtSplit(text, p + 1 + |body|, line, ['}']);
    BraceOpen(text, p, depth);
    BraceFields(text, p + 1, fields, indent + 2, depth + 1);
    BraceLine(text, p + 1 + |body|, indent, depth + 1);
    BraceClose(text, p + 1 + |body| + |line|, depth + 1);
  }

  lemma {:induction false} BraceItems(text: string, p: nat, items: Items, indent: nat, depth: nat)
    requires At(text, p, PrintItems(items, indent)) && depth > 0 && PlainItems(items)
    ensures p + |PrintItems(items, indent)| <= |text|
    ensures BraceEnd(text, p, depth, false, false)
      == BraceEnd(text, p + |PrintItems(items, indent)|, depth, false, false)
    decreases items, 0
  {
    hide BraceEnd, Print, Line, Plain;
    if items.Item? {
      hide At, PrintItems;
      ItemsAt(text, p, items, indent);
      var next := p + |Line(indent)| + |Print(items.head, indent)|;
      BraceLine(text, p, indent, depth);
      BraceValue(text, p + |Line(indent)|, items.head, indent, depth);
      if items.rest.Item? {
        BraceCalm(text, next, [','], depth);
        BraceItems(text, next + 1, items.rest, indent, depth);
      }
    }
  }

  lemma {:induction false} BraceField(text: string, p: nat, key: string, value: Json, indent: nat, depth: nat)
    requires At(text, p, PrintField(key, value, indent)) && depth > 0 && PlainString(key) && Plain(value)
    ensures p + |PrintField(key, value, indent)| <= |text|
    ensures BraceEnd(text, p, depth, false, false)
      == BraceEnd(text, p + |PrintField(key, value, indent)|, depth, false, false)
    decreases value, 2
  {
    hide BraceEnd, Print, Line, Plain, Quoted, PlainString, At;
    var line, quoted, v := Line(indent), Quoted(key), Print(value, indent);
    var q := p + |line| + |quoted|;
    AtSplit(text, p, line, quoted + ([':', ' '] + v));
    AtSplit(text, p + |line|, quoted, [':', ' '] + v);
    AtSplit(text, q, [':', ' '], v);
    BraceLine(text, p, indent, depth);
    BraceQuoted(text, p + |line|, key, depth);
    BraceCalm(text, q, [':', ' '], depth);
    BraceValue(text, q + 2, value, indent, depth);
  }

  lemma {:induction false} BraceFields(text: string, p: nat, fields: Fields, indent: nat, depth: nat)
    requires At(text, p, PrintFields(fields, indent)) && depth > 0 && PlainFields(fields)
    ensures p + |PrintFields(fields, indent)| <= |text|
    ensures BraceEnd(text, p, depth, false, false)
      == BraceEnd(text, p + |PrintFields(fields, indent)|, depth, false, false)
    decreases fields, 0
  {
    hide BraceEnd, PrintField, Plain, PlainString;
    if fields.Field? {
      hide At;
      var head := PrintField(fields.key, fields.value, indent);
      var tail := if fields.rest.NoFields? then "" else [','] + PrintFields(fields.rest, indent);
      AtSplit(text, p, head, tail);
      BraceField(text, p, fields.key, fields.value, indent, depth);
      if fields.rest.Field? {
        AtSplit(text, p + |head|, [','], PrintFields(fields.rest, indent));
        BraceCalm(text, p + |head|, [','], depth);
        BraceFields(text, p + |head| + 1, fields.rest, indent, depth);
      }
    }
  }

  /** The brace scan of a printed object finds its own closing brace, whatever braces its
      strings and nested objects hold. */
  lemma {:induction false} ObjectEnd(text: string, p: nat, fields: Fields, indent: nat)
    requires At(text, p, Print(Obj(fields), indent)) && PlainFields(fields)
    ensures p + |Print(Obj(fields), indent)| <= |text| && text[p] == '{'
    ensures MatchingBrace(text, p) == Ok(p + |Print(Obj(fields), indent)|)
  {
    AtChar(text, p, Print(Obj(fields), indent), 0);
    if fields.NoFields? {
      AtChar(text, p, "{}", 1);
    } else {
      ObjectClosed(text, p, fields, indent);
    }
  }

  lemma {:induction false} ObjectClosed(text: string, p: nat, fields: Fields, indent: nat)
    requires At(text, p, Print(Obj(fields), indent)) && PlainFields(fields) && fields.Field?
    ensures p + |Print(Obj(fields), indent)| <= |text|
    ensures BraceEnd(text, p + 1, 1, false, false) == Ok(p + |Print(Obj(fields), indent)|)
  {
    hide BraceEnd, At, PrintFields, Line, PlainFields;
    var body, line := PrintFields(fields, indent + 2), Line(indent);
    AtSplit(text, p, ['{'], body + (line + ['}']));
    AtSplit(text, p + 1, body, line + ['}']);
    AtSplit(text, p + 1 + |body|, line, ['}']);
    BraceFields(text, p + 1, fields, indent + 2, 1);
    BraceLine(text, p + 1 + |body|, indent, 1);
    BraceClose(text, p + 1 + |body| + |line|, 1);
  }

  // ------------------------------------------------------------- the field scan

  lemma {:induction false} FieldCalm(text: string, field: string, p: nat, s: string, end: nat, depth: nat)
    requires At(text, p, s) && p + |s| <= end <= |text| && forall i :: 0 <= i < |s| ==> Calm(s[i])
    ensures FieldFrom(text, field, p, end, depth) == FieldFrom(text, field, p + |s|, end, depth)
    decreases |s|
  {
    if s != "" {
      AtChar(text, p, s, 0);
      assert s == [s[0]] + s[1..];
      AtSplit(text, p, [s[0]], s[1..]);
      FieldCalm(text, field, p + 1, s[1..], end, depth);
    }
  }

  lemma {:induction false} ClosingQuote(text: string, p: nat, s: string, end: nat)
    requires At(text, p, s + ['"']) && p + |s| < end <= |text| && PlainString(s)
    ensures StringEnd(text, p, end, false) == p + |s|
    decreases |s|
  {
    AtChar(text, p, s + ['"'], 0);
    if s != "" {
      assert s + ['"'] == [s[0]] + (s[1..] + ['"']);
      AtSplit(text, p, [s[0]], s[1..] + ['"']);
      ClosingQuote(text, p + 1, s[1..], end);
    }
  }

  /** No colon follows. */
  predicate NoColon(text: string, q: nat, end: nat)
    requires end <= |text|
  {
    var c := SkipSpace(text, q, end);
    !(c < end && text[c] == ':')
  }

  lemma FieldQuoted(text: string, field: string, p: nat, s: string, end: nat, depth: nat)
    requires At(text, p, Quoted(s)) && p + |Quoted(s)| <= end <= |text| && PlainString(s)
    requires depth > 0 || s != field || NoColon(text, p + |Quoted(s)|, end)
    ensures FieldFrom(text, field, p, end, depth) == FieldFrom(text, field, p + |Quoted(s)|, end, depth)
  {
    hide SkipSpace;
    AtChar(text, p, Quoted(s), 0);
    AtSplit(text, p, ['"'], s + ['"']);
    ClosingQuote(text, p + 1, s, end);
    AtSplit(text, p + 1, s, ['"']);
  }

  lemma FieldOpen(text: string, field: string, p: nat, c: char, end: nat, depth: nat)
    requires At(text, p, [c]) && (c == '{' || c == '[') && p < end <= |text|
    ensures FieldFrom(text, field, p, end, depth) == FieldFrom(text, field, p + 1, end, depth + 1)
  {
  }

  lemma FieldClose(text: string, field: string, p: nat, c: char, end: nat, depth: nat)
    requires At(text, p, [c]) && (c == '}' || c == ']') && p < end <= |text|
    ensures FieldFrom(text, field, p, end, depth) == if depth == 0 then Ok(None)
      else FieldFrom(text, field, p + 1, end, depth - 1)
  {
  }

  lemma FieldLine(text: string, field: string, p: nat, indent: nat, end: nat, depth: nat)
    requires At(text, p, Line(indent)) && p + |Line(indent)| <= end <= |text|
    ensures FieldFrom(text, field, p, end, depth) == FieldFrom(text, field, p + |Line(indent)|, end, depth)
  {
    FieldCalm(text, field, p, Line(indent), end, depth);
  }

  /** A printed value is passed over: at depth zero even when it is the field's own name,
      because no colon follows a value. */
  lemma {:induction false} FieldValue(text: string, field: string, p: nat, j: Json, indent: nat, end: nat, depth: nat)
    requires At(text, p, Print(j, indent)) && p + |Print(j, indent)| <= end <= |text| && Plain(j)
    requires depth > 0 || NoColon(text, p + |Print(j, indent)|, end)
    ensures FieldFrom(text, field, p, end, depth) == FieldFrom(text, field, p + |Print(j, indent)|, end, depth)
    decreases j, 1
  {
    hide SkipSpace, FieldFrom, NoColon;
    match j
    case Str(s) => FieldQuoted(text, field, p, s, end, depth);
    case Token(t) => FieldCalm(text, field, p, t, end, depth);
    case Arr(items) =>
      if items.NoItems? {
        AtSplit(text, p, ['['], [']']);
        FieldOpen(text, field, p, '[', end, depth);
        FieldClose(text, field, p + 1, ']', end, depth + 1);
      } else {
        FieldArray(text, field, p, items, indent, end, depth);
      }
    case Obj(fields) =>
      if fields.NoFields? {
        AtSplit(text, p, ['{'], ['}']);
        FieldOpen(text, field, p, '{', end, depth);
        FieldClose(text, field, p + 1, '}', end, depth + 1);
      } else {
        FieldObject(text, field, p, fields, indent, end, depth);
      }
  }

  lemma {:induction false} FieldArray(text: string, field: string, p: nat, items: Items, indent: nat, end: nat,
                                      depth: nat)
    requires At(text, p, Print(Arr(items), indent)) && p + |Print(Arr(items), indent)| <= end <= |text|
    requires PlainItems(items) && items.Item?
    ensures FieldFrom(text, field, p, end, depth) == FieldFrom(text, field, p + |Print(Arr(items), indent)|, end, depth)
    decreases items, 1
  {
    hide FieldFrom, At, PrintItems, Line, PlainItems;
    var body, line := PrintItems(items, indent + 2), Line(indent);
    AtSplit(text, p, ['['], body + (line + [']']));
    AtSplit(text, p + 1, body, line + [']']);
    AtSplit(text, p + 1 + |body|, line, [']']);
    FieldOpen(text, field, p, '[', end, depth);
    FieldItems(text, field, p + 1, items, indent + 2, end, depth + 1);
    FieldLine(text, field, p + 1 + |body|, indent, end, depth + 1);
    FieldClose(text, field, p + 1 + |body| + |line|, ']', end, depth + 1);
  }

  lemma {:induction false} FieldObject(text: string, field: string, p: nat, fields: Fields, indent: nat, end: nat,
                                       depth: nat)
    requires At(text, p, Print(Obj(fields), indent)) && p + |Print(Obj(fields), indent)| <= end <= |text|
    requires PlainFields(fields) && fields.Field?
    ensures FieldFrom(text, field, p, end, depth)
      == FieldFrom(text, field, p + |Print(Obj(fields), indent)|, end, depth)
    decreases fields, 1
  {
    hide FieldFrom, At, PrintFields, Line, PlainFields;
    var body, line := PrintFields(fields, indent + 2), Line(indent);
    AtSplit(text, p, ['{'], body + (line + ['}']));
    AtSplit(text, p + 1, body, line + ['}']);
    AtSplit(text, p + 1 + |body|, line, ['}']);
    FieldOpen(text, field, p, '{', end, depth);
    FieldFields(text, field, p + 1, fields, indent + 2, end, depth + 1);
    FieldLine(text, field, p + 1 + |body|, indent, end, depth + 1);
    FieldClose(text, field, p + 1 + |body| + |line|, '}', end, depth + 1);
  }

  lemma {:induction false} FieldItems(text: string, field: string, p: nat, items: Items, indent: nat, end: nat,
                                      depth: nat)
    requires At(text, p, PrintItems(items, indent)) && p + |PrintItems(items, indent)| <= end <= |text|
    requires depth > 0 && PlainItems(items)
    ensures FieldFrom(text, field, p, end, depth) == FieldFrom(text, field, p + |PrintItems(items, indent)|, end, depth)
    decreases items, 0
  {
    hide FieldFrom, Print, Line, Plain;
    if items.Item? {
      hide At, PrintItems;
      ItemsAt(text, p, items, indent);
      var next := p + |Line(indent)| + |Print(items.head, indent)|;
      FieldLine(text, field, p, indent, end, depth);
      FieldValue(text, field, p + |Line(indent)|, items.head, indent, end, depth);
      if items.rest.Item? {
        FieldCalm(text, field, next, [','], end, depth);
        FieldItems(text, field, next + 1, items.rest, indent, end, depth);
      }
    }
  }

  /** A field whose name is another one, or that is nested, is passed over as a whole. */
  lemma {:induction false} FieldOther(text: string, field: string, p: nat, key: string, value: Json, indent: nat,
                                      end: nat, depth: nat)
    requires At(text, p, PrintField(key, value, indent)) && p + |PrintField(key, value, indent)| <= end <= |text|
    requires PlainString(key) && Plain(value)
    requires depth > 0 || (key != field && NoColon(text, p + |PrintField(key, value, indent)|, end))
    ensures FieldFrom(text, field, p, end, depth)
      == FieldFrom(text, field, p + |PrintField(key, value, indent)|, end, depth)
    decreases value, 2
  {
    hide FieldFrom, Print, Line, Plain, Quoted, PlainString, At, NoColon;
    var line, quoted, v := Line(indent), Quoted(key), Print(value, indent);
    var q := p + |line| + |quoted|;
    AtSplit(text, p, line, quoted + ([':', ' '] + v));
    AtSplit(text, p + |line|, quoted, [':', ' '] + v);
    AtSplit(text, q, [':', ' '], v);
    FieldLine(text, field, p, indent, end, depth);
    FieldQuoted(text, field, p + |line|, key, end, depth);
    FieldCalm(text, field, q, [':', ' '], end, depth);
    FieldValue(text, field, q + 2, value, indent, end, depth);
  }

  lemma {:induction false} FieldFields(text: string, field: string, p: nat, fields: Fields, indent: nat, end: nat,
                                       depth: nat)
    requires At(text, p, PrintFields(fields, indent)) && p + |PrintFields(fields, indent)| <= end <= |text|
    requires depth > 0 && PlainFields(fields)
    ensures FieldFrom(text, field, p, end, depth)
      == FieldFrom(text, field, p + |PrintFields(fields, indent)|, end, depth)
    decreases fields, 0
  {
    hide FieldFrom, PrintField, Plain, PlainString;
    if fields.Field? {
      hide At;
      var head := PrintField(fields.key, fields.value, indent);
      var tail := if fields.rest.NoFields? then "" else [','] + PrintFields(fields.rest, indent);
      AtSplit(text, p, head, tail);
      FieldOther(text, field, p, fields.key, fields.value, indent, end, depth);
      if fields.rest.Field? {
        AtSplit(text, p + |head|, [','], PrintFields(fields.rest, indent));
        FieldCalm(text, field, p + |head|, [','], end, depth);
        FieldFields(text, field, p + |head| + 1, fields.rest, indent, end, depth);
      }
    }
  }

  // ------------------------------------------------------------- the right field is found

  function Lookup(fields: Fields, field: string): Option<Json> {
    if fields.NoFields? then None
    else if fields.key == field then Some(fields.value)
    else Lookup(fields.rest, field)
  }

  lemma {:induction false} PrintStart(j: Json, indent: nat)
    requires Plain(j)
    ensures |Print(j, indent)| > 0 && !IsSpace(Print(j, indent)[0])
  {
  }

  lemma {:induction false} SkipLine(text: string, p: nat, indent: nat, limit: nat)
    requires At(text, p, Line(indent)) && p + |Line(indent)| < limit <= |text| && !IsSpace(text[p + |Line(indent)|])
    ensures SkipSpace(text, p, limit) == p + |Line(indent)|
  {
    SkipsSpaces(text, p, Line(indent), limit);
  }

  /** What follows a value: a comma, or the line of the closing bracket. */
  predicate Ended(text: string, q: nat) {
    q < |text| && (text[q] == ',' || text[q] == '\n')
  }

  lemma NoColonAfterComma(text: string, p: nat, end: nat)
    requires At(text, p, [',']) && p < end <= |text|
    ensures NoColon(text, p, end) && Ended(text, p)
  {
  }

  lemma NoColonAfterLine(text: string, p: nat, indent: nat, end: nat)
    requires At(text, p, Line(indent) + ['}']) && p + |Line(indent)| < end <= |text|
    ensures NoColon(text, p, end) && Ended(text, p)
  {
    AtChar(text, p, Line(indent) + ['}'], 0);
    AtSplit(text, p, Line(indent), ['}']);
    AtChar(text, p + |Line(indent)|, ['}'], 0);
    SkipLine(text, p, indent, end);
  }

  lemma {:induction false} FieldHit(text: string, p: nat, key: string, value: Json, indent: nat, end: nat)
    requires At(text, p, PrintField(key, value, indent)) && p + |PrintField(key, value, indent)| <= end <= |text|
    requires PlainString(key) && Plain(value)
    ensures var q := p + |Line(indent)| + |Quoted(key)| + 2;
            && FieldFrom(text, key, p, end, 0) == Ok(Some(q))
            && At(text, q, Print(value, indent))
            && q + |Print(value, indent)| == p + |PrintField(key, value, indent)|
  {
    hide Print, Plain;
    var line, quoted, v := Line(indent), Quoted(key), Print(value, indent);
    var q := p + |line| + |quoted|;
    PrintStart(value, indent);
    AtSplit(text, p, line, quoted + ([':', ' '] + v));
    AtSplit(text, p + |line|, quoted, [':', ' '] + v);
    AtSplit(text, q, [':', ' '], v);
    FieldLine(text, key, p, indent, end, 0);
    AtChar(text, q, [':', ' '], 0);
    AtChar(text, q, [':', ' '], 1);
    AtChar(text, q + 2, v, 0);
    KeyHere(text, p + |line|, key, end);
  }

  lemma {:induction false} KeyHere(text: string, p: nat, key: string, end: nat)
    requires At(text, p, Quoted(key)) && PlainString(key)
    requires p + |Quoted(key)| + 2 < end <= |text|
    requires text[p + |Quoted(key)|] == ':' && text[p + |Quoted(key)| + 1] == ' '
    requires !IsSpace(text[p + |Quoted(key)| + 2])
    ensures FieldFrom(text, key, p, end, 0) == Ok(Some(p + |Quoted(key)| + 2))
  {
    AtChar(text, p, Quoted(key), 0);
    AtSplit(text, p, ['"'], key + ['"']);
    ClosingQuote(text, p + 1, key, end);
    AtSplit(text, p + 1, key, ['"']);
    var q := p + |Quoted(key)|;
    assert SkipSpace(text, q, end) == q;
    assert SkipSpace(text, q + 2, end) == q + 2;
    assert SkipSpace(text, q + 1, end) == q + 2;
  }

  /** The first field of a list, and what comes after it. */
  lemma {:induction false} FieldsAt(text: string, p: nat, fields: Fields, indent: nat, outer: nat)
    requires fields.Field? && At(text, p, PrintFields(fields, indent) + (Line(outer) + ['}']))
    ensures var next := p + |PrintField(fields.key, fields.value, indent)|;
            && At(text, p, PrintField(fields.key, fields.value, indent))
            && if fields.rest.NoFields? then
                 At(text, next, Line(outer) + ['}']) && p + |PrintFields(fields, indent)| == next
               else
                 At(text, next, [',']) && At(text, next + 1, PrintFields(fields.rest, indent) + (Line(outer) + ['}']))
                 && p + |PrintFields(fields, indent)| == next + 1 + |PrintFields(fields.rest, indent)|
  {
    hide At, PrintField, Line;
    var head, close := PrintField(fields.key, fields.value, indent), Line(outer) + ['}'];
    if fields.rest.NoFields? {
      assert PrintFields(fields, indent) == head;
      AtSplit(text, p, head, close);
    } else {
      var more := PrintFields(fields.rest, indent);
      assert PrintFields(fields, indent) + close == head + ([','] + (more + close));
      AtSplit(text, p, head, [','] + (more + close));
      AtSplit(text, p + |head|, [','], more + close);
    }
  }

  lemma {:induction false} AfterField(text: string, p: nat, fields: Fields, indent: nat, outer: nat, end: nat)
    requires fields.Field? && At(text, p, PrintFields(fields, indent) + (Line(outer) + ['}']))
    requires p + |PrintFields(fields, indent)| + |Line(outer)| < end <= |text|
    ensures var next := p + |PrintField(fields.key, fields.value, indent)|;
            next < end && NoColon(text, next, end) && Ended(text, next)
  {
    hide At, PrintField, Line, NoColon, Ended, PrintFields;
    FieldsAt(text, p, fields, indent, outer);
    var next := p + |PrintField(fields.key, fields.value, indent)|;
    if fields.rest.NoFields? {
      NoColonAfterLine(text, next, outer, end);
    } else {
      NoColonAfterComma(text, next, end);
    }
  }

  /** The scan of a printed field list finds the first field of that name and ends up at its
      value; without one it reaches the end of the list. */
  lemma {:induction false} FieldsFound(text: string, field: string, p: nat, fields: Fields, indent: nat,
                                       outer: nat, end: nat) returns (q: nat)
    requires fields.Field? && PlainFields(fields) && At(text, p, PrintFields(fields, indent) + (Line(outer) + ['}']))
    requires p + |PrintFields(fields, indent)| + |Line(outer)| < end <= |text|
    ensures Lookup(fields, field).Some? ==>
      && FieldFrom(text, field, p, end, 0) == Ok(Some(q))
      && At(text, q, Print(Lookup(fields, field).value, indent))
      && q + |Print(Lookup(fields, field).value, indent)| < end
        && Ended(text, q + |Print(Lookup(fields, field).value, indent)|)
    ensures Lookup(fields, field).None? ==> FieldFrom(text, field, p, end, 0) == Ok(None)
    decreases fields
  {
    hide FieldFrom, PrintField, Plain, PlainString, At, NoColon, Print, Line, Ended, PrintFields, Quoted;
    var next := p + |PrintField(fields.key, fields.value, indent)|;
    FieldsAt(text, p, fields, indent, outer);
    AfterField(text, p, fields, indent, outer, end);
    q := p + |Line(indent)| + |Quoted(field)| + 2;
    if fields.key == field {
      FieldHit(text, p, field, fields.value, indent, end);
    } else {
      FieldOther(text, field, p, fields.key, fields.value, indent, end, 0);
      if fields.rest.NoFields? {
        AtSplit(text, next, Line(outer), ['}']);
        FieldLine(text, field, next, outer, end, 0);
        FieldClose(text, field, next + |Line(outer)|, '}', end, 0);
      } else {
        FieldCalm(text, field, next, [','], end, 0);
        q := FieldsFound(text, field, next + 1, fields.rest, indent, outer, end);
      }
    }
  }

  /** Looking up a field of a printed object. */
  lemma ObjectField(text: string, field: string, p: nat, fields: Fields, indent: nat) returns (q: nat)
    requires At(text, p, Print(Obj(fields), indent)) && PlainFields(fields) && fields.Field?
    ensures var end := p + |Print(Obj(fields), indent)|;
            && end <= |text|
            && (Lookup(fields, field).None? ==> FindField(text, field, p, end) == Ok(None))
            && (Lookup(fields, field).Some? ==>
                  && FindField(text, field, p, end) == Ok(Some(q))
                  && At(text, q, Print(Lookup(fields, field).value, indent + 2))
                  && q + |Print(Lookup(fields, field).value, indent + 2)| < end
                  && Ended(text, q + |Print(Lookup(fields, field).value, indent + 2)|))
  {
    hide FieldFrom, At, PrintFields, Line, PlainFields, Ended;
    var body, close := PrintFields(fields, indent + 2), Line(indent) + ['}'];
    var end := p + |Print(Obj(fields), indent)|;
    AtSplit(text, p, ['{'], body + close);
    AtChar(text, p, ['{'], 0);
    q := FieldsFound(text, field, p + 1, fields, indent + 2, indent, end);
  }
}
