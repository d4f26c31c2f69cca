/**
  The RESP reader and writer of the queue client. Bytes are characters; the input is the whole
  stream still to come, and a value is accepted only within the length, depth and size limits.
 */
module Resp {
  import opened Wrappers

  const MAX_BULK: int := 4194304
  const MAX_ARRAY: int := 10000
  const MAX_TOTAL: int := 16777216
  const MAX_LINE: int := 4096
  const MAX_DEPTH: int := 4

  datatype Value = Simple(text: string) | Error(text: string) | Bulk(text: string) | Nil | Array(items: seq<Value>)

  // ----- decimal numbers -----

  predicate IsDigit(c: char) { '0' <= c <= '9' }

  function Digit(d: int): char
    requires 0 <= d < 10
  {
    (48 + d) as char
  }

  /** Decimal digits, most significant first. */
  function Decimal(n: int): string
    requires 0 <= n
  {
    if n < 10 then [Digit(n)] else Decimal(n / 10) + [Digit(n % 10)]
  }

  function DigitsValue(s: string): int {
    if s == [] then 0 else 10 * DigitsValue(s[..|s| - 1]) + (s[|s| - 1] as int - 48)
  }

  predicate AllDigits(s: string) { s != [] && forall i :: 0 <= i < |s| ==> IsDigit(s[i]) }

  predicate InInt64(n: int) { -0x8000_0000_0000_0000 <= n <= 0x7fff_ffff_ffff_ffff }

  /** strconv.Atoi: an optional sign, digits only, in the range of int64. */
  function Atoi(s: string): Option<int> {
    var signed := s != [] && (s[0] == '-' || s[0] == '+');
    var digits := if signed then s[1..] else s;
    if !AllDigits(digits) then None
    else
      var n := if signed && s[0] == '-' then -DigitsValue(digits) else DigitsValue(digits);
      if InInt64(n) then Some(n) else None
  }

  lemma {:induction false} DecimalValue(n: int)
    requires 0 <= n
    ensures AllDigits(Decimal(n)) && DigitsValue(Decimal(n)) == n
  {
    if n < 10 {
      assert [Digit(n)][..0] == [];
    } else {
      DecimalValue(n / 10);
      assert (Decimal(n / 10) + [Digit(n % 10)])[..|Decimal(n / 10)|] == Decimal(n / 10);
    }
  }

  lemma AtoiDecimal(n: int)
    requires 0 <= n <= 0x7fff_ffff_ffff_ffff
    ensures Atoi(Decimal(n)) == Some(n)
  {
    DecimalValue(n);
  }

  function Power10(k: int): int { if k <= 0 then 1 else 10 * Power10(k - 1) }

  lemma {:induction false} DecimalLength(n: int, k: int)
    requires 0 <= n < Power10(k) && 1 <= k
    ensures |Decimal(n)| <= k
  {
    if n >= 10 { DecimalLength(n / 10, k - 1); }
  }

  // ----- lines -----

  function FirstNewline(s: string): (i: int)
    ensures 0 <= i <= |s|
  {
    if s == [] || s[0] == '\n' then 0 else 1 + FirstNewline(s[1..])
  }

  lemma {:induction false} FirstNewlineIsFirst(s: string)
    ensures var i := FirstNewline(s); (i < |s| ==> s[i] == '\n') && NoNewline(s[..i])
  {
    if s != [] && s[0] != '\n' {
      FirstNewlineIsFirst(s[1..]);
      var i := FirstNewline(s);
      assert forall j :: 0 < j < i ==> s[..i][j] == s[1..][..i - 1][j - 1];
    }
  }

  /** The first newline is the one with none before it. */
  lemma {:induction false} FirstNewlineAt(s: string, i: int)
    requires 0 <= i < |s| && s[i] == '\n' && forall j :: 0 <= j < i ==> s[j] != '\n'
    ensures FirstNewline(s) == i
  {
    if i > 0 { FirstNewlineAt(s[1..], i - 1); }
  }

  datatype Line = Line(text: string, rest: string)

  /** A line ends in CR LF and is at most MAX_LINE long with them. */
  function TakeLine(s: string): Option<Line> {
    var i := FirstNewline(s);
    if i == |s| || i + 1 > MAX_LINE || i == 0 || s[i - 1] != '\r' then None
    else Some(Line(s[..i - 1], s[i + 1..]))
  }

  predicate NoNewline(s: string) { forall i :: 0 <= i < |s| ==> s[i] != '\n' }

  lemma LineRoundTrip(text: string, rest: string)
    requires NoNewline(text)
    ensures TakeLine(text + "\r\n" + rest) == if |text| <= 4094 then Some(Line(text, rest)) else None
  {
    var s := text + "\r\n" + rest;
    assert s[|text|] == '\r' && s[|text| + 1] == '\n';
    FirstNewlineAt(s, |text| + 1) by {
      assert forall j :: 0 <= j < |text| ==> s[j] == text[j];
    }
    assert s[..|text|] == text && s[|text| + 2..] == rest;
  }

  // ----- values -----

  /** What a successful read yields: the value, the input left over and the bulk bytes still allowed. */
  datatype Parsed = Parsed(value: Value, rest: string, budget: int)

  datatype ParsedItems = ParsedItems(items: seq<Value>, rest: string, budget: int)

  datatype Number = Number(n: int, rest: string)

  /** A line that holds a number. */
  function TakeNumber(s: string): Option<Number> {
    var line := TakeLine(s);
    if line.None? || Atoi(line.value.text).None? then None
    else Some(Number(Atoi(line.value.text).value, line.value.rest))
  }

  function ParseBulk(s: string, budget: int): Option<Parsed> {
    var size := TakeNumber(s);
    if size.None? then None else BulkBody(size.value.n, size.value.rest, budget)
  }

  function BulkBody(size: int, rest: string, budget: int): Option<Parsed> {
    if size < 0 then Some(Parsed(Nil, rest, budget))
    else if size > MAX_BULK || size > budget || |rest| < size + 2 || rest[size..size + 2] != "\r\n" then None
    else Some(Parsed(Bulk(rest[..size]), rest[size + 2..], budget - size))
  }

  /** A value that is not an array. */
  function ParseLeaf(s: string, budget: int): Option<Parsed>
    requires s != []
  {
    if s[0] == '$' then ParseBulk(s[1..], budget)
    else if s[0] != '+' && s[0] != '-' then None
    else
      var line := TakeLine(s[1..]);
      if line.None? then None
      else
        Some(Parsed(if s[0] == '+' then Simple(line.value.text) else Error(line.value.text), line.value.rest, budget))
  }

  function ParseValue(s: string, max: int, budget: int, depth: int): Option<Parsed>
    decreases if depth > MAX_DEPTH then 0 else MAX_DEPTH + 1 - depth, 1, 0
  {
    if depth > MAX_DEPTH || s == [] then None
    else if s[0] != '*' then ParseLeaf(s, budget)
    else
      var count := TakeNumber(s[1..]);
      if count.None? then None
      else if count.value.n < 0 then Some(Parsed(Nil, count.value.rest, budget))
      else if count.value.n > max then None
      else ArrayOf(ParseItems(count.value.rest, count.value.n, max, budget, depth))
  }

  function ArrayOf(items: Option<ParsedItems>): Option<Parsed> {
    if items.None? then None
    else Some(Parsed(Array(items.value.items), items.value.rest, items.value.budget))
  }

  /** `count` values one after the other, one level further down. */
  function ParseItems(s: string, count: int, max: int, budget: int, depth: int): Option<ParsedItems>
    requires depth <= MAX_DEPTH
    decreases MAX_DEPTH + 1 - depth, 0, count
  {
    if count <= 0 then Some(ParsedItems([], s, budget))
    else
      var before := ParseItems(s, count - 1, max, budget, depth);
      if before.None? then None
      else Append(before, ParseValue(before.value.rest, max, before.value.budget, depth + 1))
  }

  // ----- limits -----

  /** All bulk bytes of a value. */
  function BulkBytes(v: Value): int {
    match v
    case Bulk(text) => |text|
    case Array(items) => ItemBytes(items)
    case _ => 0
  }

  function ItemBytes(items: seq<Value>): int {
    if items == [] then 0 else ItemBytes(items[..|items| - 1]) + BulkBytes(items[|items| - 1])
  }

  /** No bulk, array or line is too long, and arrays nest at most `levels` deep. */
  predicate WithinLimits(v: Value, max: int, levels: int) {
    && levels >= 0
    && match v
       case Bulk(text) => |text| <= 4194304
       case Array(items) => |items| <= max && AllWithinLimits(items, max, levels - 1)
       case Nil => true
       case _ => |v.text| <= 4094
  }

  predicate AllWithinLimits(items: seq<Value>, max: int, levels: int) {
    items != [] ==>
      && AllWithinLimits(items[..|items| - 1], max, levels)
      && WithinLimits(items[|items| - 1], max, levels)
  }

  /** A parse that stayed within the limits and charged the budget byte for byte. */
  predicate Sound(r: Parsed, max: int, budget: int, levels: int) {
    WithinLimits(r.value, max, levels) && 0 <= r.budget == budget - BulkBytes(r.value)
  }

  predicate SoundItems(r: ParsedItems, count: int, max: int, budget: int, levels: int) {
    && |r.items| == count && AllWithinLimits(r.items, max, levels)
    && 0 <= r.budget == budget - ItemBytes(r.items)
  }

  /** One more item after some items. */
  function Append(before: Option<ParsedItems>, last: Option<Parsed>): Option<ParsedItems> {
    if before.None? || last.None? then None
    else Some(ParsedItems(before.value.items + [last.value.value], last.value.rest, last.value.budget))
  }

  lemma SoundAppend(before: ParsedItems, last: Parsed, count: int, max: int, budget: int, levels: int)
    requires SoundItems(before, count, max, budget, levels) && Sound(last, max, before.budget, levels)
    ensures SoundItems(Append(Some(before), Some(last)).value, count + 1, max, budget, levels)
  {
    assert (before.items + [last.value])[..|before.items|] == before.items;
  }

  /** Whatever is accepted is within the limits, and its bulk bytes are what the budget lost. */
  lemma {:induction false} AcceptedWithinLimits(s: string, max: int, budget: int, depth: int)
    requires budget >= 0
    ensures var r := ParseValue(s, max, budget, depth); r.Some? ==> Sound(r.value, max, budget, MAX_DEPTH - depth)
    decreases if depth > MAX_DEPTH then 0 else MAX_DEPTH + 1 - depth, 1, 0
  {
    if depth > MAX_DEPTH || s == [] { return; }
    if s[0] != '*' {
      LeafWithinLimits(s, max, budget, MAX_DEPTH - depth);
      return;
    }
    var count := TakeNumber(s[1..]);
    if count.Some? && count.value.n >= 0 {
      ItemsWithinLimits(count.value.rest, count.value.n, max, budget, depth);
    }
  }

  lemma LeafWithinLimits(s: string, max: int, budget: int, levels: int)
    requires s != [] && budget >= 0 && levels >= 0
    ensures var r := ParseLeaf(s, budget); r.Some? ==> Sound(r.value, max, budget, levels)
  {
  }

  lemma {:induction false} ItemsWithinLimits(s: string, count: int, max: int, budget: int, depth: int)
    requires budget >= 0 && depth <= MAX_DEPTH && count >= 0
    ensures var r := ParseItems(s, count, max, budget, depth);
            r.Some? ==> SoundItems(r.value, count, max, budget, MAX_DEPTH - depth - 1)
    decreases MAX_DEPTH + 1 - depth, 0, count
  {
    if count == 0 { return; }
    ItemsWithinLimits(s, count - 1, max, budget, depth);
    var before := ParseItems(s, count - 1, max, budget, depth);
    if before.None? { return; }
    AcceptedWithinLimits(before.value.rest, max, before.value.budget, depth + 1);
    var last := ParseValue(before.value.rest, max, before.value.budget, depth + 1);
    if last.None? { return; }
    SoundAppend(before.value, last.value, count - 1, max, budget, MAX_DEPTH - depth - 1);
  }

  // ----- commands -----

  /** A tag, a length and a line end, then the rest. */
  function Framed(tag: char, n: int, rest: string): string
    requires 0 <= n
  {
    [tag] + (Decimal(n) + "\r\n" + rest)
  }

  function PartWire(part: string): string { Framed('$', |part|, part + "\r\n") }

  function PartsWire(parts: seq<string>): string {
    if parts == [] then [] else PartsWire(parts[..|parts| - 1]) + PartWire(parts[|parts| - 1])
  }

  /** A command on the wire. */
  function Wire(parts: seq<string>): string { Framed('*', |parts|, PartsWire(parts)) }

  function Bulks(parts: seq<string>): seq<Value> {
    if parts == [] then [] else Bulks(parts[..|parts| - 1]) + [Bulk(parts[|parts| - 1])]
  }

  function PartBytes(parts: seq<string>): (n: int)
    ensures n >= 0
  {
    if parts == [] then 0 else PartBytes(parts[..|parts| - 1]) + |parts[|parts| - 1]|
  }

  /** The reader's size limits hold for these parts. */
  predicate Fits(parts: seq<string>, budget: int) {
    PartBytes(parts) <= budget && forall i :: 0 <= i < |parts| ==> |parts[i]| <= MAX_BULK
  }

  /** A written number is read back, unless it is so large that no limit admits it. */
  lemma NumberRoundTrip(n: int, rest: string)
    requires 0 <= n
    ensures IsNumber(TakeNumber(Decimal(n) + "\r\n" + rest), n, rest)
  {
    DecimalValue(n);
    LineRoundTrip(Decimal(n), rest);
    if n <= MAX_BULK { DecimalLength(n, 7); }
  }

  predicate IsNumber(r: Option<Number>, n: int, rest: string) {
    r == Some(Number(n, rest)) || (r == None && n > MAX_BULK)
  }

  lemma BodySplit(part: string, rest: string)
    ensures var body := part + "\r\n" + rest;
            && |body| >= |part| + 2 && body[..|part|] == part
            && body[|part|..|part| + 2] == "\r\n" && body[|part| + 2..] == rest
  {
  }

  lemma FrameTail(tag: char, number: string, inner: string, rest: string)
    ensures var s := [tag] + (number + inner) + rest;
            s != [] && s[0] == tag && s[1..] == number + (inner + rest)
  {
    ConcatAssoc(number, inner, rest);
  }

  /** What one written part should be read as. */
  function PartRead(part: string, rest: string, budget: int): Option<Parsed> {
    if |part| <= MAX_BULK && |part| <= budget then Some(Parsed(Bulk(part), rest, budget - |part|)) else None
  }

  /** One written part is read back as it was, whatever bytes it holds and whatever follows. */
  lemma PartRoundTrip(s: string, part: string, rest: string, budget: int)
    requires budget >= 0 && IsNumber(TakeNumber(s), |part|, part + "\r\n" + rest)
    ensures ParseBulk(s, budget)
         == PartRead(part, rest, budget)
  {
    BodySplit(part, rest);
  }

  lemma PartValue(part: string, rest: string, max: int, budget: int)
    requires budget >= 0
    ensures ParseValue(PartWire(part) + rest, max, budget, 1)
         == PartRead(part, rest, budget)
  {
    FrameTail('$', Decimal(|part|) + "\r\n", part + "\r\n", rest);
    NumberRoundTrip(|part|, part + "\r\n" + rest);
    PartRoundTrip((PartWire(part) + rest)[1..], part, rest, budget);
  }

  lemma FitsStep(parts: seq<string>, budget: int)
    requires parts != []
    ensures var n := |parts| - 1;
            Fits(parts, budget) <==> Fits(parts[..n], budget) && |parts[n]| <= MAX_BULK
                                     && |parts[n]| <= budget - PartBytes(parts[..n])
  {
    assert forall i :: 0 <= i < |parts| - 1 ==> parts[..|parts| - 1][i] == parts[i];
  }

  /** What the items of a command should be read as. */
  function PartsRead(parts: seq<string>, rest: string, budget: int): Option<ParsedItems> {
    if Fits(parts, budget) then Some(ParsedItems(Bulks(parts), rest, budget - PartBytes(parts))) else None
  }

  lemma PartsReadStep(parts: seq<string>, before: Option<ParsedItems>, last: Option<Parsed>, rest: string, budget: int)
    requires parts != [] && budget >= 0
    requires var n := |parts| - 1;
             && before == PartsRead(parts[..n], PartWire(parts[n]) + rest, budget)
             && (before.Some? ==> last == PartRead(parts[n], rest, before.value.budget))
    ensures Append(before, last) == PartsRead(parts, rest, budget)
  {
    FitsStep(parts, budget);
  }

  lemma PartsStep(parts: seq<string>, s: string, rest: string, max: int, budget: int)
    requires parts != [] && budget >= 0
    requires ParseItems(s, |parts| - 1, max, budget, 0)
          == PartsRead(parts[..|parts| - 1], PartWire(parts[|parts| - 1]) + rest, budget)
    ensures ParseItems(s, |parts|, max, budget, 0) == PartsRead(parts, rest, budget)
  {
    var n := |parts| - 1;
    var before := ParseItems(s, n, max, budget, 0);
    if before.Some? {
      PartValue(parts[n], rest, max, before.value.budget);
      PartsReadStep(parts, before, ParseValue(before.value.rest, max, before.value.budget, 1), rest, budget);
    } else {
      PartsReadStep(parts, before, None, rest, budget);
    }
  }

  lemma {:induction false} PartsRoundTrip(parts: seq<string>, rest: string, max: int, budget: int)
    requires budget >= 0
    ensures ParseItems(PartsWire(parts) + rest, |parts|, max, budget, 0) == PartsRead(parts, rest, budget)
  {
    if parts == [] {
      assert PartsWire(parts) + rest == rest;
    } else {
      var n := |parts| - 1;
      ConcatAssoc(PartsWire(parts[..n]), PartWire(parts[n]), rest);
      PartsRoundTrip(parts[..n], PartWire(parts[n]) + rest, max, budget);
      PartsStep(parts, PartsWire(parts) + rest, rest, max, budget);
    }
  }

  /** What a command should be read as: its parts, or a refusal. */
  function CommandRead(parts: seq<string>, rest: string, max: int): Option<Parsed> {
    if |parts| <= max && Fits(parts, MAX_TOTAL)
    then Some(Parsed(Array(Bulks(parts)), rest, MAX_TOTAL - PartBytes(parts)))
    else None
  }

  /** An array header is followed by its items. */
  lemma ArrayValue(s: string, count: int, tail: string, max: int, budget: int)
    requires s != [] && s[0] == '*' && 0 <= count && 0 < max <= MAX_ARRAY && IsNumber(TakeNumber(s[1..]), count, tail)
    ensures ParseValue(s, max, budget, 0) == if count > max then None
            else ArrayOf(ParseItems(tail, count, max, budget, 0))
  {
  }

  /**
    A written command followed by any bytes is read back as exactly its parts, leaving exactly those
    bytes, if and only if it is within the reader's limits; otherwise the reader refuses it.
   */
  lemma CommandRoundTrip(parts: seq<string>, rest: string, max: int)
    requires 0 < max <= MAX_ARRAY
    ensures ParseValue(Wire(parts) + rest, max, MAX_TOTAL, 0) == CommandRead(parts, rest, max)
  {
    HeaderRead(parts, rest, max);
    PartsRoundTrip(parts, rest, max, MAX_TOTAL);
    ArrayOfParts(parts, ParseItems(PartsWire(parts) + rest, |parts|, max, MAX_TOTAL, 0), rest, max);
  }

  lemma ArrayOfParts(parts: seq<string>, items: Option<ParsedItems>, rest: string, max: int)
    requires items == PartsRead(parts, rest, MAX_TOTAL)
    ensures CommandRead(parts, rest, max) == if |parts| > max then None else ArrayOf(items)
  {
  }

  /** A command's header leads to its parts. */
  lemma HeaderRead(parts: seq<string>, rest: string, max: int)
    requires 0 < max <= MAX_ARRAY
    ensures ParseValue(Wire(parts) + rest, max, MAX_TOTAL, 0) == if |parts| > max then None
            else ArrayOf(ParseItems(PartsWire(parts) + rest, |parts|, max, MAX_TOTAL, 0))
  {
    FrameTail('*', Decimal(|parts|) + "\r\n", PartsWire(parts), rest);
    NumberRoundTrip(|parts|, PartsWire(parts) + rest);
    ArrayValue(Wire(parts) + rest, |parts|, PartsWire(parts) + rest, max, MAX_TOTAL);
  }

  // ----- the format in plain text -----

  /** A command's bytes: the number of parts, then every part with its length. */
  lemma CommandLayout(parts: seq<string>, part: string)
    ensures Wire(parts) == "*" + (Decimal(|parts|) + "\r\n" + PartsWire(parts))
    ensures PartsWire([]) == ""
    ensures PartsWire(parts + [part]) == PartsWire(parts) + ("$" + (Decimal(|part|) + "\r\n" + (part + "\r\n")))
  {
    assert (parts + [part])[..|parts|] == parts;
  }

  lemma CommandExample()
    ensures Wire(["x"]) == "*1\r\n$1\r\nx\r\n" && Decimal(4096) == "4096"
  {
    assert Decimal(1) == "1" && PartWire("x") == "$1\r\nx\r\n";
    assert ["x"][..0] == [] && PartsWire(["x"]) == [] + PartWire("x");
    assert Decimal(40) == "40" && Decimal(409) == "409";
  }

  /** A number is its digits under a sign, within int64. */
  lemma AtoiMeaning(digits: string)
    requires AllDigits(digits)
    ensures Atoi(digits) == if DigitsValue(digits) <= 9223372036854775807 then Some(DigitsValue(digits)) else None
    ensures Atoi("+" + digits) == Atoi(digits)
    ensures Atoi("-" + digits) ==
            if DigitsValue(digits) <= 9223372036854775808 then Some(-DigitsValue(digits)) else None
  {
    assert ("+" + digits)[1..] == digits && ("-" + digits)[1..] == digits;
    DigitsNonNegative(digits);
  }

  lemma {:induction false} DigitsNonNegative(digits: string)
    requires forall i :: 0 <= i < |digits| ==> IsDigit(digits[i])
    ensures DigitsValue(digits) >= 0
  {
    if digits != [] { DigitsNonNegative(digits[..|digits| - 1]); }
  }

  /** Values other than bulks and arrays: '+' and '-' lines of at most 4094 characters, and negative lengths. */
  lemma LineValues(text: string, rest: string, max: int, budget: int, depth: int)
    requires NoNewline(text) && |text| <= 4094 && depth <= 4
    ensures ParseValue("+" + (text + "\r\n" + rest), max, budget, depth) == Some(Parsed(Simple(text), rest, budget))
    ensures ParseValue("-" + (text + "\r\n" + rest), max, budget, depth) == Some(Parsed(Error(text), rest, budget))
    ensures Atoi(text).Some? && Atoi(text).value < 0 ==>
              ParseValue("$" + (text + "\r\n" + rest), max, budget, depth) ==
              ParseValue("*" + (text + "\r\n" + rest), max, budget, depth) == Some(Parsed(Nil, rest, budget))
  {
    LineRoundTrip(text, rest);
    var line := text + "\r\n" + rest;
    assert ("+" + line)[1..] == line && ("-" + line)[1..] == line && ("$" + line)[1..] == line
        && ("*" + line)[1..] == line;
  }

  /** Nothing else begins a value, and nothing is read below the fourth level. */
  lemma OtherTags(s: string, max: int, budget: int, depth: int)
    ensures s == "" || (s[0] != '+' && s[0] != '-' && s[0] != '$' && s[0] != '*') ==>
              ParseValue(s, max, budget, depth) == None
    ensures depth > 4 ==> ParseValue(s, max, budget, depth) == None
  {
  }

  /** A command is accepted exactly within the limits in plain numbers. */
  lemma CommandLimits(parts: seq<string>, rest: string, max: int)
    requires 0 < max <= 10000
    ensures ParseValue(Wire(parts) + rest, max, 16777216, 0).Some? <==>
              |parts| <= max && PartBytes(parts) <= 16777216 && forall i :: 0 <= i < |parts| ==> |parts[i]| <= 4194304
  {
    CommandRoundTrip(parts, rest, max);
  }

  // ----- the code -----

  /** writeRESPCommand. */
  method WriteCommand(parts: seq<string>) returns (out: string)
    ensures out == Wire(parts)
  {
    out := Framed('*', |parts|, []);
    ghost var head := out;
    for i := 0 to |parts|
      invariant out == head + PartsWire(parts[..i])
    {
      assert parts[..i + 1][..i] == parts[..i];
      out := out + PartWire(parts[i]);
    }
    assert parts[..|parts|] == parts;
  }

  /** The bulk strings among some values, in order. */
  function BulkTexts(items: seq<Value>): seq<string> {
    if items == [] then []
    else
      var v := items[|items| - 1];
      BulkTexts(items[..|items| - 1]) + if v.Bulk? then [v.text] else []
  }

  /** respValue.strings. */
  method Strings(v: Value) returns (texts: seq<string>)
    ensures texts == match v case Bulk(t) => [t] case Array(items) => BulkTexts(items) case _ => []
  {
    if v.Bulk? { return [v.text]; }
    texts := [];
    if !v.Array? { return; }
    for i := 0 to |v.items|
      invariant texts == BulkTexts(v.items[..i])
    {
      assert v.items[..i + 1][..i] == v.items[..i];
      if v.items[i].Bulk? { texts := texts + [v.items[i].text]; }
    }
    assert v.items[..|v.items|] == v.items;
  }

  lemma {:induction false} TextsOfBulks(parts: seq<string>)
    ensures BulkTexts(Bulks(parts)) == parts
  {
    if parts != [] {
      var n := |parts| - 1;
      TextsOfBulks(parts[..n]);
      assert (Bulks(parts[..n]) + [Bulk(parts[n])])[..|Bulks(parts[..n])|] == Bulks(parts[..n]);
    }
  }

  lemma {:induction false} ItemsStayRefused(s: string, i: int, count: int, max: int, budget: int, depth: int)
    requires depth <= MAX_DEPTH && i <= count && ParseItems(s, i, max, budget, depth).None?
    ensures ParseItems(s, count, max, budget, depth).None?
    decreases count - i
  {
    if i < count { ItemsStayRefused(s, i, count - 1, max, budget, depth); }
  }

  /** A buffered reader: the input still to come, and the bulk bytes a response may still use. */
  class Reader {
    var input: string
    var budget: int

    constructor (input: string)
      ensures this.input == input && budget == MAX_TOTAL
    {
      this.input, budget := input, MAX_TOTAL;
    }

    /** readRESPLine. */
    method ReadLine() returns (r: Option<string>)
      modifies this`input
      ensures r.Some? <==> TakeLine(old(input)).Some?
      ensures r.Some? ==> Line(r.value, input) == TakeLine(old(input)).value
    {
      FirstNewlineIsFirst(input);
      var n := 0;
      while n < |input| && n < MAX_LINE && input[n] != '\n'
        invariant 0 <= n <= FirstNewline(input)
      {
        n := n + 1;
      }
      if n == |input| || n >= MAX_LINE { return None; }
      assert n == FirstNewline(input);
      if n == 0 || input[n - 1] != '\r' { return None; }
      r := Some(input[..n - 1]);
      input := input[n + 1..];
    }

    /** readRESPBulk. */
    method ReadBulk() returns (r: Option<Value>)
      modifies this
      ensures r.Some? <==> ParseBulk(old(input), old(budget)).Some?
      ensures r.Some? ==> Parsed(r.value, input, budget) == ParseBulk(old(input), old(budget)).value
    {
      var line := ReadLine();
      if line.None? { return None; }
      var size := Atoi(line.value);
      if size.None? { return None; }
      if size.value < 0 { return Some(Nil); }
      if size.value > MAX_BULK { return None; }
      if size.value > budget { return None; }
      budget := budget - size.value;
      if |input| < size.value + 2 { return None; }
      if input[size.value..size.value + 2] != "\r\n" { return None; }
      r := Some(Bulk(input[..size.value]));
      input := input[size.value + 2..];
    }

    /** readRESPArray. */
    method ReadArray(max: int, depth: int) returns (r: Option<Value>)
      requires input != [] && input[0] == '*' && depth <= MAX_DEPTH
      modifies this
      ensures r.Some? <==> ParseValue(old(input), max, old(budget), depth).Some?
      ensures r.Some? ==> Parsed(r.value, input, budget) == ParseValue(old(input), max, old(budget), depth).value
      decreases if depth > MAX_DEPTH then 0 else MAX_DEPTH + 1 - depth, 0
    {
      input := input[1..];
      var line := ReadLine();
      if line.None? { return None; }
      var count := Atoi(line.value);
      if count.None? { return None; }
      if count.value < 0 { return Some(Nil); }
      if count.value > max { return None; }
      var items := ReadItems(count.value, max, depth);
      if items.None? { return None; }
      return Some(Array(items.value));
    }

    method ReadItems(count: int, max: int, depth: int) returns (r: Option<seq<Value>>)
      requires depth <= MAX_DEPTH && 0 <= count
      modifies this
      ensures r.Some? <==> ParseItems(old(input), count, max, old(budget), depth).Some?
      ensures r.Some? ==>
                ParsedItems(r.value, input, budget) == ParseItems(old(input), count, max, old(budget), depth).value
      decreases MAX_DEPTH + 1 - depth, 0, 0
    {
      ghost var start, allowed := input, budget;
      var items: seq<Value> := [];
      for i := 0 to count
        invariant ParseItems(start, i, max, allowed, depth) == Some(ParsedItems(items, input, budget))
      {
        var item := ReadValue(max, depth + 1);
        if item.None? {
          ItemsStayRefused(start, i + 1, count, max, allowed, depth);
          return None;
        }
        items := items + [item.value];
      }
      return Some(items);
    }

    /** readRESPValueLimited: the reader refuses what the parser refuses and yields what it yields. */
    method ReadValue(max: int, depth: int) returns (r: Option<Value>)
      modifies this
      ensures r.Some? <==> ParseValue(old(input), max, old(budget), depth).Some?
      ensures r.Some? ==> Parsed(r.value, input, budget) == ParseValue(old(input), max, old(budget), depth).value
      decreases if depth > MAX_DEPTH then 0 else MAX_DEPTH + 1 - depth, 1, 0
    {
      if depth > MAX_DEPTH || input == [] { return None; }
      var prefix := input[0];
      if prefix == '*' {
        r := ReadArray(max, depth);
        return;
      }
      input := input[1..];
      if prefix == '$' {
        r := ReadBulk();
      } else if prefix == '+' || prefix == '-' {
        var line := ReadLine();
        if line.None? { return None; }
        return Some(if prefix == '+' then Simple(line.value) else Error(line.value));
      } else {
        return None;
      }
    }

    /** readRESPValueWithLimits: a whole response, with a fresh budget. */
    method ReadResponse(maxArrayLength: int) returns (r: Option<Value>)
      modifies this
      ensures var max := if 0 < maxArrayLength <= 10000 then maxArrayLength else 10000;
              && (r.Some? <==> ParseValue(old(input), max, 16777216, 0).Some?)
              && (r.Some? ==> Parsed(r.value, input, budget) == ParseValue(old(input), max, 16777216, 0).value)
              && (r.Some? ==> WithinLimits(r.value, max, 4) && BulkBytes(r.value) <= 16777216)
    {
      var max := if maxArrayLength <= 0 || maxArrayLength > MAX_ARRAY then MAX_ARRAY else maxArrayLength;
      budget := MAX_TOTAL;
      AcceptedWithinLimits(input, max, MAX_TOTAL, 0);
      r := ReadValue(max, 0);
    }
  }

  /** The client and a reader at the other end agree: every command within the limits arrives unchanged. */
  method Exchange(parts: seq<string>, following: string) returns (received: Option<seq<string>>, left: string)
    ensures received.Some? <==> |parts| <= MAX_ARRAY && Fits(parts, MAX_TOTAL)
    ensures received.Some? ==> received.value == parts && left == following
  {
    var wire := WriteCommand(parts);
    var reader := new Reader(wire + following);
    CommandRoundTrip(parts, following, MAX_ARRAY);
    TextsOfBulks(parts);
    var v := reader.ReadResponse(MAX_ARRAY);
    left := reader.input;
    if v.None? { return None, left; }
    var texts := Strings(v.value);
    received := Some(texts);
  }
}
