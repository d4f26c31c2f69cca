/**
  The inbox writer's filter: which raw messages are blank, which are control notices, and which
  are usage to be stored.
 */
module ControlMessages {

  // ----- grammar -----

  predicate IsSpace(c: char) { c == ' ' || c == '\n' || c == '\r' || c == '\t' }

  /** raw[i..j] is white space only. */
  predicate Blank(raw: string, i: int, j: int) {
    0 <= i <= j <= |raw| && forall k :: i <= k < j ==> IsSpace(raw[k])
  }

  predicate At(raw: string, i: int, literal: string) {
    0 <= i <= |raw| - |literal| && raw[i..i + |literal|] == literal
  }

  /** Where the tokens of a control notice stand. */
  datatype Layout = Layout(open: int, name: int, colon: int, value: int, close: int)

  predicate Head(raw: string, open: int, name: int) {
    Blank(raw, 0, open) && At(raw, open, "{") && Blank(raw, open + 1, name) && At(raw, name, "\"")
  }

  predicate Quoted(raw: string, i: int, field: string) {
    At(raw, i, "\"") && At(raw, i + 1, field) && At(raw, i + 1 + |field|, "\"")
  }

  predicate Tail(raw: string, next: int, colon: int, value: int, close: int) {
    && Blank(raw, next, colon) && At(raw, colon, ":")
    && Blank(raw, colon + 1, value) && At(raw, value, "true")
    && Blank(raw, value + 4, close) && At(raw, close, "}")
    && Blank(raw, close + 1, |raw|)
  }

  /** `{ "field" : true }` with white space anywhere between tokens, and nothing else. */
  predicate Matches(raw: string, field: string, l: Layout) {
    && Head(raw, l.open, l.name)
    && Quoted(raw, l.name, field)
    && Tail(raw, l.name + |field| + 2, l.colon, l.value, l.close)
  }

  ghost predicate Notice(raw: string, field: string) { exists l :: Matches(raw, field, l) }

  const REFRESH: string := "refresh"
  const SUPPORT: string := "support_refresh"

  ghost predicate IsControl(raw: string) { Notice(raw, REFRESH) || Notice(raw, SUPPORT) }

  /** Blank, or the JSON null alone. */
  ghost predicate IsIgnorable(raw: string) {
    || Blank(raw, 0, |raw|)
    || exists i :: Blank(raw, 0, i) && At(raw, i, "null") && Blank(raw, i + 4, |raw|)
  }

  ghost predicate IsUsage(raw: string) { !IsIgnorable(raw) && !IsControl(raw) }

  // ----- scanner -----

  method SkipSpace(raw: string, start: int) returns (i: int)
    requires 0 <= start <= |raw|
    ensures Blank(raw, start, i)
    ensures i < |raw| ==> !IsSpace(raw[i])
  {
    i := start;
    while i < |raw| && IsSpace(raw[i])
      invariant Blank(raw, start, i)
    {
      i := i + 1;
    }
  }

  /** White space followed by a token can be skipped in one way only. */
  lemma SkipUnique(raw: string, start: int, i: int, j: int, c: char)
    requires Blank(raw, start, i) && (i < |raw| ==> !IsSpace(raw[i]))
    requires Blank(raw, start, j) && j < |raw| && raw[j] == c && !IsSpace(c)
    ensures i == j
  {
  }

  method HasLiteralAt(raw: string, i: int, literal: string) returns (ok: bool)
    requires 0 <= i
    ensures ok <==> At(raw, i, literal)
  {
    if i + |literal| > |raw| { return false; }
    return raw[i..i + |literal|] == literal;
  }

  method MatchString(raw: string, i: int, value: string) returns (next: int, ok: bool)
    requires 0 <= i <= |raw|
    ensures ok <==> Quoted(raw, i, value)
    ensures ok ==> next == i + |value| + 2
  {
    if i >= |raw| || raw[i] != '"' { return i, false; }
    var start := i + 1;
    var end := start + |value|;
    if end >= |raw| { return i, false; }
    if raw[start..end] != value { return i, false; }
    assert raw[i..i + 1] == ['"'] && (raw[end] == '"' ==> raw[end..end + 1] == ['"']);
    if raw[end] != '"' { return i, false; }
    return end + 1, true;
  }

  method ScanHead(raw: string) returns (ok: bool, name: int, ghost open: int)
    ensures ok ==> Head(raw, open, name)
    ensures forall o, n :: Head(raw, o, n) ==> ok && o == open && n == name
  {
    ok, name := false, 0;
    var i := SkipSpace(raw, 0);
    open := i;
    forall o, n | Head(raw, o, n) ensures o == open { SkipUnique(raw, 0, open, o, '{'); }
    if i >= |raw| || raw[i] != '{' { return; }
    name := SkipSpace(raw, i + 1);
    forall n | Head(raw, open, n) ensures n == name { SkipUnique(raw, open + 1, name, n, '"'); }
    ok := name < |raw| && raw[name] == '"';
  }

  method ScanTail(raw: string, next: int) returns (ok: bool, ghost colon: int, ghost value: int, ghost close: int)
    requires 0 <= next <= |raw|
    ensures ok ==> Tail(raw, next, colon, value, close)
    ensures !ok ==> forall c, v, e :: !Tail(raw, next, c, v, e)
  {
    ok, colon, value, close := false, 0, 0, 0;
    var i := SkipSpace(raw, next);
    forall c, v, e | Tail(raw, next, c, v, e) ensures c == i { SkipUnique(raw, next, i, c, ':'); }
    if i >= |raw| || raw[i] != ':' { return; }
    colon := i;
    i := SkipSpace(raw, i + 1);
    forall v, e | Tail(raw, next, colon, v, e) ensures v == i { SkipUnique(raw, colon + 1, i, v, 't'); }
    var literal := HasLiteralAt(raw, i, "true");
    if !literal { return; }
    value := i;
    i := SkipSpace(raw, i + 4);
    forall e | Tail(raw, next, colon, value, e) ensures e == i { SkipUnique(raw, value + 4, i, e, '}'); }
    if i >= |raw| || raw[i] != '}' { return; }
    close := i;
    i := SkipSpace(raw, i + 1);
    ok := i == |raw|;
  }

  datatype Control = NoControl | SupportRefresh | Refresh

  /** The two notices exclude each other: their field names start differently. */
  lemma QuotedApart(raw: string, i: int)
    requires Quoted(raw, i, SUPPORT)
    ensures !Quoted(raw, i, REFRESH)
  {
    assert raw[i + 1] == raw[i + 1..i + 1 + |SUPPORT|][0] == 's';
  }

  /** parseSingleTrueControlField. */
  method ParseControl(raw: string) returns (c: Control)
    ensures c == SupportRefresh <==> Notice(raw, SUPPORT)
    ensures c == Refresh <==> Notice(raw, REFRESH)
  {
    c := NoControl;
    var ok, name, open := ScanHead(raw);
    if !ok { return; }
    var next, found := MatchString(raw, name, SUPPORT);
    var field := SUPPORT;
    if found { QuotedApart(raw, name); }
    if !found {
      field := REFRESH;
      next, found := MatchString(raw, name, REFRESH);
      if !found { return; }
    }
    var tail, colon, value, close := ScanTail(raw, next);
    if !tail { return; }
    assert Matches(raw, field, Layout(open, name, colon, value, close));
    c := if field == SUPPORT then SupportRefresh else Refresh;
  }

  predicate ContainsText(raw: string, text: string) { exists k :: 0 <= k <= |raw| && At(raw, k, text) }

  lemma QuotesOfNotice(raw: string, field: string, l: Layout, k: int)
    requires Matches(raw, field, l) && (field == REFRESH || field == SUPPORT)
    requires 0 <= k < |raw| && raw[k] == '"'
    ensures k == l.name || k == l.name + |field| + 1
  {
    NoQuoteInside(raw, l.name + 1, field, k);
    NoQuoteInside(raw, l.value, "true", k);
  }

  lemma NoQuoteInside(raw: string, i: int, literal: string, k: int)
    requires At(raw, i, literal) && '"' !in literal && 0 <= k < |raw| && raw[k] == '"'
    ensures !(i <= k < i + |literal|)
  {
  }

  lemma RequestIdQuotes(raw: string, k: int)
    requires At(raw, k, "\"request_id\"")
    ensures k + 11 < |raw| && raw[k] == '"' && raw[k + 11] == '"'
  {
    assert raw[k] == raw[k..k + 12][0] && raw[k + 11] == raw[k..k + 12][11];
  }

  /** A notice has only two quotation marks, too near or too far apart for "request_id". */
  lemma NoRequestIdInNotice(raw: string, field: string)
    requires Notice(raw, field) && (field == REFRESH || field == SUPPORT)
    ensures !ContainsText(raw, "\"request_id\"")
  {
    var l :| Matches(raw, field, l);
    if k :| 0 <= k <= |raw| && At(raw, k, "\"request_id\"") {
      RequestIdQuotes(raw, k);
      QuotesOfNotice(raw, field, l, k);
      QuotesOfNotice(raw, field, l, k + 11);
    }
  }

  /** ClassifyRedisControlMessage: the "request_id" shortcut never changes the answer. */
  method Classify(raw: string) returns (c: Control)
    ensures c == SupportRefresh <==> Notice(raw, SUPPORT)
    ensures c == Refresh <==> Notice(raw, REFRESH)
  {
    if ContainsText(raw, "\"request_id\"") {
      if Notice(raw, SUPPORT) { NoRequestIdInNotice(raw, SUPPORT); }
      if Notice(raw, REFRESH) { NoRequestIdInNotice(raw, REFRESH); }
      return NoControl;
    }
    c := ParseControl(raw);
  }

  method IgnorablePayload(raw: string) returns (yes: bool)
    ensures yes <==> IsIgnorable(raw)
  {
    var i := SkipSpace(raw, 0);
    if i == |raw| { return true; }
    assert !Blank(raw, 0, |raw|);
    forall j | Blank(raw, 0, j) && At(raw, j, "null") ensures j == i { SkipUnique(raw, 0, i, j, 'n'); }
    var isNull := HasLiteralAt(raw, i, "null");
    if !isNull { return false; }
    var j := SkipSpace(raw, i + 4);
    return j == |raw|;
  }

  // ----- filtering a batch -----

  ghost function UsageOnly(messages: seq<string>): seq<string> {
    if messages == [] then []
    else
      var m := messages[|messages| - 1];
      UsageOnly(messages[..|messages| - 1]) + if IsUsage(m) then [m] else []
  }

  lemma UsageOnlyStep(messages: seq<string>, i: int)
    requires 0 <= i < |messages|
    ensures UsageOnly(messages[..i + 1])
         == UsageOnly(messages[..i]) + if IsUsage(messages[i]) then [messages[i]] else []
  {
    assert messages[..i + 1][..i] == messages[..i];
  }

  /** What the metadata observer is told. */
  datatype Signal = MarkRefreshSupported | RequestMetadataRefresh

  ghost function SignalsOf(raw: string): seq<Signal> {
    if IsIgnorable(raw) then []
    else if Notice(raw, SUPPORT) then [MarkRefreshSupported]
    else if Notice(raw, REFRESH) then [MarkRefreshSupported, RequestMetadataRefresh]
    else []
  }

  ghost function Signals(messages: seq<string>): seq<Signal> {
    if messages == [] then []
    else Signals(messages[..|messages| - 1]) + SignalsOf(messages[|messages| - 1])
  }

  lemma SignalsStep(messages: seq<string>, i: int)
    requires 0 <= i < |messages|
    ensures Signals(messages[..i + 1]) == Signals(messages[..i]) + SignalsOf(messages[i])
  {
    assert messages[..i + 1][..i] == messages[..i];
  }

  /** One message: stored or not, and what the observer hears. */
  method Judge(message: string) returns (keep: bool, told: seq<Signal>)
    ensures keep <==> IsUsage(message)
    ensures told == SignalsOf(message)
  {
    var ignorable := IgnorablePayload(message);
    if ignorable { return false, []; }
    var control := Classify(message);
    told := match control
      case NoControl => []
      case SupportRefresh => [MarkRefreshSupported]
      case Refresh => [MarkRefreshSupported, RequestMetadataRefresh];
    return control == NoControl, told;
  }

  /** The writer's loop: the kept messages are copied only once something has to be left out. */
  method FilterUsage(messages: seq<string>) returns (usage: seq<string>, signals: seq<Signal>)
    ensures usage == UsageOnly(messages)
    ensures signals == Signals(messages)
  {
    var kept: seq<string> := [];
    var filtered := false;
    signals := [];
    for i := 0 to |messages|
      invariant UsageOnly(messages[..i]) == if filtered then kept else messages[..i]
      invariant signals == Signals(messages[..i])
    {
      var message := messages[i];
      UsageOnlyStep(messages, i);
      SignalsStep(messages, i);
      var keep, told := Judge(message);
      if keep {
        if filtered { kept := kept + [message]; }
      } else if !filtered {
        kept, filtered := messages[..i], true;
      }
      signals := signals + told;
    }
    assert messages[..|messages|] == messages;
    usage := if filtered then kept else messages;
  }

  // ----- the notices as texts -----

  predicate Spaces(w: string) {
    forall i :: 0 <= i < |w| ==> w[i] == ' ' || w[i] == '\n' || w[i] == '\r' || w[i] == '\t'
  }

  /** The text of a notice, given the white space between its tokens. */
  function NoticeText(field: string, a: string, b: string, c: string, d: string, e: string, f: string): string {
    a + ("{" + (b + ("\"" + (field + ("\"" + AfterName(c, d, e, f))))))
  }

  function AfterName(c: string, d: string, e: string, f: string): string {
    c + (":" + (d + ("true" + (e + ("}" + f)))))
  }

  ghost predicate WrittenAs(raw: string, field: string) {
    exists a, b, c, d, e, f ::
      Spaces(a) && Spaces(b) && Spaces(c) && Spaces(d) && Spaces(e) && Spaces(f)
          && raw == NoticeText(field, a, b, c, d, e, f)
  }

  lemma Rest(raw: string, i: int, literal: string)
    requires At(raw, i, literal)
    ensures raw[i..] == literal + raw[i + |literal|..]
  {
  }

  lemma Skipped(raw: string, i: int, j: int)
    requires Blank(raw, i, j)
    ensures Spaces(raw[i..j]) && raw[i..] == raw[i..j] + raw[j..]
  {
  }

  lemma TailText(raw: string, next: int, c: int, v: int, e: int)
    requires Tail(raw, next, c, v, e)
    ensures 0 <= next <= c < v && v + 4 <= e < |raw|
    ensures raw[next..] == AfterName(raw[next..c], raw[c + 1..v], raw[v + 4..e], raw[e + 1..])
    ensures Spaces(raw[next..c]) && Spaces(raw[c + 1..v]) && Spaces(raw[v + 4..e]) && Spaces(raw[e + 1..])
  {
    ValueText(raw, v, e);
    Skipped(raw, next, c);
    Rest(raw, c, ":");
    Skipped(raw, c + 1, v);
  }

  lemma ValueText(raw: string, v: int, e: int)
    requires At(raw, v, "true") && Blank(raw, v + 4, e) && At(raw, e, "}") && Blank(raw, e + 1, |raw|)
    ensures 0 <= v && v + 4 <= e < |raw| && raw[v..] == "true" + (raw[v + 4..e] + ("}" + raw[e + 1..]))
    ensures Spaces(raw[v + 4..e]) && Spaces(raw[e + 1..])
  {
    Rest(raw, v, "true");
    Skipped(raw, v + 4, e);
    Rest(raw, e, "}");
    Skipped(raw, e + 1, |raw|);
    assert raw[e + 1..|raw|] == raw[e + 1..];
  }

  lemma HeadText(raw: string, o: int, n: int, field: string)
    requires Head(raw, o, n) && Quoted(raw, n, field)
    ensures 0 <= o < n && n + |field| + 2 <= |raw|
    ensures raw == raw[..o] + ("{" + (raw[o + 1..n] + ("\"" + (field + ("\"" + raw[n + |field| + 2..])))))
    ensures Spaces(raw[..o]) && Spaces(raw[o + 1..n])
  {
    QuotedText(raw, n, field);
    Skipped(raw, 0, o);
    Rest(raw, o, "{");
    Skipped(raw, o + 1, n);
    assert raw[0..] == raw && raw[0..o] == raw[..o];
  }

  lemma QuotedText(raw: string, n: int, field: string)
    requires Quoted(raw, n, field)
    ensures 0 <= n && n + |field| + 2 <= |raw|
    ensures raw[n..] == "\"" + (field + ("\"" + raw[n + |field| + 2..]))
  {
    Rest(raw, n, "\"");
    Rest(raw, n + 1, field);
    Rest(raw, n + 1 + |field|, "\"");
  }

  /** What the scanner accepts is written that way. */
  lemma NoticeIsWritten(raw: string, field: string)
    requires Notice(raw, field)
    ensures WrittenAs(raw, field)
  {
    var l :| Matches(raw, field, l);
    var o, n, c, v, e := l.open, l.name, l.colon, l.value, l.close;
    var next := n + |field| + 2;
    HeadText(raw, o, n, field);
    TailText(raw, next, c, v, e);
    Written(raw, field, raw[..o], raw[o + 1..n], raw[next..], raw[next..c], raw[c + 1..v], raw[v + 4..e], raw[e + 1..]);
  }

  lemma Written(raw: string, field: string, a: string, b: string, rest: string,
                c: string, d: string, e: string, f: string)
    requires Spaces(a) && Spaces(b) && Spaces(c) && Spaces(d) && Spaces(e) && Spaces(f)
    requires raw == a + ("{" + (b + ("\"" + (field + ("\"" + rest))))) && rest == AfterName(c, d, e, f)
    ensures WrittenAs(raw, field)
  {
    assert raw == NoticeText(field, a, b, c, d, e, f);
  }

  /** A piece of a text stands where it was put. */
  lemma Placed(raw: string, i: int, piece: string, rest: string)
    requires 0 <= i <= |raw| && raw[i..] == piece + rest
    ensures At(raw, i, piece) && i + |piece| <= |raw| && raw[i + |piece|..] == rest
    ensures Spaces(piece) ==> Blank(raw, i, i + |piece|)
  {
    assert forall k :: 0 <= k < |piece| ==> raw[i..][k] == piece[k];
  }

  lemma TailPlaced(raw: string, next: int, a: string, b: string, d: string, f: string) returns (c: int, v: int, e: int)
    requires Spaces(a) && Spaces(b) && Spaces(d) && Spaces(f)
    requires 0 <= next <= |raw| && raw[next..] == AfterName(a, b, d, f)
    ensures Tail(raw, next, c, v, e)
  {
    c, v, e := next + |a|, next + |a| + 1 + |b|, next + |a| + 1 + |b| + 4 + |d|;
    var r1, r2 := "}" + f, d + ("}" + f);
    var r3, r4 := "true" + r2, b + ("true" + r2);
    Placed(raw, next, a, ":" + r4);
    Placed(raw, c, ":", r4);
    Placed(raw, c + 1, b, r3);
    Placed(raw, v, "true", r2);
    Placed(raw, v + 4, d, r1);
    Placed(raw, e, "}", f);
    assert f == f + "";
    Placed(raw, e + 1, f, "");
  }

  lemma HeadPlaced(raw: string, field: string, a: string, b: string, rest: string) returns (o: int, n: int)
    requires Spaces(a) && Spaces(b) && raw == a + ("{" + (b + ("\"" + (field + ("\"" + rest)))))
    ensures Head(raw, o, n) && Quoted(raw, n, field)
    ensures n + |field| + 2 <= |raw| && raw[n + |field| + 2..] == rest
  {
    o, n := |a|, |a| + 1 + |b|;
    var name := "\"" + (field + ("\"" + rest));
    assert raw[0..] == raw;
    Placed(raw, 0, a, "{" + (b + name));
    Placed(raw, o, "{", b + name);
    Placed(raw, o + 1, b, name);
    QuotedPlaced(raw, n, field, rest);
  }

  lemma QuotedPlaced(raw: string, n: int, field: string, rest: string)
    requires 0 <= n <= |raw| && raw[n..] == "\"" + (field + ("\"" + rest))
    ensures Quoted(raw, n, field)
    ensures n + |field| + 2 <= |raw| && raw[n + |field| + 2..] == rest
  {
    Placed(raw, n, "\"", field + ("\"" + rest));
    Placed(raw, n + 1, field, "\"" + rest);
    Placed(raw, n + 1 + |field|, "\"", rest);
  }

  /** Conversely, every text written that way is accepted. */
  lemma WrittenIsNotice(raw: string, field: string)
    requires WrittenAs(raw, field)
    ensures Notice(raw, field)
  {
    var a, b, c, d, e, f :|
      Spaces(a) && Spaces(b) && Spaces(c) && Spaces(d) && Spaces(e) && Spaces(f) &&
      raw == NoticeText(field, a, b, c, d, e, f);
    var o, n := HeadPlaced(raw, field, a, b, AfterName(c, d, e, f));
    var i, j, k := TailPlaced(raw, n + |field| + 2, c, d, e, f);
    assert Matches(raw, field, Layout(o, n, i, j, k));
  }

  /** The scanner's notices are exactly the texts written that way. */
  lemma NoticeMeaning(raw: string, field: string)
    ensures Notice(raw, field) <==> WrittenAs(raw, field)
  {
    if Notice(raw, field) { NoticeIsWritten(raw, field); }
    if WrittenAs(raw, field) { WrittenIsNotice(raw, field); }
  }

  ghost predicate WrittenNull(raw: string) { exists v, w :: Spaces(v) && Spaces(w) && raw == v + ("null" + w) }

  /** Ignorable messages are white space, with or without one null in it. */
  lemma IgnorableMeaning(raw: string)
    ensures IsIgnorable(raw) <==> Spaces(raw) || WrittenNull(raw)
  {
    if i :| Blank(raw, 0, i) && At(raw, i, "null") && Blank(raw, i + 4, |raw|) {
      Skipped(raw, 0, i);
      Rest(raw, i, "null");
      Skipped(raw, i + 4, |raw|);
      assert raw[i + 4..|raw|] == raw[i + 4..] && raw[0..i] == raw[..i];
      assert WrittenNull(raw);
    }
    if v, w :| Spaces(v) && Spaces(w) && raw == v + ("null" + w) {
      assert raw[0..] == raw && w == w + "";
      Placed(raw, 0, v, "null" + w);
      Placed(raw, |v|, "null", w);
      Placed(raw, |v| + 4, w, "");
    }
  }

  /** What is stored: everything but white space, null and the two notices. */
  lemma UsageMeaning(raw: string)
    ensures IsUsage(raw) <==>
              !Spaces(raw) && !WrittenNull(raw) && !WrittenAs(raw, "refresh") && !WrittenAs(raw, "support_refresh")
  {
    IgnorableMeaning(raw);
    NoticeMeaning(raw, "refresh");
    NoticeMeaning(raw, "support_refresh");
  }

  lemma FirstOf(raw: string, i: int, literal: string)
    requires At(raw, i, literal) && literal != ""
    ensures i < |raw| && raw[i] == literal[0]
  {
    assert raw[i..i + |literal|][0] == raw[i];
  }

  lemma NoticeNotIgnorable(raw: string, field: string)
    requires Notice(raw, field)
    ensures !IsIgnorable(raw)
  {
    var l :| Matches(raw, field, l);
    FirstOf(raw, l.open, "{");
    if i :| Blank(raw, 0, i) && At(raw, i, "null") && Blank(raw, i + 4, |raw|) {
      FirstOf(raw, i, "null");
      if i != l.open { SkipUnique(raw, 0, l.open, i, 'n'); }
    }
  }

  /** No text is both notices. */
  lemma NoticesApart(raw: string)
    requires Notice(raw, REFRESH)
    ensures !Notice(raw, SUPPORT)
  {
    var l :| Matches(raw, REFRESH, l);
    if m :| Matches(raw, SUPPORT, m) {
      HeadUnique(raw, l.open, l.name, m.open, m.name);
      QuotedApart(raw, m.name);
    }
  }

  lemma HeadUnique(raw: string, o: int, n: int, p: int, m: int)
    requires Head(raw, o, n) && Head(raw, p, m)
    ensures o == p && n == m
  {
    FirstOf(raw, o, "{");
    FirstOf(raw, p, "{");
    FirstOf(raw, n, "\"");
    FirstOf(raw, m, "\"");
    SkipUnique(raw, 0, o, p, '{');
    SkipUnique(raw, o + 1, n, m, '"');
  }

  /** What the observer hears: a refresh notice asks for a sync, and either notice shows that notices are supported. */
  lemma SignalsMeaning(raw: string)
    ensures WrittenAs(raw, "refresh") <==> SignalsOf(raw) == [MarkRefreshSupported, RequestMetadataRefresh]
    ensures WrittenAs(raw, "support_refresh") <==> SignalsOf(raw) == [MarkRefreshSupported]
    ensures !WrittenAs(raw, "refresh") && !WrittenAs(raw, "support_refresh") <==> SignalsOf(raw) == []
  {
    NoticeMeaning(raw, "refresh");
    NoticeMeaning(raw, "support_refresh");
    if Notice(raw, REFRESH) {
      NoticeNotIgnorable(raw, REFRESH);
      NoticesApart(raw);
    } else if Notice(raw, SUPPORT) {
      NoticeNotIgnorable(raw, SUPPORT);
    }
  }

  lemma UsageOnlySnoc(a: seq<string>, m: string)
    ensures UsageOnly(a + [m]) == UsageOnly(a) + if IsUsage(m) then [m] else []
  {
    assert (a + [m])[..|a|] == a;
  }

  /** Filtering keeps every usage message as often as it came, and nothing else. */
  lemma {:induction false} UsageOnlyCounts(a: seq<string>, m: string)
    ensures multiset(UsageOnly(a))[m] == if IsUsage(m) then multiset(a)[m] else 0
  {
    if a != [] {
      var n := |a| - 1;
      UsageOnlyCounts(a[..n], m);
      assert a == a[..n] + [a[n]];
    }
  }
}
